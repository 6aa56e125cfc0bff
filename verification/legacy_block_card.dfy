/** The editing rules of the legacy block card
    (legacy/blocks-prototype/src/components/blocks/block-card.tsx): a field shows
    the text being typed until it is committed, and a commit turns that text
    into a stored value or leaves it for correction. */
module LegacyBlockCard {
  import opened Wrappers
  import opened Types
  import opened LegacyUnits
  import TextParse

  /** The length fields a card edits, stored in metres. */
  datatype LengthField = XSize | YSize | LevelHeight | PosX | PosY | PosZ

  function FieldName(field: LengthField): string {
    match field
    case XSize => "xSize"
    case YSize => "ySize"
    case LevelHeight => "levelHeight"
    case PosX => "posX"
    case PosY => "posY"
    case PosZ => "posZ"
  }

  function FieldValue(block: Block, field: LengthField): real {
    match field
    case XSize => block.xSize
    case YSize => block.ySize
    case LevelHeight => block.levelHeight
    case PosX => block.posX
    case PosY => block.posY
    case PosZ => block.posZ
  }

  /** `{ [key]: value }` for a length field. */
  function LengthPatch(field: LengthField, value: real): (patch: BlockPatch)
    ensures patch.id.None? && patch.levels.None?
  {
    match field
    case XSize => EmptyPatch.(xSize := Some(value))
    case YSize => EmptyPatch.(ySize := Some(value))
    case LevelHeight => EmptyPatch.(levelHeight := Some(value))
    case PosX => EmptyPatch.(posX := Some(value))
    case PosY => EmptyPatch.(posY := Some(value))
    case PosZ => EmptyPatch.(posZ := Some(value))
  }

  /** Merging a length patch sets that field and leaves every other field alone. */
  lemma LengthPatchSetsOneField(block: Block, field: LengthField, value: real)
    ensures FieldValue(Merge(block, LengthPatch(field, value)), field) == value
    ensures forall other: LengthField :: other != field ==>
      FieldValue(Merge(block, LengthPatch(field, value)), other) == FieldValue(block, other)
    ensures var b := Merge(block, LengthPatch(field, value));
      b.id == block.id && b.name == block.name && b.levels == block.levels
      && b.rotationX == block.rotationX && b.rotationY == block.rotationY && b.rotationZ == block.rotationZ
      && b.defaultFunction == block.defaultFunction
  {
  }

  /** Typed text per field, keyed by `${block.id}-${field}`. */
  type Drafts = map<string, string>

  function DraftKey(blockId: string, fieldName: string): (key: string)
    ensures key == blockId + "-" + fieldName
  {
    blockId + "-" + fieldName
  }

  function UpdateDraft(drafts: Drafts, key: string, value: string): (r: Drafts)
    ensures key in r && r[key] == value
    ensures forall k :: k in drafts && k != key ==> k in r && r[k] == drafts[k]
  {
    drafts[key := value]
  }

  function ClearDraft(drafts: Drafts, key: string): (r: Drafts)
    ensures key !in r
    ensures forall k :: k in drafts && k != key ==> k in r && r[k] == drafts[k]
    ensures forall k :: k in r ==> k in drafts
  {
    drafts - {key}
  }

  /** The outcome of a commit: the update sent to the store, if any, and the drafts after it. */
  datatype Commit = Commit(update: Option<BlockPatch>, drafts: Drafts)

  /** Blank or a lone minus sign: abandon the edit. */
  predicate Abandoned(value: string) {
    value == "" || value == "-"
  }

  /** `commitLength`: abandoned text clears the draft; text `parseFloat` reads as NaN
      stays for correction; a number is stored in metres and its draft cleared. */
  function CommitLength(units: Units, field: LengthField, draftKey: string, drafts: Drafts, value: string): (c: Commit)
    ensures c.update.Some? <==> !Abandoned(value) && TextParse.ParseFloat(value).Some?
    ensures c.update.Some? ==>
      c.update.value == LengthPatch(field, FromDisplayUnits(TextParse.ParseFloat(value).value, units))
    ensures c.drafts == (if !Abandoned(value) && TextParse.ParseFloat(value).None? then drafts else ClearDraft(drafts, draftKey))
  {
    if Abandoned(value) then Commit(None, ClearDraft(drafts, draftKey))
    else match TextParse.ParseFloat(value)
      case None => Commit(None, drafts)
      case Some(numeric) => Commit(Some(LengthPatch(field, FromDisplayUnits(numeric, units))), ClearDraft(drafts, draftKey))
  }

  /** `Math.round`: the nearest integer, halves rounding up. */
  function Round(x: real): (n: int)
    ensures n as real - 0.5 <= x < n as real + 0.5
  {
    (x + 0.5).Floor
  }

  /** `Math.max(1, Math.round(x))`: a whole number of levels, at least one. */
  function LevelCount(x: real): (n: int)
    ensures n >= 1
    ensures x >= 0.5 ==> n as real - 0.5 <= x < n as real + 0.5
    ensures x < 0.5 ==> n == 1
  {
    var rounded := Round(x);
    if rounded < 1 then 1 else rounded
  }

  /** `commitCount`: the same guards as `commitLength`, storing a level count. */
  function CommitCount(draftKey: string, drafts: Drafts, value: string): (c: Commit)
    ensures c.update.Some? <==> !Abandoned(value) && TextParse.ParseFloat(value).Some?
    ensures c.update.Some? ==>
      c.update.value == EmptyPatch.(levels := Some(LevelCount(TextParse.ParseFloat(value).value) as real))
    ensures c.drafts == (if !Abandoned(value) && TextParse.ParseFloat(value).None? then drafts else ClearDraft(drafts, draftKey))
  {
    if Abandoned(value) then Commit(None, ClearDraft(drafts, draftKey))
    else match TextParse.ParseFloat(value)
      case None => Commit(None, drafts)
      case Some(numeric) => Commit(Some(EmptyPatch.(levels := Some(LevelCount(numeric) as real))), ClearDraft(drafts, draftKey))
  }

  /** What a length input shows: its draft if there is one, else the stored value in
      display units; `fixed2` stands for `toFixed(2)`. */
  function ShownLength(drafts: Drafts, block: Block, field: LengthField, units: Units, fixed2: real -> string): string {
    var key := DraftKey(block.id, FieldName(field));
    if key in drafts then drafts[key] else fixed2(ToDisplayUnits(FieldValue(block, field), units))
  }

  /** What the levels input shows; `show` stands for `String(number)`. */
  function ShownLevels(drafts: Drafts, block: Block, show: real -> string): string {
    var key := DraftKey(block.id, "levels");
    if key in drafts then drafts[key] else show(block.levels)
  }

  /** The card's local state and the props its reset effect watches. */
  datatype Card = Card(blockId: string, units: Units, drafts: Drafts)

  /** A render with new props: the effect on `[block.id, units]` drops every draft
      when either changed. */
  function Rerender(card: Card, blockId: string, units: Units): (r: Card)
    ensures r.blockId == blockId && r.units == units
    ensures blockId != card.blockId || units != card.units ==> r.drafts == map[]
    ensures blockId == card.blockId && units == card.units ==> r == card
  {
    if blockId != card.blockId || units != card.units then Card(blockId, units, map[]) else card
  }

  /** Typing a number into a length field and committing it stores the value so
      that the field, no longer drafted, shows that number again. */
  lemma TypeThenCommitShowsNumber(drafts: Drafts, block: Block, field: LengthField, units: Units,
                                  value: string, fixed2: real -> string)
    requires !Abandoned(value) && TextParse.ParseFloat(value).Some?
    ensures var key := DraftKey(block.id, FieldName(field));
      var c := CommitLength(units, field, key, UpdateDraft(drafts, key, value), value);
      c.update.Some?
      && ShownLength(c.drafts, Merge(block, c.update.value), field, units, fixed2)
         == fixed2(TextParse.ParseFloat(value).value)
  {
    var key := DraftKey(block.id, FieldName(field));
    var v := TextParse.ParseFloat(value).value;
    LengthPatchSetsOneField(block, field, FromDisplayUnits(v, units));
    DisplayRoundTrip(v, units);
  }

  /** Text that does not parse is neither stored nor lost: the field keeps showing it. */
  lemma UnparsableTextStays(drafts: Drafts, block: Block, field: LengthField, units: Units,
                            value: string, fixed2: real -> string)
    requires !Abandoned(value) && TextParse.ParseFloat(value).None?
    ensures var key := DraftKey(block.id, FieldName(field));
      var c := CommitLength(units, field, key, UpdateDraft(drafts, key, value), value);
      c.update.None? && ShownLength(c.drafts, block, field, units, fixed2) == value
  {
  }

  /** After switching block or units every field shows the stored value. */
  lemma SwitchShowsStoredValues(card: Card, block: Block, units: Units, field: LengthField, fixed2: real -> string)
    requires block.id != card.blockId || units != card.units
    ensures ShownLength(Rerender(card, block.id, units).drafts, block, field, units, fixed2)
            == fixed2(ToDisplayUnits(FieldValue(block, field), units))
  {
  }
}
