/** The block store of the legacy prototype (legacy/blocks-prototype/src/store/blocks.ts):
    blocks named by position in bijective base 26, an unbounded undo stack of
    whole block lists, and a pending snapshot that a drag fills in. */
module LegacyStore {
  import opened Wrappers
  import opened Types
  import Seqs

  const Alphabet: string := "ABCDEFGHIJKLMNOPQRSTUVWXYZ"

  predicate IsLetter(c: char) {
    'A' <= c <= 'Z'
  }

  predicate AllLetters(s: string) {
    forall i :: 0 <= i < |s| ==> IsLetter(s[i])
  }

  /** The capital with the given position in the alphabet. */
  function Letter(k: nat): (c: char)
    requires k < 26
    ensures IsLetter(c)
  {
    ('A' as int + k) as char
  }

  /** `alphabet[k]`: the alphabet is the 26 capitals in code-point order. */
  function AlphabetAt(k: nat): (c: char)
    requires k < 26
    ensures c == Letter(k)
  {
    Alphabet[k]
  }

  /** The letters of a block's name: 0 is "A", 25 is "Z", 26 is "AA". Each step
      takes the last digit and continues with `floor(index / 26) - 1`. */
  function Label(index: nat): (s: string)
    ensures |s| >= 1
    decreases index
  {
    var rest := index / 26 - 1;
    (if rest >= 0 then Label(rest) else "") + [Letter(index % 26)]
  }

  /** `formatBlockName`. */
  function FormatBlockName(index: nat): (name: string)
    ensures |name| > 6 && name[..6] == "Block "
  {
    "Block " + Label(index)
  }

  /** The letters still to be produced while the loop's counter is `current`. */
  function Pending(current: int): string {
    if current >= 0 then Label(current) else ""
  }

  /** One turn of the loop: the last pending letter moves to the front of the output. */
  lemma PendingStep(current: nat, letters: string)
    ensures Pending(current) + letters == Pending(current / 26 - 1) + ([Letter(current % 26)] + letters)
  {
    LabelStep(current);
  }

  /** The `while` loop of `formatBlockName`, which prepends one letter per step. */
  method FormatBlockNameLoop(index: nat) returns (name: string)
    ensures name == FormatBlockName(index)
  {
    var letters := "";
    var current: int := index;
    while current >= 0
      invariant current >= -1
      invariant Label(index) == Pending(current) + letters
      decreases current + 1
    {
      PendingStep(current, letters);
      letters := [AlphabetAt(current % 26)] + letters;
      current := current / 26 - 1;
    }
    name := "Block " + letters;
  }

  /** Reading a label as a bijective base-26 numeral: "A" is 1, "Z" 26, "AA" 27. */
  function LabelValue(s: string): (v: nat)
    requires AllLetters(s)
    ensures |s| >= 1 ==> v >= 1
  {
    if |s| == 0 then 0
    else LabelValue(s[..|s| - 1]) * 26 + (s[|s| - 1] as int - 'A' as int) + 1
  }

  /** The inverse of `FormatBlockName` on names it can produce. */
  function ParseBlockName(name: string): (r: Option<nat>)
    ensures r.Some? ==> |name| > 6 && name[..6] == "Block "
  {
    if |name| > 6 && name[..6] == "Block " && AllLetters(name[6..]) then Some(LabelValue(name[6..]) - 1)
    else None
  }

  lemma {:induction false} LabelValueOfLabel(index: nat)
    ensures AllLetters(Label(index))
    ensures LabelValue(Label(index)) == index + 1
    decreases index
  {
    LabelIsLetters(index);
    var s := Label(index);
    var rest := index / 26 - 1;
    if rest >= 0 {
      LabelValueOfLabel(rest);
      assert s[..|s| - 1] == Label(rest);
    } else {
      assert s[..|s| - 1] == "";
    }
  }

  /** Division by 26 recovers the quotient and the digit. */
  lemma DigitSplit(q: nat, d: nat)
    requires d < 26
    ensures (q * 26 + d) % 26 == d && (q * 26 + d) / 26 == q
  {
  }

  lemma LabelStep(n: nat)
    ensures Label(n) == Pending(n / 26 - 1) + [Letter(n % 26)]
  {
  }

  /** The last letter of a label is its value's last base-26 digit. */
  lemma LastDigit(s: string)
    requires |s| >= 1 && AllLetters(s)
    ensures (LabelValue(s) - 1) / 26 == LabelValue(s[..|s| - 1])
    ensures Letter((LabelValue(s) - 1) % 26) == s[|s| - 1]
  {
    var d := s[|s| - 1] as int - 'A' as int;
    DigitSplit(LabelValue(s[..|s| - 1]), d);
  }

  lemma {:induction false} LabelOfLabelValue(s: string)
    requires |s| >= 1 && AllLetters(s)
    ensures Label(LabelValue(s) - 1) == s
    decreases |s|, 0
  {
    var init := s[..|s| - 1];
    var n := LabelValue(s) - 1;
    LastDigit(s);
    LabelStep(n);
    PendingOfLabelValue(init);
    assert Label(n) == init + [s[|s| - 1]];
    assert s == init + [s[|s| - 1]];
  }

  /** What is left of a label once its last letter is taken off. */
  lemma {:induction false} PendingOfLabelValue(s: string)
    requires AllLetters(s)
    ensures Pending(LabelValue(s) - 1) == s
    decreases |s|, 1
  {
    if |s| > 0 {
      LabelOfLabelValue(s);
    }
  }

  lemma {:induction false} LabelIsLetters(index: nat)
    ensures AllLetters(Label(index))
    decreases index
  {
    if index / 26 - 1 >= 0 {
      LabelIsLetters(index / 26 - 1);
    }
  }

  /** Every index has a name that reads back as that index. */
  lemma ParseFormatRoundTrip(index: nat)
    ensures ParseBlockName(FormatBlockName(index)) == Some(index)
  {
    var name := FormatBlockName(index);
    assert name[6..] == Label(index);
    LabelIsLetters(index);
    LabelValueOfLabel(index);
  }

  /** Every name that parses is the name of the index it parses to. */
  lemma FormatParseRoundTrip(name: string)
    requires ParseBlockName(name).Some?
    ensures FormatBlockName(ParseBlockName(name).value) == name
  {
    LabelOfLabelValue(name[6..]);
    assert name == name[..6] + name[6..];
  }

  /** Distinct positions get distinct names. */
  lemma FormatBlockNameInjective(i: nat, j: nat)
    requires FormatBlockName(i) == FormatBlockName(j)
    ensures i == j
  {
    ParseFormatRoundTrip(i);
    ParseFormatRoundTrip(j);
  }

  /** The first names of each length. */
  lemma FormatBlockNameExamples()
    ensures FormatBlockName(0) == "Block A"
    ensures FormatBlockName(25) == "Block Z"
    ensures FormatBlockName(26) == "Block AA"
    ensures FormatBlockName(701) == "Block ZZ"
    ensures FormatBlockName(702) == "Block AAA"
  {
    assert Label(0) == "A";
    assert Label(25) == "Z";
    assert Label(26) == "AA";
    assert Label(701) == "ZZ";
    assert Label(702) == Label(0) + "AA";
  }

  /** A block equals another apart from its name. */
  predicate Renamed(after: Block, before: Block) {
    after.(name := before.name) == before
  }

  /** Every block is named after its position. */
  predicate Named(blocks: seq<Block>) {
    forall i :: 0 <= i < |blocks| ==> blocks[i].name == FormatBlockName(i)
  }

  /** `reindexBlocks`: names follow positions, nothing else changes. */
  function Reindex(blocks: seq<Block>): (r: seq<Block>)
    ensures |r| == |blocks| && Named(r)
    ensures forall i :: 0 <= i < |blocks| ==> Renamed(r[i], blocks[i])
  {
    seq(|blocks|, i requires 0 <= i < |blocks| => blocks[i].(name := FormatBlockName(i)))
  }

  /** Reindexing named blocks changes nothing, so reindexing twice is reindexing once. */
  lemma ReindexNamedIsIdentity(blocks: seq<Block>)
    requires Named(blocks)
    ensures Reindex(blocks) == blocks
  {
  }

  /** `createBlock`: a 24 × 24 m eight-level office block, 8 m further along x per index. */
  function CreateBlock(index: nat, id: string): (b: Block)
    ensures b.id == id && b.name == FormatBlockName(index)
  {
    Block(id, FormatBlockName(index), 24.0, 24.0, 8.0, 3.6, (index * 8) as real, 0.0, 0.0,
          Some(0.0), Some(0.0), Some(0.0), Office)
  }

  datatype TransformMode = Translate | Rotate

  datatype State = State(
    units: Units,
    blocks: seq<Block>,
    past: seq<seq<Block>>,
    future: seq<seq<Block>>,
    snapshot: Option<seq<Block>>,
    selectedBlockId: Option<string>,
    transformMode: TransformMode)

  /** The store as created, holding `createBlock(0)` with the given id. */
  function Initial(id: string): (s: State)
    ensures |s.blocks| == 1 && Named(s.blocks) && s.selectedBlockId == Some(id)
    ensures s.past == [] && s.future == [] && s.snapshot.None?
    ensures s.blocks == [CreateBlock(0, id)] && s.units == Metric && s.transformMode == Translate
  {
    State(Metric, [CreateBlock(0, id)], [], [], None, Some(id), Translate)
  }

  /** What `withHistory` does to the stacks: the previous blocks go on top of
      `past`, and `future` and the pending snapshot are dropped. */
  predicate RecordsHistory(before: State, after: State) {
    after.past == before.past + [before.blocks] && after.future == [] && after.snapshot.None?
    && after.units == before.units && after.transformMode == before.transformMode
  }

  function WithHistory(s: State, next: seq<Block>): (r: State)
    ensures RecordsHistory(s, r) && r.blocks == next && r.selectedBlockId == s.selectedBlockId
  {
    s.(blocks := next, past := s.past + [s.blocks], future := [], snapshot := None)
  }

  /** The position of the first block with the id (`findIndex`). */
  function FirstIndex(blocks: seq<Block>, id: string): (r: Option<nat>)
    ensures r.None? <==> !HasId(blocks, id)
    ensures r.Some? ==> r.value < |blocks| && blocks[r.value].id == id
    ensures r.Some? ==> forall j :: 0 <= j < r.value ==> blocks[j].id != id
  {
    if |blocks| == 0 then None
    else if blocks[0].id == id then Some(0)
    else match FirstIndex(blocks[1..], id)
      case None => None
      case Some(k) => Some(k + 1)
  }

  /** The selection after a list change: kept when still present, else the
      first block, else nothing. */
  function KeepOrFirst(blocks: seq<Block>, selected: Option<string>): (r: Option<string>)
    ensures r.Some? ==> HasId(blocks, r.value)
    ensures |blocks| > 0 ==> r.Some?
    ensures selected.Some? && HasId(blocks, selected.value) ==> r == selected
  {
    if selected.Some? && HasId(blocks, selected.value) then selected
    else if |blocks| > 0 then Some(blocks[0].id)
    else None
  }

  /** `addBlock`: a default block goes last, every block is renamed by position,
      and the new block is selected. */
  function AddBlock(s: State, newId: string): (r: State)
    ensures |r.blocks| == |s.blocks| + 1 && Named(r.blocks)
    ensures forall i :: 0 <= i < |s.blocks| ==> Renamed(r.blocks[i], s.blocks[i])
    ensures r.blocks[|s.blocks|] == CreateBlock(|s.blocks|, newId)
    ensures r.selectedBlockId == Some(newId)
    ensures RecordsHistory(s, r)
  {
    var reindexed := Reindex(s.blocks + [CreateBlock(|s.blocks|, newId)]);
    WithHistory(s, reindexed).(selectedBlockId := Some(reindexed[|reindexed| - 1].id))
  }

  /** `duplicateBlock`: a copy with a new id goes right after the first block
      with the id, and is selected; an unknown id changes nothing. */
  function DuplicateBlock(s: State, id: string, cloneId: string): (r: State)
    ensures !HasId(s.blocks, id) ==> r == s
    ensures HasId(s.blocks, id) ==>
      var i := FirstIndex(s.blocks, id).value;
      |r.blocks| == |s.blocks| + 1 && Named(r.blocks)
      && (forall j :: 0 <= j <= i ==> Renamed(r.blocks[j], s.blocks[j]))
      && Renamed(r.blocks[i + 1], s.blocks[i].(id := cloneId))
      && (forall j :: i < j < |s.blocks| ==> Renamed(r.blocks[j + 1], s.blocks[j]))
      && r.selectedBlockId == Some(cloneId)
      && RecordsHistory(s, r)
  {
    match FirstIndex(s.blocks, id)
    case None => s
    case Some(i) =>
      var clone := s.blocks[i].(id := cloneId);
      WithHistory(s, Reindex(InsertAfter(s.blocks, i, clone))).(selectedBlockId := Some(clone.id))
  }

  /** `[...xs.slice(0, i + 1), x, ...xs.slice(i + 1)]`. */
  function InsertAfter<T>(xs: seq<T>, i: nat, x: T): (r: seq<T>)
    requires i < |xs|
    ensures |r| == |xs| + 1 && r[i + 1] == x
    ensures forall j :: 0 <= j <= i ==> r[j] == xs[j]
    ensures forall j :: i < j < |xs| ==> r[j + 1] == xs[j]
  {
    xs[..i + 1] + [x] + xs[i + 1..]
  }

  /** The blocks with the payload merged into those with the id. */
  function Patched(blocks: seq<Block>, id: string, patch: BlockPatch): (r: seq<Block>)
    ensures |r| == |blocks|
    ensures forall i :: 0 <= i < |blocks| && blocks[i].id != id ==> r[i] == blocks[i]
    ensures forall i :: 0 <= i < |blocks| && blocks[i].id == id ==> r[i] == Merge(blocks[i], patch)
  {
    seq(|blocks|, i requires 0 <= i < |blocks| => if blocks[i].id == id then Merge(blocks[i], patch) else blocks[i])
  }

  /** `updateBlock`: merges the payload and renames by position (a `name` in the
      payload is overwritten); history is recorded even when no block matched. */
  function UpdateBlock(s: State, id: string, patch: BlockPatch): (r: State)
    ensures |r.blocks| == |s.blocks| && Named(r.blocks)
    ensures forall i :: 0 <= i < |s.blocks| ==>
      Renamed(r.blocks[i], if s.blocks[i].id == id then Merge(s.blocks[i], patch) else s.blocks[i])
    ensures r.selectedBlockId == s.selectedBlockId
    ensures RecordsHistory(s, r)
  {
    WithHistory(s, Reindex(Patched(s.blocks, id, patch)))
  }

  /** `updateBlockLive`: the same merge without renaming; nothing but the blocks changes. */
  function UpdateBlockLive(s: State, id: string, patch: BlockPatch): (r: State)
    ensures r == s.(blocks := r.blocks)
    ensures |r.blocks| == |s.blocks|
    ensures forall i :: 0 <= i < |s.blocks| ==>
      r.blocks[i] == if s.blocks[i].id == id then Merge(s.blocks[i], patch) else s.blocks[i]
  {
    s.(blocks := Patched(s.blocks, id, patch))
  }

  /** The blocks without the id, in order. */
  function Without(blocks: seq<Block>, id: string): (r: seq<Block>)
    ensures !HasId(r, id)
    ensures forall i :: 0 <= i < |blocks| && blocks[i].id != id ==> blocks[i] in r
    ensures Seqs.Subsequence(r, blocks)
  {
    Seqs.FilterIsSubsequence((b: Block) => b.id != id, blocks);
    Seqs.Filter((b: Block) => b.id != id, blocks)
  }

  /** `removeBlock`: refused when one block is left. Otherwise the blocks with the
      id go, the rest are renamed by position (an emptied list gets a fresh
      default block), and the selection stays if present, else moves to the first block. */
  function RemoveBlock(s: State, id: string, freshId: string): (r: State)
    ensures |s.blocks| == 1 ==> r == s
    ensures |s.blocks| != 1 ==>
      RecordsHistory(s, r) && |r.blocks| >= 1 && Named(r.blocks)
      && r.selectedBlockId == KeepOrFirst(r.blocks, s.selectedBlockId)
    ensures |s.blocks| != 1 && |Without(s.blocks, id)| > 0 ==>
      |r.blocks| == |Without(s.blocks, id)| && !HasId(r.blocks, id)
      && forall i :: 0 <= i < |r.blocks| ==> Renamed(r.blocks[i], Without(s.blocks, id)[i])
    ensures |s.blocks| != 1 && |Without(s.blocks, id)| == 0 ==> r.blocks == [CreateBlock(0, freshId)]
  {
    if |s.blocks| == 1 then s
    else
      var next := Without(s.blocks, id);
      var reindexed := if |next| > 0 then Reindex(next) else [CreateBlock(0, freshId)];
      assert |next| > 0 ==> !HasId(reindexed, id) by {
        if |next| > 0 {
          forall i | 0 <= i < |reindexed| ensures reindexed[i].id != id {
            assert reindexed[i].id == next[i].id;
          }
        }
      }
      WithHistory(s, reindexed).(selectedBlockId := KeepOrFirst(reindexed, s.selectedBlockId))
  }

  /** `setUnitsFromFirstBlock`: no history, and nothing changes when the units already match. */
  function SetUnits(s: State, units: Units): (r: State)
    ensures r == s.(units := units)
  {
    if s.units == units then s else s.(units := units)
  }

  /** `selectBlock` does not check that the id exists. */
  function SelectBlock(s: State, id: Option<string>): (r: State)
    ensures r == s.(selectedBlockId := id)
  {
    s.(selectedBlockId := id)
  }

  function SetTransformMode(s: State, mode: TransformMode): (r: State)
    ensures r == s.(transformMode := mode)
  {
    s.(transformMode := mode)
  }

  /** `startSnapshot`: the blocks before a drag, unless a snapshot is already pending. */
  function StartSnapshot(s: State): (r: State)
    ensures s.snapshot.Some? ==> r == s
    ensures s.snapshot.None? ==> r == s.(snapshot := Some(s.blocks))
  {
    if s.snapshot.Some? then s else s.(snapshot := Some(s.blocks))
  }

  /** `commitSnapshot`: a pending snapshot becomes the newest undo step. */
  function CommitSnapshot(s: State): (r: State)
    ensures s.snapshot.None? ==> r == s
    ensures s.snapshot.Some? ==>
      r.past == s.past + [s.snapshot.value] && r.future == [] && r.snapshot.None?
      && r.blocks == s.blocks && r.selectedBlockId == s.selectedBlockId
  {
    match s.snapshot
    case None => s
    case Some(snap) => s.(past := s.past + [snap], snapshot := None, future := [])
  }

  /** `undo`: a pending snapshot is first folded into `past` (which drops `future`);
      then the newest past entry becomes live and the current blocks go on `future`. */
  function Undo(s: State): (r: State)
    ensures s.snapshot.None? && |s.past| == 0 ==> r == s
    ensures s.snapshot.None? && |s.past| > 0 ==>
      r.blocks == s.past[|s.past| - 1] && r.past == s.past[..|s.past| - 1] && r.future == s.future + [s.blocks]
    ensures s.snapshot.Some? ==>
      r.blocks == s.snapshot.value && r.past == s.past && r.future == [s.blocks]
    ensures r.snapshot.None?
    ensures r.units == s.units && r.transformMode == s.transformMode
    ensures s.snapshot.Some? || |s.past| > 0 ==> r.selectedBlockId == KeepOrFirst(r.blocks, s.selectedBlockId)
  {
    var pastStack := if s.snapshot.Some? then s.past + [s.snapshot.value] else s.past;
    var futureStack := if s.snapshot.Some? then [] else s.future;
    if |pastStack| == 0 then
      (if s.snapshot.Some? then s.(snapshot := None) else s)
    else
      var previous := pastStack[|pastStack| - 1];
      assert s.snapshot.Some? ==> pastStack[..|pastStack| - 1] == s.past;
      s.(blocks := previous, past := pastStack[..|pastStack| - 1], future := futureStack + [s.blocks],
         snapshot := None, selectedBlockId := KeepOrFirst(previous, s.selectedBlockId))
  }

  /** `redo`: the newest future entry becomes live and the current blocks go on `past`;
      a pending snapshot is dropped. */
  function Redo(s: State): (r: State)
    ensures |s.future| == 0 ==> r == s
    ensures |s.future| > 0 ==>
      r.blocks == s.future[|s.future| - 1] && r.future == s.future[..|s.future| - 1]
      && r.past == s.past + [s.blocks] && r.snapshot.None?
      && r.selectedBlockId == KeepOrFirst(r.blocks, s.selectedBlockId)
    ensures r.units == s.units && r.transformMode == s.transformMode
  {
    if |s.future| == 0 then s
    else
      var next := s.future[|s.future| - 1];
      s.(blocks := next, past := s.past + [s.blocks], future := s.future[..|s.future| - 1],
         snapshot := None, selectedBlockId := KeepOrFirst(next, s.selectedBlockId))
  }
}
