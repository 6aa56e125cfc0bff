/** The page-level logic of the blocks workshop (src/modules/blocks/BlocksPage.tsx):
    the per-page undo stack of direct-manipulation transforms, the file
    validation, block duplication and the level stepper. */
module BlocksPage {
  import opened Wrappers
  import opened Types
  import opened JsValues
  import opened BlocksStore
  import Seqs

  /** The transform fields a drag edits. */
  datatype TransformState = TransformState(posX: real, posY: real, posZ: real, rotationZ: Option<real>)

  datatype TransformRecord = TransformRecord(id: string, prev: TransformState, next: TransformState)

  /** The block being dragged and its pose when the drag began. */
  datatype ActiveTransform = ActiveTransform(id: string, prev: TransformState)

  /** The page's own state: the transform undo and redo stacks (tops at the
      end), the pending drag and the highlighted block. */
  datatype Page = Page(
    undoStack: seq<TransformRecord>,
    redoStack: seq<TransformRecord>,
    active: Option<ActiveTransform>,
    selectedBlockId: Option<string>)

  datatype PageAndStore = PageAndStore(page: Page, store: State)

  /** `pickTransformState`: the position and the yaw, defaulting to 0. */
  function PickTransformState(block: Block): (t: TransformState)
    ensures t.posX == block.posX && t.posY == block.posY && t.posZ == block.posZ
    ensures t.rotationZ.Some? && (block.rotationZ.Some? ==> t.rotationZ == block.rotationZ)
    ensures block.rotationZ.None? ==> t.rotationZ == Some(0.0)
  {
    TransformState(block.posX, block.posY, block.posZ, Some(block.rotationZ.GetOr(0.0)))
  }

  /** `hasTransformChanged`: an absent yaw compares as 0. */
  predicate HasTransformChanged(a: TransformState, b: TransformState) {
    a.posX != b.posX || a.posY != b.posY || a.posZ != b.posZ || a.rotationZ.GetOr(0.0) != b.rotationZ.GetOr(0.0)
  }

  /** No state differs from itself, the test is symmetric, and an absent yaw
      is the same as a zero yaw. */
  lemma TransformChangeLaws(a: TransformState, b: TransformState)
    ensures !HasTransformChanged(a, a)
    ensures HasTransformChanged(a, b) == HasTransformChanged(b, a)
    ensures !HasTransformChanged(a.(rotationZ := None), a.(rotationZ := Some(0.0)))
    ensures !HasTransformChanged(a, b) <==> a.(rotationZ := None) == b.(rotationZ := None) && a.rotationZ.GetOr(0.0) == b.rotationZ.GetOr(0.0)
  {
  }

  /** Picking a pose is insensitive to `ensureRotation`. */
  lemma PickIgnoresRotationDefaults(block: Block)
    ensures !HasTransformChanged(PickTransformState(block), PickTransformState(EnsureRotation(block)))
  {
  }

  /** `captureTransformStart`: remembers the pose at the start of a drag,
      unless a drag of the same block is already pending. */
  function CaptureTransformStart(p: Page, block: Option<Block>): (r: Page)
    ensures r.undoStack == p.undoStack && r.redoStack == p.redoStack && r.selectedBlockId == p.selectedBlockId
    ensures block.None? ==> r == p
    ensures block.Some? && p.active.Some? && p.active.value.id == block.value.id ==> r == p
    ensures block.Some? && (p.active.None? || p.active.value.id != block.value.id) ==>
              r.active == Some(ActiveTransform(block.value.id, PickTransformState(block.value)))
  {
    match block
    case None => p
    case Some(b) =>
      if p.active.Some? && p.active.value.id == b.id then p
      else p.(active := Some(ActiveTransform(b.id, PickTransformState(b))))
  }

  /** `finalizeTransformRecord`: a record is pushed only for the block whose
      drag is pending and only when its pose changed; pushing clears the
      redo stack; the pending drag is always cleared. */
  function FinalizeTransformRecord(p: Page, id: string, next: TransformState): (r: Page)
    ensures r.active.None? && r.selectedBlockId == p.selectedBlockId
    ensures var pushes := p.active.Some? && p.active.value.id == id && HasTransformChanged(p.active.value.prev, next);
      && (pushes ==> r.undoStack == p.undoStack + [TransformRecord(id, p.active.value.prev, next)] && r.redoStack == [])
      && (!pushes ==> r.undoStack == p.undoStack && r.redoStack == p.redoStack)
  {
    match p.active
    case None => p.(active := None)
    case Some(start) =>
      if start.id != id then p.(active := None)
      else if HasTransformChanged(start.prev, next) then
        Page(p.undoStack + [TransformRecord(id, start.prev, next)], [], None, p.selectedBlockId)
      else p.(active := None)
  }

  /** The partial update a transform state applies to a block. */
  function TransformPatch(t: TransformState): (patch: BlockPatch)
    ensures forall b: Block :: Merge(b, patch) == b.(posX := t.posX, posY := t.posY, posZ := t.posZ, rotationZ := t.rotationZ)
  {
    EmptyPatch.(posX := Some(t.posX), posY := Some(t.posY), posZ := Some(t.posZ), rotationZ := Some(t.rotationZ))
  }

  /** `undoLast`: pops the newest record onto the redo stack, writes its
      previous pose through the store (itself a recorded update) and
      highlights the block. An empty stack changes nothing. */
  function UndoLast(p: Page, s: State): (r: PageAndStore)
    ensures |p.undoStack| == 0 ==> r == PageAndStore(p, s)
    ensures |p.undoStack| > 0 ==>
      var record := p.undoStack[|p.undoStack| - 1];
      && r.page.undoStack == p.undoStack[..|p.undoStack| - 1]
      && r.page.redoStack == p.redoStack + [record]
      && r.page.selectedBlockId == Some(record.id)
      && r.store == UpdateBlock(s, record.id, TransformPatch(record.prev))
  {
    if |p.undoStack| == 0 then PageAndStore(p, s)
    else
      var record := p.undoStack[|p.undoStack| - 1];
      PageAndStore(
        p.(undoStack := p.undoStack[..|p.undoStack| - 1], redoStack := p.redoStack + [record],
           selectedBlockId := Some(record.id)),
        UpdateBlock(s, record.id, TransformPatch(record.prev)))
  }

  /** `redoLast`: the mirror of `undoLast`, applying the record's new pose. */
  function RedoLast(p: Page, s: State): (r: PageAndStore)
    ensures |p.redoStack| == 0 ==> r == PageAndStore(p, s)
    ensures |p.redoStack| > 0 ==>
      var record := p.redoStack[|p.redoStack| - 1];
      && r.page.redoStack == p.redoStack[..|p.redoStack| - 1]
      && r.page.undoStack == p.undoStack + [record]
      && r.page.selectedBlockId == Some(record.id)
      && r.store == UpdateBlock(s, record.id, TransformPatch(record.next))
  {
    if |p.redoStack| == 0 then PageAndStore(p, s)
    else
      var record := p.redoStack[|p.redoStack| - 1];
      PageAndStore(
        p.(redoStack := p.redoStack[..|p.redoStack| - 1], undoStack := p.undoStack + [record],
           selectedBlockId := Some(record.id)),
        UpdateBlock(s, record.id, TransformPatch(record.next)))
  }

  /** After `undoLast`, every block with the record's id stands at the
      record's previous pose; `redoLast` then puts the record back on the
      undo stack and the blocks at its new pose. */
  lemma UndoLastThenRedoLast(p: Page, s: State)
    requires |p.undoStack| > 0
    ensures var record := p.undoStack[|p.undoStack| - 1];
      var u := UndoLast(p, s);
      var r := RedoLast(u.page, u.store);
      && (forall i :: 0 <= i < |s.blocks| && s.blocks[i].id == record.id ==>
            !HasTransformChanged(PickTransformState(u.store.blocks[i]), record.prev.(rotationZ := Some(record.prev.rotationZ.GetOr(0.0)))))
      && r.page.undoStack == p.undoStack
      && r.page.redoStack == p.redoStack
      && (forall i :: 0 <= i < |s.blocks| && s.blocks[i].id == record.id ==>
            r.store.blocks[i].posX == record.next.posX && r.store.blocks[i].posY == record.next.posY
            && r.store.blocks[i].posZ == record.next.posZ && r.store.blocks[i].rotationZ == record.next.rotationZ)
  {
    var record := p.undoStack[|p.undoStack| - 1];
    var u := UndoLast(p, s);
    assert u.page.redoStack[|u.page.redoStack| - 1] == record;
    assert u.page.redoStack[..|u.page.redoStack| - 1] == p.redoStack;
    assert p.undoStack[..|p.undoStack| - 1] + [record] == p.undoStack;
  }

  /** The stale-record purge run whenever the blocks change: records of
      blocks that no longer exist leave both stacks, the rest keep order. */
  function PurgeStaleRecords(p: Page, blocks: seq<Block>): (r: Page)
    ensures forall i :: 0 <= i < |r.undoStack| ==> HasId(blocks, r.undoStack[i].id)
    ensures forall i :: 0 <= i < |r.redoStack| ==> HasId(blocks, r.redoStack[i].id)
    ensures forall i :: 0 <= i < |p.undoStack| && HasId(blocks, p.undoStack[i].id) ==> p.undoStack[i] in r.undoStack
    ensures forall i :: 0 <= i < |p.redoStack| && HasId(blocks, p.redoStack[i].id) ==> p.redoStack[i] in r.redoStack
    ensures Seqs.Subsequence(r.undoStack, p.undoStack) && Seqs.Subsequence(r.redoStack, p.redoStack)
    ensures r.active == p.active && r.selectedBlockId == p.selectedBlockId
  {
    var live := (rec: TransformRecord) => HasId(blocks, rec.id);
    Seqs.FilterIsSubsequence(live, p.undoStack);
    Seqs.FilterIsSubsequence(live, p.redoStack);
    p.(undoStack := Seqs.Filter(live, p.undoStack), redoStack := Seqs.Filter(live, p.redoStack))
  }

  /** Index of the first block with the id (`find`). */
  function FindBlock(blocks: seq<Block>, id: string): (r: Option<nat>)
    ensures r.Some? ==> (r.value < |blocks| && blocks[r.value].id == id
                         && forall j :: 0 <= j < r.value ==> blocks[j].id != id)
    ensures r.None? <==> !HasId(blocks, id)
  {
    if |blocks| == 0 then None
    else if blocks[0].id == id then Some(0)
    else match FindBlock(blocks[1..], id)
      case None => None
      case Some(k) => Some(k + 1)
  }

  /** The renderer's `onTransform` handler with the converted pose supplied:
      an unknown block is ignored; otherwise the pending drag is finalized
      and the pose is written through the store. */
  function OnTransform(p: Page, s: State, id: string, next: TransformState): (r: PageAndStore)
    ensures !HasId(s.blocks, id) ==> r == PageAndStore(p, s)
    ensures HasId(s.blocks, id) ==>
      r.page == FinalizeTransformRecord(p, id, next) && r.store == UpdateBlock(s, id, TransformPatch(next))
  {
    match FindBlock(s.blocks, id)
    case None => PageAndStore(p, s)
    case Some(_) =>
      var start := p.active;
      var page := if start.Some? && start.value.id == id && HasTransformChanged(start.value.prev, next)
                  then FinalizeTransformRecord(p, id, next)
                  else p.(active := None);
      PageAndStore(page, UpdateBlock(s, id, TransformPatch(next)))
  }

  /** The checks `validateTBK` applies, stated as one predicate. */
  predicate IsValidBlockEntry(block: Json) {
    block != JNull && Truthy(Get(Some(block), "id")) && IsString(Get(Some(block), "name"))
  }

  predicate IsLoadableModel(model: Json) {
    && Get(Some(model), "schemaVersion") == Some(JNum(1.0))
    && Get(Some(model), "units") in {Some(JStr("metric")), Some(JStr("imperial"))}
    && IsArray(Get(Some(model), "blocks"))
    && forall i :: 0 <= i < |Get(Some(model), "blocks").value.items| ==>
         IsValidBlockEntry(Get(Some(model), "blocks").value.items[i])
  }

  /** The first failing entry check, as the `forEach` throws it. */
  function CheckBlocks(items: seq<Json>): (r: Result<(), string>)
    ensures r.Success? <==> forall i :: 0 <= i < |items| ==> IsValidBlockEntry(items[i])
  {
    if |items| == 0 then Success(())
    else if items[0] == JNull then Failure("TypeError")
    else if !IsValidBlockEntry(items[0]) then Failure("Invalid block")
    else
      var rest := CheckBlocks(items[1..]);
      assert forall i :: 1 <= i < |items| ==> items[i] == items[1..][i - 1];
      rest
  }

  /** `validateTBK`: a parsed model file is accepted exactly when it has
      schema version 1, a known unit system and an array of blocks each with
      a truthy id and a string name; otherwise it throws, with the message
      of the first check that fails (a `null` model or entry throws a
      TypeError when its fields are read). */
  function ValidateTBK(model: Json): (r: Result<(), string>)
    ensures r.Success? <==> IsLoadableModel(model)
    ensures model == JNull ==> r == Failure("TypeError")
    ensures model != JNull && Get(Some(model), "schemaVersion") != Some(JNum(1.0)) ==>
              r == Failure("Unsupported schema version")
  {
    if model == JNull then Failure("TypeError")
    else
      var m := Some(model);
      if Get(m, "schemaVersion") != Some(JNum(1.0)) then Failure("Unsupported schema version")
      else if Get(m, "units") != Some(JStr("metric")) && Get(m, "units") != Some(JStr("imperial")) then
        Failure("Invalid units")
      else if !IsArray(Get(m, "blocks")) then Failure("Invalid blocks")
      else CheckBlocks(Get(m, "blocks").value.items)
  }

  /** The update `duplicateBlock` sends for the freshly added block. */
  function CopyPatch(source: Block, newId: string): BlockPatch {
    BlockPatch(
      Some(newId), Some(source.name + " copy"),
      Some(source.xSize), Some(source.ySize), Some(source.levels), Some(source.levelHeight),
      Some(source.posX + 2.0), Some(source.posY), Some(source.posZ + 2.0),
      if source.rotationX.Some? then Some(source.rotationX) else None,
      if source.rotationY.Some? then Some(source.rotationY) else None,
      Some(Some(source.rotationZ.GetOr(0.0))),
      Some(source.defaultFunction))
  }

  /** `duplicateBlock`: adds a default block, then overwrites it with the
      source's fields under its own id, named "<name> copy", shifted by 2 on
      x and z, with the yaw defaulted to 0. These are two store updates. */
  function DuplicateBlock(s: State, source: Block, freshId: string): (r: State)
    ensures |r.blocks| == |s.blocks| + 1
    ensures var copy := r.blocks[|s.blocks|];
      && copy.id == freshId && copy.name == source.name + " copy"
      && copy.xSize == source.xSize && copy.ySize == source.ySize
      && copy.levels == source.levels && copy.levelHeight == source.levelHeight
      && copy.posX == source.posX + 2.0 && copy.posY == source.posY && copy.posZ == source.posZ + 2.0
      && copy.rotationX == Some(source.rotationX.GetOr(0.0)) && copy.rotationY == Some(source.rotationY.GetOr(0.0))
      && copy.rotationZ == Some(source.rotationZ.GetOr(0.0))
      && copy.defaultFunction == source.defaultFunction
    ensures forall i :: 0 <= i < |s.blocks| && s.blocks[i].id != freshId ==> r.blocks[i] == s.blocks[i]
    ensures r.history.future == [] && r.selectedBlockIds == s.selectedBlockIds
  {
    var added := AddBlock(s, freshId);
    var newest := added.blocks[|added.blocks| - 1];
    UpdateBlock(added, newest.id, CopyPatch(source, newest.id))
  }

  /** Undoing a duplication once leaves the default block the first step
      added: the duplication takes two undo steps. */
  lemma DuplicateTakesTwoUndoSteps(s: State, source: Block, freshId: string)
    ensures Undo(DuplicateBlock(s, source, freshId)).blocks == Normalize(s.blocks + [DefaultBlock(|s.blocks|, freshId)])
    ensures Undo(Undo(DuplicateBlock(s, source, freshId))).blocks == Normalize(s.blocks)
  {
    var added := AddBlock(s, freshId);
    var newest := added.blocks[|added.blocks| - 1];
    var r := UpdateBlock(added, newest.id, CopyPatch(source, newest.id));
    NormalizeIdempotent(s.blocks);
    NormalizeIdempotent(added.blocks);
    var u := Undo(r);
    var pa := added.history.past;
    assert u.history.past == r.history.past[..|r.history.past| - 1];
    if |pa| < MaxHistory {
      assert u.history.past == pa;
    } else {
      assert u.history.past == pa[1..];
    }
    assert u.history.past[|u.history.past| - 1] == pa[|pa| - 1];
  }

  /** The level stepper: `min(60, max(1, levels + delta))`. */
  function StepLevel(levels: real, delta: real): (r: real)
    ensures 1.0 <= r <= 60.0
    ensures 1.0 <= levels + delta <= 60.0 ==> r == levels + delta
    ensures levels + delta < 1.0 ==> r == 1.0
    ensures levels + delta > 60.0 ==> r == 60.0
  {
    var lower := if levels + delta > 1.0 then levels + delta else 1.0;
    if lower < 60.0 then lower else 60.0
  }
}
