/** The undo/redo block store of the current application
    (src/shared/stores/blocksStore.ts): the live units and blocks, the
    ordered selection, and two stacks of snapshots capped at 50 entries.
    Every operation is a pure transition from one state to the next. */
module BlocksStore {
  import opened Wrappers
  import opened Types
  import Seqs

  const MaxHistory: nat := 50

  /** A copy of the live units and blocks, taken before a change. */
  datatype Snapshot = Snapshot(units: Units, blocks: seq<Block>)

  datatype History = History(past: seq<Snapshot>, future: seq<Snapshot>)

  datatype State = State(
    units: Units,
    blocks: seq<Block>,
    history: History,
    selectedBlockIds: seq<string>)

  /** `String.fromCharCode(65 + index)`: the code is taken modulo 2^16 and
      never wraps to a two-letter name. A UTF-16 surrogate code unit, which
      a Dafny character cannot hold, is written as U+FFFD. */
  function DefaultNameChar(index: nat): (c: char)
    ensures index < 26 ==> c == "ABCDEFGHIJKLMNOPQRSTUVWXYZ"[index]
  {
    var code := (65 + index) % 0x1_0000;
    if 0xD800 <= code < 0xE000 then '\U{FFFD}' else code as char
  }

  /** `defaultBlock(index)`, with the fresh id supplied by the caller. */
  function DefaultBlock(index: nat, id: string): Block {
    Block(id, "Block " + [DefaultNameChar(index)], 20.0, 20.0, 5.0, 3.2,
          (index * 25) as real, 0.0, 0.0, Some(0.0), Some(0.0), Some(0.0), Mixed)
  }

  /** A block whose three rotations are present. */
  predicate HasRotations(block: Block) {
    block.rotationX.Some? && block.rotationY.Some? && block.rotationZ.Some?
  }

  predicate AllHaveRotations(blocks: seq<Block>) {
    forall i :: 0 <= i < |blocks| ==> HasRotations(blocks[i])
  }

  /** `ensureRotation`: absent rotations become 0, present ones and every
      other field are kept. */
  function EnsureRotation(block: Block): (r: Block)
    ensures HasRotations(r)
    ensures r.rotationX == Some(block.rotationX.GetOr(0.0))
    ensures r.rotationY == Some(block.rotationY.GetOr(0.0))
    ensures r.rotationZ == Some(block.rotationZ.GetOr(0.0))
    ensures HasRotations(block) ==> r == block
    ensures r.(rotationX := block.rotationX, rotationY := block.rotationY, rotationZ := block.rotationZ) == block
  {
    block.(rotationX := Some(block.rotationX.GetOr(0.0)),
           rotationY := Some(block.rotationY.GetOr(0.0)),
           rotationZ := Some(block.rotationZ.GetOr(0.0)))
  }

  /** `blocks.map(ensureRotation)` (the deep clone is the identity on values). */
  function Normalize(blocks: seq<Block>): (r: seq<Block>)
    ensures |r| == |blocks|
    ensures forall i :: 0 <= i < |blocks| ==> r[i] == EnsureRotation(blocks[i])
    ensures AllHaveRotations(r)
    ensures Ids(r) == Ids(blocks)
  {
    seq(|blocks|, i requires 0 <= i < |blocks| => EnsureRotation(blocks[i]))
  }

  /** Normalizing is idempotent, and leaves normalized lists unchanged. */
  lemma NormalizeFixesNormalized(blocks: seq<Block>)
    requires AllHaveRotations(blocks)
    ensures Normalize(blocks) == blocks
  {
  }

  lemma NormalizeIdempotent(blocks: seq<Block>)
    ensures Normalize(Normalize(blocks)) == Normalize(blocks)
  {
    NormalizeFixesNormalized(Normalize(blocks));
  }

  function CreateSnapshot(units: Units, blocks: seq<Block>): (snap: Snapshot)
    ensures snap.units == units && snap.blocks == Normalize(blocks)
  {
    Snapshot(units, Normalize(blocks))
  }

  /** `pushPast`: append the current snapshot, then drop the oldest entry
      when the stack has grown beyond the cap. */
  function PushPast(s: State): (past: seq<Snapshot>)
    ensures |past| > 0 && past[|past| - 1] == CreateSnapshot(s.units, s.blocks)
    ensures |s.history.past| < MaxHistory ==> past[..|past| - 1] == s.history.past
    ensures |s.history.past| >= MaxHistory ==> past[..|past| - 1] == s.history.past[1..]
    ensures |s.history.past| <= MaxHistory ==> |past| <= MaxHistory
  {
    var snap := CreateSnapshot(s.units, s.blocks);
    var old_ := s.history.past;
    var past := old_ + [snap];
    if |past| > MaxHistory then
      assert past[1..] == old_[1..] + [snap];
      past[1..]
    else
      assert past[..|past| - 1] == old_;
      past
  }

  /** What every recording operation does to the history: the pre-change
      snapshot is the newest past entry, older entries are kept (minus the
      oldest when the cap is reached), and the future is discarded. */
  predicate RecordsHistory(before: State, after: State) {
    && after.history.future == []
    && |after.history.past| > 0
    && after.history.past[|after.history.past| - 1] == CreateSnapshot(before.units, before.blocks)
    && (|before.history.past| < MaxHistory ==> after.history.past[..|after.history.past| - 1] == before.history.past)
    && (|before.history.past| >= MaxHistory ==> after.history.past[..|after.history.past| - 1] == before.history.past[1..])
  }

  /** The store's well-formedness: both stacks within the cap and every
      snapshot normalized. */
  predicate Valid(s: State) {
    && |s.history.past| <= MaxHistory
    && |s.history.future| <= MaxHistory
    && (forall i :: 0 <= i < |s.history.past| ==> AllHaveRotations(s.history.past[i].blocks))
    && (forall i :: 0 <= i < |s.history.future| ==> AllHaveRotations(s.history.future[i].blocks))
  }

  /** The store as created: one default block, selected, and no history. */
  function Initial(id: string): (s: State)
    ensures Valid(s)
    ensures |s.blocks| == 1 && s.selectedBlockIds == [id] && s.blocks[0].id == id
    ensures s.units == Metric && s.blocks == [DefaultBlock(0, id)] && s.history == History([], [])
  {
    State(Metric, [DefaultBlock(0, id)], History([], []), [id])
  }

  function AddBlock(s: State, freshId: string): (r: State)
    ensures r.blocks == s.blocks + [DefaultBlock(|s.blocks|, freshId)]
    ensures r.units == s.units && r.selectedBlockIds == s.selectedBlockIds
    ensures RecordsHistory(s, r)
  {
    s.(blocks := s.blocks + [DefaultBlock(|s.blocks|, freshId)],
       history := History(PushPast(s), []))
  }

  /** `updateBlock`: only blocks with the id change; an unknown id leaves
      the blocks equal but still records a history entry. */
  function UpdateBlock(s: State, id: string, changes: BlockPatch): (r: State)
    ensures |r.blocks| == |s.blocks|
    ensures forall i :: 0 <= i < |s.blocks| && s.blocks[i].id != id ==> r.blocks[i] == s.blocks[i]
    ensures forall i :: 0 <= i < |s.blocks| && s.blocks[i].id == id ==> r.blocks[i] == Merge(s.blocks[i], changes)
    ensures !HasId(s.blocks, id) ==> r.blocks == s.blocks
    ensures r.units == s.units && r.selectedBlockIds == s.selectedBlockIds
    ensures RecordsHistory(s, r)
  {
    var blocks := seq(|s.blocks|, i requires 0 <= i < |s.blocks| =>
      if s.blocks[i].id == id then Merge(s.blocks[i], changes) else s.blocks[i]);
    s.(blocks := blocks, history := History(PushPast(s), []))
  }

  /** `removeBlock`: the block and its selection entry go; there is no
      guard on the last block. */
  function RemoveBlock(s: State, id: string): (r: State)
    ensures !HasId(r.blocks, id)
    ensures id !in r.selectedBlockIds
    ensures Seqs.Subsequence(r.blocks, s.blocks)
    ensures forall i :: 0 <= i < |s.blocks| && s.blocks[i].id != id ==> s.blocks[i] in r.blocks
    ensures Seqs.Subsequence(r.selectedBlockIds, s.selectedBlockIds)
    ensures forall i :: 0 <= i < |s.selectedBlockIds| && s.selectedBlockIds[i] != id ==> s.selectedBlockIds[i] in r.selectedBlockIds
    ensures r.units == s.units
    ensures RecordsHistory(s, r)
  {
    var blocks := Seqs.Filter((b: Block) => b.id != id, s.blocks);
    var selection := Seqs.Filter((x: string) => x != id, s.selectedBlockIds);
    Seqs.FilterIsSubsequence((b: Block) => b.id != id, s.blocks);
    Seqs.FilterIsSubsequence((x: string) => x != id, s.selectedBlockIds);
    s.(blocks := blocks, selectedBlockIds := selection, history := History(PushPast(s), []))
  }

  /** `setUnits`: stored values are not converted; a silent change keeps
      the history as it is. */
  function SetUnits(s: State, units: Units, silent: bool): (r: State)
    ensures r.units == units
    ensures r.blocks == s.blocks && r.selectedBlockIds == s.selectedBlockIds
    ensures silent ==> r.history == s.history
    ensures !silent ==> RecordsHistory(s, r)
  {
    s.(units := units, history := if silent then s.history else History(PushPast(s), []))
  }

  /** `resetBlocks`: a hard boundary that empties both stacks. A model's
      blocks get their rotations defaulted and the first one is selected
      when its id is non-empty; without a model the store holds one default
      block. */
  function ResetBlocks(s: State, model: Option<BlocksModel>, freshId: string): (r: State)
    ensures r.history == History([], [])
    ensures Valid(r)
    ensures model.Some? ==> r.units == model.value.units && r.blocks == Normalize(model.value.blocks)
    ensures model.Some? && |model.value.blocks| > 0 && model.value.blocks[0].id != "" ==>
              r.selectedBlockIds == [model.value.blocks[0].id]
    ensures model.Some? && (|model.value.blocks| == 0 || model.value.blocks[0].id == "") ==> r.selectedBlockIds == []
    ensures model.None? ==> r.units == Metric && r.blocks == [DefaultBlock(0, freshId)] && r.selectedBlockIds == [freshId]
  {
    match model
    case Some(m) =>
      var next := Normalize(m.blocks);
      State(m.units, next, History([], []), if |next| > 0 && next[0].id != "" then [next[0].id] else [])
    case None =>
      State(Metric, [DefaultBlock(0, freshId)], History([], []), [freshId])
  }

  /** `getModelSnapshot`: the live blocks with rotations defaulted. */
  function GetModelSnapshot(s: State, createdAt: string): (m: BlocksModel)
    ensures m.units == s.units && AllHaveRotations(m.blocks) && Ids(m.blocks) == Ids(s.blocks)
    ensures AllHaveRotations(s.blocks) ==> m.blocks == s.blocks
    ensures Snapshot(m.units, m.blocks) == CreateSnapshot(s.units, s.blocks) && m.createdAt == createdAt
  {
    BlocksModel(s.units, Normalize(s.blocks), createdAt)
  }

  /** `selectBlock(id, additive)`: an absent or empty id clears the
      selection, a plain click selects exactly `id`, and an additive click
      toggles `id`, appending it at the end. History is never touched. */
  function SelectBlock(s: State, id: Option<string>, additive: bool): (r: State)
    ensures r.blocks == s.blocks && r.units == s.units && r.history == s.history
    ensures id.None? || id == Some("") ==> r.selectedBlockIds == []
    ensures id.Some? && id.value != "" && !additive ==> r.selectedBlockIds == [id.value]
    ensures id.Some? && id.value != "" && additive && id.value in s.selectedBlockIds ==>
              && id.value !in r.selectedBlockIds
              && Seqs.Subsequence(r.selectedBlockIds, s.selectedBlockIds)
              && forall i :: 0 <= i < |s.selectedBlockIds| && s.selectedBlockIds[i] != id.value ==>
                   s.selectedBlockIds[i] in r.selectedBlockIds
    ensures id.Some? && id.value != "" && additive && id.value !in s.selectedBlockIds ==>
              r.selectedBlockIds == s.selectedBlockIds + [id.value]
  {
    match id
    case None => s.(selectedBlockIds := [])
    case Some(x) =>
      if x == "" then s.(selectedBlockIds := [])
      else if !additive then s.(selectedBlockIds := [x])
      else if x in s.selectedBlockIds then
        Seqs.FilterIsSubsequence((y: string) => y != x, s.selectedBlockIds);
        s.(selectedBlockIds := Seqs.Filter((y: string) => y != x, s.selectedBlockIds))
      else s.(selectedBlockIds := s.selectedBlockIds + [x])
  }

  function ClearSelection(s: State): (r: State)
    ensures r.selectedBlockIds == []
    ensures r.blocks == s.blocks && r.units == s.units && r.history == s.history
  {
    s.(selectedBlockIds := [])
  }

  /** The selection entries that name a block of `blocks`, in order. */
  function KeepPresent(selection: seq<string>, blocks: seq<Block>): (r: seq<string>)
    ensures forall i :: 0 <= i < |r| ==> HasId(blocks, r[i])
    ensures forall i :: 0 <= i < |selection| && HasId(blocks, selection[i]) ==> selection[i] in r
    ensures Seqs.Subsequence(r, selection)
  {
    Seqs.FilterIsSubsequence((x: string) => HasId(blocks, x), selection);
    Seqs.Filter((x: string) => HasId(blocks, x), selection)
  }

  /** `undo`: the newest past snapshot becomes live, the current state is
      pushed onto the front of the future (capped), and the selection keeps
      only ids that still exist. */
  function Undo(s: State): (r: State)
    ensures |s.history.past| == 0 ==> r == s
    ensures |s.history.past| > 0 ==>
      var previous := s.history.past[|s.history.past| - 1];
      && r.units == previous.units
      && r.blocks == Normalize(previous.blocks)
      && r.history.past == s.history.past[..|s.history.past| - 1]
      && 0 < |r.history.future| <= MaxHistory
      && |r.history.future| == (if |s.history.future| < MaxHistory then |s.history.future| + 1 else MaxHistory)
      && r.history.future[0] == CreateSnapshot(s.units, s.blocks)
      && r.history.future[1..] == s.history.future[..|r.history.future| - 1]
      && r.selectedBlockIds == KeepPresent(s.selectedBlockIds, previous.blocks)
  {
    if |s.history.past| == 0 then s
    else
      var previous := s.history.past[|s.history.past| - 1];
      var future := [CreateSnapshot(s.units, s.blocks)] + s.history.future;
      var capped := if |future| > MaxHistory then future[..MaxHistory] else future;
      State(previous.units, Normalize(previous.blocks),
            History(s.history.past[..|s.history.past| - 1], capped),
            KeepPresent(s.selectedBlockIds, previous.blocks))
  }

  /** `redo`: the mirror of `undo`, taking the front of the future and
      keeping the newest 50 past entries. */
  function Redo(s: State): (r: State)
    ensures |s.history.future| == 0 ==> r == s
    ensures |s.history.future| > 0 ==>
      var next := s.history.future[0];
      && r.units == next.units
      && r.blocks == Normalize(next.blocks)
      && r.history.future == s.history.future[1..]
      && 0 < |r.history.past| <= MaxHistory
      && r.history.past[|r.history.past| - 1] == CreateSnapshot(s.units, s.blocks)
      && (|s.history.past| < MaxHistory ==> r.history.past[..|r.history.past| - 1] == s.history.past)
      && (|s.history.past| >= MaxHistory ==>
            r.history.past[..|r.history.past| - 1] == s.history.past[|s.history.past| - (MaxHistory - 1)..])
      && r.selectedBlockIds == KeepPresent(s.selectedBlockIds, next.blocks)
  {
    if |s.history.future| == 0 then s
    else
      var next := s.history.future[0];
      var past := s.history.past + [CreateSnapshot(s.units, s.blocks)];
      var capped := if |past| > MaxHistory then past[|past| - MaxHistory..] else past;
      State(next.units, Normalize(next.blocks),
            History(capped, s.history.future[1..]),
            KeepPresent(s.selectedBlockIds, next.blocks))
  }

  /** `applyBatch`: the mutator edits a normalized copy; when the result's
      units and blocks equal the live ones (JSON equality is structural
      equality here, an absent rotation differing from 0) nothing happens,
      otherwise the result becomes live with exactly one history entry.
      The selection is kept as it is. */
  function ApplyBatch(s: State, mutator: Snapshot -> Snapshot): (r: State)
    ensures var draft := mutator(CreateSnapshot(s.units, s.blocks));
      && (draft.units == s.units && draft.blocks == s.blocks ==> r == s)
      && (draft.units != s.units || draft.blocks != s.blocks ==>
            r.units == draft.units && r.blocks == draft.blocks && RecordsHistory(s, r))
    ensures r.selectedBlockIds == s.selectedBlockIds
  {
    var draft := mutator(CreateSnapshot(s.units, s.blocks));
    var changed := draft.units != s.units || draft.blocks != s.blocks;
    if !changed then s
    else s.(units := draft.units, blocks := draft.blocks, history := History(PushPast(s), []))
  }
}
