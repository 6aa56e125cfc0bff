/** Laws of the legacy prototype's history: what undo and redo give back,
    how the pending drag snapshot folds in, and the invariant that the
    store never runs out of blocks. */
module LegacyHistoryLaws {
  import opened Wrappers
  import opened Types
  import opened LegacyStore

  /** Every list on a stack is non-empty. */
  predicate AllNonEmpty(stack: seq<seq<Block>>) {
    forall i :: 0 <= i < |stack| ==> |stack[i]| >= 1
  }

  /** Every list the store can show or restore is non-empty. */
  predicate Valid(s: State) {
    |s.blocks| >= 1 && AllNonEmpty(s.past) && AllNonEmpty(s.future)
    && (s.snapshot.Some? ==> |s.snapshot.value| >= 1)
  }

  lemma AllNonEmptySnoc(stack: seq<seq<Block>>, blocks: seq<Block>)
    requires AllNonEmpty(stack) && |blocks| >= 1
    ensures AllNonEmpty(stack + [blocks])
  {
    forall i | 0 <= i < |stack| + 1 ensures |(stack + [blocks])[i]| >= 1 {
      if i < |stack| {
        assert (stack + [blocks])[i] == stack[i];
      }
    }
  }

  lemma AllNonEmptyPrefix(stack: seq<seq<Block>>, n: nat)
    requires AllNonEmpty(stack) && n <= |stack|
    ensures AllNonEmpty(stack[..n])
  {
    forall i | 0 <= i < n ensures |stack[..n][i]| >= 1 {
      assert stack[..n][i] == stack[i];
    }
  }

  lemma InitialIsValid(id: string)
    ensures Valid(Initial(id))
  {
  }

  /** A recorded edit that leaves some block keeps the store valid. */
  lemma RecordingKeepsValid(s: State, r: State)
    requires Valid(s) && RecordsHistory(s, r) && |r.blocks| >= 1
    ensures Valid(r)
  {
    AllNonEmptySnoc(s.past, s.blocks);
  }

  /** The operations that touch the block list keep the store valid. */
  lemma EditsKeepValid(s: State, id: string, newId: string, patch: BlockPatch)
    requires Valid(s)
    ensures Valid(AddBlock(s, newId))
    ensures Valid(DuplicateBlock(s, id, newId))
    ensures Valid(UpdateBlock(s, id, patch))
    ensures Valid(UpdateBlockLive(s, id, patch))
    ensures Valid(RemoveBlock(s, id, newId))
  {
    RecordingKeepsValid(s, AddBlock(s, newId));
    if HasId(s.blocks, id) {
      RecordingKeepsValid(s, DuplicateBlock(s, id, newId));
    }
    RecordingKeepsValid(s, UpdateBlock(s, id, patch));
    if |s.blocks| != 1 {
      RecordingKeepsValid(s, RemoveBlock(s, id, newId));
    }
  }

  lemma UndoKeepsValid(s: State)
    requires Valid(s)
    ensures Valid(Undo(s))
  {
    if s.snapshot.Some? {
      assert Undo(s).future == [] + [s.blocks];
      AllNonEmptySnoc([], s.blocks);
    } else if |s.past| > 0 {
      AllNonEmptyPrefix(s.past, |s.past| - 1);
      AllNonEmptySnoc(s.future, s.blocks);
    }
  }

  lemma RedoKeepsValid(s: State)
    requires Valid(s)
    ensures Valid(Redo(s))
  {
    if |s.future| > 0 {
      AllNonEmptyPrefix(s.future, |s.future| - 1);
      AllNonEmptySnoc(s.past, s.blocks);
    }
  }

  /** The operations that touch the stacks or the view keep the store valid. */
  lemma HistoryKeepsValid(s: State, units: Units, selected: Option<string>, mode: TransformMode)
    requires Valid(s)
    ensures Valid(StartSnapshot(s))
    ensures Valid(CommitSnapshot(s))
    ensures Valid(Undo(s))
    ensures Valid(Redo(s))
    ensures Valid(SetUnits(s, units)) && Valid(SelectBlock(s, selected)) && Valid(SetTransformMode(s, mode))
  {
    if s.snapshot.Some? {
      AllNonEmptySnoc(s.past, s.snapshot.value);
    }
    UndoKeepsValid(s);
    RedoKeepsValid(s);
  }

  /** On a valid store, undo and redo always leave a present block selected. */
  lemma UndoRedoSelectPresentBlock(s: State)
    requires Valid(s)
    requires s.snapshot.Some? || |s.past| > 0
    ensures Undo(s).selectedBlockId.Some? && HasId(Undo(s).blocks, Undo(s).selectedBlockId.value)
    ensures |s.future| > 0 ==> Redo(s).selectedBlockId.Some? && HasId(Redo(s).blocks, Redo(s).selectedBlockId.value)
  {
  }

  /** Undo gives back the blocks an edit replaced, with the stacks as they were. */
  lemma UndoRevertsEdit(s: State, next: seq<Block>)
    ensures Undo(WithHistory(s, next)).blocks == s.blocks
    ensures Undo(WithHistory(s, next)).past == s.past
    ensures Undo(WithHistory(s, next)).future == [next]
  {
  }

  /** Each recording operation is undone by one undo. */
  lemma UndoRevertsOperations(s: State, id: string, newId: string, patch: BlockPatch)
    ensures Undo(AddBlock(s, newId)).blocks == s.blocks
    ensures HasId(s.blocks, id) ==> Undo(DuplicateBlock(s, id, newId)).blocks == s.blocks
    ensures Undo(UpdateBlock(s, id, patch)).blocks == s.blocks
    ensures |s.blocks| != 1 ==> Undo(RemoveBlock(s, id, newId)).blocks == s.blocks
  {
  }

  /** Undo folds a pending snapshot in exactly as `commitSnapshot` would. */
  lemma UndoFoldsPendingSnapshot(s: State)
    ensures Undo(CommitSnapshot(s)) == Undo(s)
  {
    if s.snapshot.Some? {
      var c := CommitSnapshot(s);
      assert c.past[..|c.past| - 1] == s.past;
    }
  }

  /** `startSnapshot` keeps the first snapshot of a drag. */
  lemma StartSnapshotIdempotent(s: State)
    ensures StartSnapshot(StartSnapshot(s)) == StartSnapshot(s)
    ensures StartSnapshot(s).snapshot.Some?
  {
  }

  /** The live updates of a drag, applied in order. */
  function ApplyLive(s: State, edits: seq<(string, BlockPatch)>): State
    decreases |edits|
  {
    if |edits| == 0 then s else ApplyLive(UpdateBlockLive(s, edits[0].0, edits[0].1), edits[1..])
  }

  /** Live updates touch neither the stacks nor the pending snapshot. */
  lemma {:induction false} LiveUpdatesKeepHistory(s: State, edits: seq<(string, BlockPatch)>)
    ensures ApplyLive(s, edits).past == s.past
    ensures ApplyLive(s, edits).future == s.future
    ensures ApplyLive(s, edits).snapshot == s.snapshot
    decreases |edits|
  {
    if |edits| > 0 {
      LiveUpdatesKeepHistory(UpdateBlockLive(s, edits[0].0, edits[0].1), edits[1..]);
    }
  }

  /** A drag (start, any number of live updates, commit) is one undo step:
      undoing it restores the blocks from before the drag. */
  lemma UndoRevertsDrag(s: State, edits: seq<(string, BlockPatch)>)
    requires s.snapshot.None?
    ensures Undo(CommitSnapshot(ApplyLive(StartSnapshot(s), edits))).blocks == s.blocks
    ensures Undo(CommitSnapshot(ApplyLive(StartSnapshot(s), edits))).past == s.past
  {
    LiveUpdatesKeepHistory(StartSnapshot(s), edits);
    var d := CommitSnapshot(ApplyLive(StartSnapshot(s), edits));
    assert d.past == s.past + [s.blocks];
    assert d.past[..|d.past| - 1] == s.past;
  }

  /** Redo after undo restores the blocks and both stacks. */
  lemma RedoAfterUndo(s: State)
    requires s.snapshot.None? && |s.past| > 0
    ensures Redo(Undo(s)).blocks == s.blocks
    ensures Redo(Undo(s)).past == s.past
    ensures Redo(Undo(s)).future == s.future
  {
    var u := Undo(s);
    assert u.future[..|u.future| - 1] == s.future;
    assert u.past + [u.blocks] == s.past;
  }

  /** Undo after redo restores the blocks and both stacks. */
  lemma UndoAfterRedo(s: State)
    requires |s.future| > 0
    ensures Undo(Redo(s)).blocks == s.blocks
    ensures Undo(Redo(s)).past == s.past
    ensures Undo(Redo(s)).future == s.future
  {
    var r := Redo(s);
    assert r.past[..|r.past| - 1] == s.past;
    assert r.future + [r.blocks] == s.future;
  }
}
