/** Laws of the block store's history that relate several operations. */
module BlocksHistoryLaws {
  import opened Wrappers
  import opened Types
  import opened BlocksStore
  import Seqs

  /** Every snapshot of the stack has its rotations filled in. */
  predicate Normalized(stack: seq<Snapshot>) {
    forall i :: 0 <= i < |stack| ==> AllHaveRotations(stack[i].blocks)
  }

  lemma NormalizedTail(stack: seq<Snapshot>)
    requires |stack| > 0 && Normalized(stack)
    ensures Normalized(stack[1..])
  {
    forall i | 0 <= i < |stack| - 1 ensures AllHaveRotations(stack[1..][i].blocks) {
      assert stack[1..][i] == stack[i + 1];
    }
  }

  lemma NormalizedSnoc(stack: seq<Snapshot>, snap: Snapshot)
    requires Normalized(stack) && AllHaveRotations(snap.blocks)
    ensures Normalized(stack + [snap])
  {
    forall i | 0 <= i < |stack| + 1 ensures AllHaveRotations((stack + [snap])[i].blocks) {
      if i < |stack| {
        assert (stack + [snap])[i] == stack[i];
      }
    }
  }

  /** Every recording operation keeps the store well-formed. */
  lemma RecordingKeepsValid(s: State, r: State)
    requires Valid(s) && RecordsHistory(s, r)
    ensures Valid(r)
  {
    var past := r.history.past;
    var n := |past|;
    var older := past[..n - 1];
    assert past == older + [past[n - 1]];
    assert Normalized(s.history.past);
    if |s.history.past| >= MaxHistory {
      NormalizedTail(s.history.past);
    }
    assert Normalized(older);
    NormalizedSnoc(older, past[n - 1]);
  }

  lemma OperationsKeepValid(s: State, id: string, changes: BlockPatch, units: Units, silent: bool,
                            model: Option<BlocksModel>, sel: Option<string>, additive: bool,
                            mutator: Snapshot -> Snapshot)
    requires Valid(s)
    ensures Valid(AddBlock(s, id))
    ensures Valid(UpdateBlock(s, id, changes))
    ensures Valid(RemoveBlock(s, id))
    ensures Valid(SetUnits(s, units, silent))
    ensures Valid(ResetBlocks(s, model, id))
    ensures Valid(SelectBlock(s, sel, additive))
    ensures Valid(ClearSelection(s))
    ensures Valid(ApplyBatch(s, mutator))
    ensures Valid(Undo(s))
    ensures Valid(Redo(s))
  {
    RecordingKeepsValid(s, AddBlock(s, id));
    RecordingKeepsValid(s, UpdateBlock(s, id, changes));
    RecordingKeepsValid(s, RemoveBlock(s, id));
    if !silent {
      RecordingKeepsValid(s, SetUnits(s, units, silent));
    }
    var b := ApplyBatch(s, mutator);
    if b != s {
      RecordingKeepsValid(s, b);
    }
    UndoKeepsValid(s);
    RedoKeepsValid(s);
  }

  lemma UndoKeepsValid(s: State)
    requires Valid(s)
    ensures Valid(Undo(s))
  {
    if |s.history.past| > 0 {
      var r := Undo(s);
      forall i | 0 <= i < |r.history.future| ensures AllHaveRotations(r.history.future[i].blocks) {
        if i > 0 {
          assert r.history.future[i] == r.history.future[1..][i - 1];
        }
      }
    }
  }

  lemma RedoKeepsValid(s: State)
    requires Valid(s)
    ensures Valid(Redo(s))
  {
    if |s.history.future| > 0 {
      var r := Redo(s);
      var past := s.history.past + [CreateSnapshot(s.units, s.blocks)];
      forall i | 0 <= i < |r.history.past| ensures AllHaveRotations(r.history.past[i].blocks) {
        assert r.history.past[i] in past;
      }
    }
  }

  /** Undoing a recorded change restores the units and the (normalized)
      blocks as they were, and, below the cap, the past stack too. */
  lemma UndoAfterRecording(s: State, r: State)
    requires RecordsHistory(s, r)
    ensures Undo(r).units == s.units
    ensures Undo(r).blocks == Normalize(s.blocks)
    ensures |s.history.past| < MaxHistory ==> Undo(r).history.past == s.history.past
    ensures Undo(r).history.future == [CreateSnapshot(r.units, r.blocks)]
  {
    NormalizeIdempotent(s.blocks);
  }

  /** `redo` after `undo` restores the units, the blocks with rotations
      defaulted, and the past; the future comes back unless it was full. */
  lemma RedoAfterUndo(s: State)
    requires Valid(s) && |s.history.past| > 0
    ensures Redo(Undo(s)).units == s.units
    ensures Redo(Undo(s)).blocks == Normalize(s.blocks)
    ensures Redo(Undo(s)).history.past == s.history.past
    ensures |s.history.future| < MaxHistory ==> Redo(Undo(s)).history.future == s.history.future
    ensures Seqs.Subsequence(Redo(Undo(s)).selectedBlockIds, s.selectedBlockIds)
  {
    var u := Undo(s);
    var n := |s.history.past|;
    var previous := s.history.past[n - 1];
    NormalizeIdempotent(s.blocks);
    NormalizeIdempotent(previous.blocks);
    NormalizeFixesNormalized(previous.blocks);
    assert CreateSnapshot(u.units, u.blocks) == previous;
    assert s.history.past[..n - 1] + [previous] == s.history.past;
    Seqs.SubsequenceTrans(Redo(u).selectedBlockIds, u.selectedBlockIds, s.selectedBlockIds);
  }

  /** `undo` after `redo` restores the units, the blocks with rotations
      defaulted, and the future; the past comes back unless it was full. */
  lemma UndoAfterRedo(s: State)
    requires Valid(s) && |s.history.future| > 0
    ensures Undo(Redo(s)).units == s.units
    ensures Undo(Redo(s)).blocks == Normalize(s.blocks)
    ensures Undo(Redo(s)).history.future == s.history.future
    ensures |s.history.past| < MaxHistory ==> Undo(Redo(s)).history.past == s.history.past
  {
    var r := Redo(s);
    var next := s.history.future[0];
    NormalizeIdempotent(s.blocks);
    NormalizeFixesNormalized(next.blocks);
    assert CreateSnapshot(r.units, r.blocks) == next;
    assert [next] + s.history.future[1..] == s.history.future;
  }

  /** Toggling an unselected id twice restores the selection. */
  lemma ToggleTwiceRestores(s: State, id: string)
    requires id != "" && id !in s.selectedBlockIds
    ensures SelectBlock(SelectBlock(s, Some(id), true), Some(id), true).selectedBlockIds == s.selectedBlockIds
  {
    var keep := (y: string) => y != id;
    Seqs.FilterAppend(keep, s.selectedBlockIds, [id]);
    Seqs.FilterAll(keep, s.selectedBlockIds);
    assert Seqs.Filter(keep, [id]) == [];
  }

  /** Nothing prevents removing the only block. */
  lemma RemovingTheOnlyBlockEmptiesTheStore(s: State)
    requires |s.blocks| == 1
    ensures RemoveBlock(s, s.blocks[0].id).blocks == []
  {
    assert s.blocks[1..] == [];
  }

  /** A batch that changes nothing on a normalized store records nothing. */
  lemma IdentityBatchIsNoOp(s: State)
    requires AllHaveRotations(s.blocks)
    ensures ApplyBatch(s, (d: Snapshot) => d) == s
  {
    NormalizeFixesNormalized(s.blocks);
  }

  /** If a live block lacks a rotation, even a batch that edits nothing
      differs from the live blocks under JSON comparison and records an entry. */
  lemma IdentityBatchRecordsWhenRotationMissing(s: State)
    requires !AllHaveRotations(s.blocks)
    ensures RecordsHistory(s, ApplyBatch(s, (d: Snapshot) => d))
    ensures ApplyBatch(s, (d: Snapshot) => d).blocks == Normalize(s.blocks) != s.blocks
  {
    assert AllHaveRotations(Normalize(s.blocks));
  }

  /** Default names use one character code and do not roll over to "AA":
      the 27th block is "Block [" and the codes repeat after 65536 blocks. */
  lemma DefaultNamesDoNotWrap(id: string)
    ensures DefaultBlock(0, id).name == "Block A"
    ensures DefaultBlock(25, id).name == "Block Z"
    ensures DefaultBlock(26, id).name == "Block ["
    ensures DefaultBlock(65536, id).name == DefaultBlock(0, id).name
  {
  }

  /** Resetting without a model rebuilds exactly the store as created. */
  lemma ResetWithoutModelIsInitial(s: State, id: string)
    ensures ResetBlocks(s, None, id) == Initial(id)
  {
  }

  /** Saving a model and loading it back gives the live units and the live
      blocks with their rotations filled in, and the first block selected. */
  lemma SaveThenLoadRoundTrip(s: State, other: State, createdAt: string, id: string)
    ensures var r := ResetBlocks(other, Some(GetModelSnapshot(s, createdAt)), id);
      && r.units == s.units
      && r.blocks == Normalize(s.blocks)
      && (AllHaveRotations(s.blocks) ==> r.blocks == s.blocks)
      && r.history == History([], [])
      && (|s.blocks| > 0 && s.blocks[0].id != "" ==> r.selectedBlockIds == [s.blocks[0].id])
  {
    NormalizeIdempotent(s.blocks);
  }
}
