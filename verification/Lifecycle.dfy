/** The life of an event over whole runs: how its state moves, that deletion is
    absorbing, and that it is finalized only under its one receipt. */
module Lifecycle {
  import opened KvStore
  import opened Model
  import opened Protocol
  import opened Invariants
  import opened Preservation
  import opened Fates
  import opened Frames
  import opened Runs

  /** One move of a live event's state. */
  predicate Moves(from: EventState, to: EventState) {
    || from == to
    || (from == Draft && to == Open)
    || (from == Open && to == Paused)
    || (from == Paused && to == Open)
    || (from != Deleting && to == Deleting)
  }

  /** In one action a live event makes at most one such move and keeps its
      identity, or is removed: deleting and under a receipt, or undone by its own
      creation that could not be finished. */
  lemma EventMoves(w: World, a: Action, e: Id)
    requires Reachable(w) && Enabled(w, a) && HasEvent(w.store.entries, e)
    ensures var w' := Perform(w, a).0;
            var ev := EventNow(w.store.entries, e);
            if HasEvent(w'.store.entries, e) then
              Moves(ev.state, EventNow(w'.store.entries, e).state) && EventNow(w'.store.entries, e).id == e
            else
              && EventKey(e) !in w'.store.entries
              && ((ev.state == Deleting && HasReceipt(w.store.entries, e)) ||
                 (a == UndoCreateEvent(e) && e in w.opening))
  {
    InvHolds(w);
    StoreFollows(w, a);
    LiveVersion(w, EventKey(e));
    EventFate(w, a, e);
    if a.UpdateEvent? && EventUpdated(w, StoreAfter(w, a), a, e) {
      ChangedEventOk(w, a.revision, a.change);
    }
  }

  /** An event comes into being once, as a draft under an identifier never used. */
  lemma EventsStartAsDrafts(w: World, a: Action, e: Id)
    requires Reachable(w) && Enabled(w, a) && EventKey(e) !in w.store.entries
    requires EventKey(e) in Perform(w, a).0.store.entries
    ensures e == w.drawn && HasEvent(Perform(w, a).0.store.entries, e)
    ensures EventNow(Perform(w, a).0.store.entries, e).state == Draft
  {
    InvHolds(w);
    StoreFollows(w, a);
    EventBirth(w, a, e);
  }

  /** Deletion is absorbing: in every continuation the event is gone or still
      deleting under the deletion ID it was first given. */
  lemma DeletionIsAbsorbing(w: World, run: seq<Action>, e: Id)
    requires Reachable(w) && HasEvent(w.store.entries, e) && EventNow(w.store.entries, e).state == Deleting
    ensures var u := Exec(w, run);
            EventKey(e) in u.store.entries ==>
              && HasEvent(u.store.entries, e) && EventNow(u.store.entries, e).state == Deleting
              && EventNow(u.store.entries, e).deletionId == EventNow(w.store.entries, e).deletionId
  {
    InvHolds(w);
    LiveVersion(w, EventKey(e));
    RunGrows(w, run);
    var u := Exec(w, run);
    if EventKey(e) in u.store.entries {
      LiveVersion(u, EventKey(e));
      DoomedTyped(u, e);
    }
  }

  /** Finalized means it was deleted under a receipt that names its deletion,
      and the event never comes back. */
  predicate Finalized(w: World, e: Id) {
    && e < w.drawn && EventKey(e) !in w.store.entries
    && HasReceipt(w.store.entries, e) && e in w.doomed
    && w.store.entries[ReceiptKey(e)].value.ReceiptV?
    && w.store.entries[ReceiptKey(e)].value.receipt.deletionId == w.doomed[e]
  }

  /** An event that is still there, and whose creation has returned or that has
      its receipt. */
  predicate Settled(w: World, e: Id) {
    HasEvent(w.store.entries, e) && (e !in w.opening || HasReceipt(w.store.entries, e))
  }

  /** The creation of an event is never begun a second time. */
  lemma CreationBeginsOnce(w: World, a: Action, e: Id)
    requires Inv(w) && Enabled(w, a) && e < w.drawn && e !in w.opening
    ensures e !in Perform(w, a).0.opening
  {
    if a.CreateEvent? {
      assert Perform(w, a).0 == PerformCreateEvent(w, a.capacity).0;
    } else if a.UpdateEvent? {
      UpdateEventLeavesOpening(w, a.revision, a.change);
    } else if !Settles(a) {
      LeavesHeld(w, a);
    }
  }

  lemma FinalizedStep(w: World, a: Action, e: Id)
    requires Reachable(w) && Enabled(w, a) && Finalized(w, e)
    ensures Finalized(Perform(w, a).0, e)
  {
    InvHolds(w);
    StoreFollows(w, a);
    PerformGrows(w, a);
    EventBirth(w, a, e);
  }

  lemma SettledStep(w: World, a: Action, e: Id)
    requires Reachable(w) && Enabled(w, a) && Settled(w, e)
    ensures Settled(Perform(w, a).0, e) || Finalized(Perform(w, a).0, e)
  {
    InvHolds(w);
    PerformGrows(w, a);
    InvPerform(w, a);
    var w' := Perform(w, a).0;
    EventMoves(w, a, e);
    LiveVersion(w, EventKey(e));
    if e !in w.opening {
      CreationBeginsOnce(w, a, e);
    }
    if !HasEvent(w'.store.entries, e) {
      ReceiptTyped(w', e);
      LiveVersion(w', ReceiptKey(e));
    }
  }

  /** An event whose creation has returned, or that has its receipt, is live, or
      finalized under its receipt and never back, in every continuation. */
  lemma {:induction false} GoneOnlyUnderReceipt(w: World, run: seq<Action>, e: Id)
    requires Reachable(w) && (Settled(w, e) || Finalized(w, e))
    ensures Settled(Exec(w, run), e) || Finalized(Exec(w, run), e)
    ensures Finalized(w, e) ==> Finalized(Exec(w, run), e)
  {
    if run != [] {
      var front, a := run[..|run| - 1], run[|run| - 1];
      GoneOnlyUnderReceipt(w, front, e);
      ReachableExec(w, front);
      if Enabled(Exec(w, front), a) {
        if Finalized(Exec(w, front), e) {
          FinalizedStep(Exec(w, front), a, e);
        } else {
          SettledStep(Exec(w, front), a, e);
        }
      }
    }
  }

  /** A creation that cannot store its invitation deletes the event by its key,
      in whatever state it is by then, and leaves no receipt. */
  lemma UnfinishedCreationCanUndo(w: World, e: Id)
    requires e in w.opening && !HasReceipt(w.store.entries, e)
    ensures var u := Exec(w, [UndoCreateEvent(e)]);
            EventKey(e) !in u.store.entries && !HasReceipt(u.store.entries, e) && e !in u.opening
  {
    assert [UndoCreateEvent(e)][..0] == [];
    assert Exec(w, [UndoCreateEvent(e)]) == PerformUndoCreate(w, e).0;
  }

  /** So the promise that an event goes only under its receipt holds, over every
      continuation, exactly from the moment its creation has returned, or its
      receipt is there. */
  lemma EventIsKeptIffCreated(w: World, e: Id)
    requires Reachable(w) && HasEvent(w.store.entries, e)
    ensures (forall run :: HasEvent(Exec(w, run).store.entries, e) || Finalized(Exec(w, run), e)) <==>
            e !in w.opening || HasReceipt(w.store.entries, e)
  {
    if e in w.opening && !HasReceipt(w.store.entries, e) {
      UnfinishedCreationCanUndo(w, e);
    } else {
      forall run ensures HasEvent(Exec(w, run).store.entries, e) || Finalized(Exec(w, run), e) {
        GoneOnlyUnderReceipt(w, run, e);
      }
    }
  }

  /** A receipt is written once: no later action changes or removes it. */
  lemma ReceiptNeverChanges(w: World, run: seq<Action>, e: Id)
    requires Reachable(w) && HasReceipt(w.store.entries, e)
    ensures HasReceipt(Exec(w, run).store.entries, e)
    ensures Exec(w, run).store.entries[ReceiptKey(e)] == w.store.entries[ReceiptKey(e)]
  {
    InvHolds(w);
    RunGrows(w, run);
  }
}
