/** What holds across whole runs because no action undoes it. */
module Runs {
  import opened KvStore
  import opened Model
  import opened Protocol
  import opened Invariants
  import opened Preservation
  import opened Fates

  /** Everything recorded in `w` is still so in `w'`. */
  ghost predicate Grows(w: World, w': World) {
    && Records(w, w')
    && JoinsGrow(w.joins, w'.joins) && NewJoins(w.joins, w'.joins, w.drawn)
    && DoomGrows(w.doomed, w'.doomed)
    && (forall d :: d in w.dropped ==> d in w'.dropped)
    && StoreGrows(w.store, w'.store)
  }

  /** The generation of a new join is drawn anew. */
  ghost predicate NewJoins(joins: Joins, joins': Joins, drawn: Id) {
    forall g :: g in joins' && g !in joins ==> drawn <= g
  }

  /** Versions and receipts are for ever. */
  ghost predicate StoreGrows(s: Store<Key, Value>, s': Store<Key, Value>) {
    && s.revision <= s'.revision
    && Extends(s.written, s'.written)
    && (forall e :: ReceiptKey(e) in s.entries ==>
          ReceiptKey(e) in s'.entries && s'.entries[ReceiptKey(e)] == s.entries[ReceiptKey(e)])
  }

  lemma OpGrows(s: Store<Key, Value>, op: Op<Key, Value>)
    requires Consistent(s)
    ensures s.revision <= Apply(s, op).0.revision && Extends(s.written, Apply(s, op).0.written)
  {
  }

  lemma StoreAfterGrows(w: World, a: Action)
    requires Inv(w) && Enabled(w, a)
    ensures StoreGrows(w.store, StoreAfter(w, a))
  {
    Show(w);
    if OpOf(w, a).Some? {
      OpGrows(w.store, OpOf(w, a).value);
    }
    forall e | ReceiptKey(e) in w.store.entries ensures Unchanged(w, StoreAfter(w, a), ReceiptKey(e)) {
      ReceiptFate(w, a, e);
    }
  }

  lemma CreateSlotGrows(w: World, r: nat, n: nat, now: Time)
    requires Inv(w) && IsEvent(w.store.written, r)
    ensures JoinsGrow(w.joins, PerformCreateSlot(w, r, n, now).0.joins)
    ensures NewJoins(w.joins, PerformCreateSlot(w, r, n, now).0.joins, w.drawn)
  {
    Show(w);
    NextDrawIsNew(w.joins, w.store.written, w.drawn);
  }

  lemma UpdateEventGrows(w: World, r: nat, c: EventChange)
    requires Inv(w) && IsEvent(w.store.written, r) && EventChangeAllowed(w, r, c)
    ensures DoomGrows(w.doomed, PerformUpdateEvent(w, r, c).0.doomed)
  {
    var k := EventKey(EventAt(w.store.written, r).id);
    if k in w.store.entries && w.store.entries[k].revision == r {
      LiveVersion(w, k);
      DoomedTyped(w, EventAt(w.store.written, r).id);
    }
  }

  lemma RecheckGrows(w: World, g: Id)
    requires g in w.joins && w.joins[g].phase == Created
    ensures JoinsGrow(w.joins, PerformRecheck(w, g).0.joins)
    ensures NewJoins(w.joins, PerformRecheck(w, g).0.joins, w.drawn)
  {
  }

  lemma CreateIndexGrows(w: World, g: Id)
    requires g in w.joins && w.joins[g].phase == Cleared
    ensures JoinsGrow(w.joins, PerformCreateIndex(w, g).0.joins)
    ensures NewJoins(w.joins, PerformCreateIndex(w, g).0.joins, w.drawn)
  {
  }

  lemma JoinsStep(w: World, a: Action)
    requires Inv(w) && Enabled(w, a)
    ensures JoinsGrow(w.joins, Perform(w, a).0.joins) && NewJoins(w.joins, Perform(w, a).0.joins, w.drawn)
  {
    if a.CreateSlot? {
      CreateSlotGrows(w, a.revision, a.number, a.now);
    } else if a.Recheck? {
      RecheckGrows(w, a.generation);
    } else if a.CreateIndex? {
      CreateIndexGrows(w, a.generation);
    }
  }

  predicate TouchesSlots(a: Action) {
    a.CreateSlot? || a.UpdateSlot? || a.Rollback? || a.DropSlot? || a.PurgeSlot? || a.DropIndex? || a.Tombstone?
  }

  predicate OnInvitations(a: Action) {
    || a.CreateReceipt? || a.DropInvitation? || a.DropEvent? || a.CreateEvent?
    || a.CreateInvitation? || a.UndoCreateEvent? || a.OfferInvitation? || a.WithdrawInvitation?
  }

  predicate SameDoom(w: World, w': World) {
    w'.doomed == w.doomed
  }

  lemma SlotStepsDoomNone(w: World, a: Action)
    requires Enabled(w, a) && TouchesSlots(a)
    ensures SameDoom(w, Perform(w, a).0)
  {
  }

  lemma OtherStepsDoomNone(w: World, a: Action)
    requires Enabled(w, a) && !TouchesSlots(a) && !OnInvitations(a) && !a.UpdateEvent?
    ensures SameDoom(w, Perform(w, a).0)
  {
  }

  lemma EventStepsDoomNone(w: World, a: Action)
    requires Enabled(w, a) && OnInvitations(a)
    ensures SameDoom(w, Perform(w, a).0)
  {
  }

  lemma DoomStep(w: World, a: Action)
    requires Inv(w) && Enabled(w, a)
    ensures DoomGrows(w.doomed, Perform(w, a).0.doomed)
  {
    if a.UpdateEvent? {
      UpdateEventGrows(w, a.revision, a.change);
    } else if TouchesSlots(a) {
      SlotStepsDoomNone(w, a);
    } else if OnInvitations(a) {
      EventStepsDoomNone(w, a);
    } else {
      OtherStepsDoomNone(w, a);
    }
  }

  lemma DroppedStep(w: World, a: Action)
    requires Enabled(w, a)
    ensures forall d :: d in w.dropped ==> d in Perform(w, a).0.dropped
  {
    if a.DropInvitation? {
      var d := EventAt(w.store.written, a.revision).invitation;
      assert PerformDropInvitation(w, a.revision).0.dropped == w.dropped[d := a.revision];
    }
  }

  lemma PerformGrows(w: World, a: Action)
    requires Inv(w) && Enabled(w, a)
    ensures Grows(w, Perform(w, a).0)
  {
    JoinsStep(w, a);
    DoomStep(w, a);
    DroppedStep(w, a);
    StoreFollows(w, a);
    StoreAfterGrows(w, a);
  }

  lemma GrowsTransitive(u: World, v: World, w: World)
    requires Grows(u, v) && Grows(v, w)
    ensures Grows(u, w)
  {
  }

  /** Over every run from a reachable world, nothing recorded is lost. */
  lemma {:induction false} RunGrows(w: World, run: seq<Action>)
    requires Inv(w)
    ensures Inv(Exec(w, run)) && Grows(w, Exec(w, run))
  {
    InvExec(w, run);
    if run != [] {
      var front, a := run[..|run| - 1], run[|run| - 1];
      RunGrows(w, front);
      if Enabled(Exec(w, front), a) {
        PerformGrows(Exec(w, front), a);
        GrowsTransitive(w, Exec(w, front), Exec(w, run));
      }
    }
  }
}
