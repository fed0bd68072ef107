/** How long a guest keeps its place: no early reclaim, pause and resume, and
    how many guests can be renewable at once. */
module Tenancy {
  import opened KvStore
  import opened Model
  import opened Protocol
  import opened Invariants
  import opened Preservation
  import opened Fates
  import opened Runs
  import opened Guarantees

  // ---------- Claimed versions and live slots ----------

  /** If any version of a generation was ever claimed, its live entry is claimed. */
  predicate StickyAt(x: Write<Key, Value>, entries: Entries) {
    x.value.SlotV? && x.value.slot.cleanup.Some? ==>
      var v := x.value.slot;
      HasSlot(entries, v.eventId, v.number) && SlotNow(entries, v.eventId, v.number).generation == v.generation ==>
        SlotNow(entries, v.eventId, v.number).cleanup.Some?
  }

  ghost predicate Sticky(s: Store<Key, Value>) {
    forall r :: r in s.written ==> StickyAt(s.written[r], s.entries)
  }

  lemma StickyStep(w: World, a: Action, r: nat)
    requires Inv(w) && Enabled(w, a) && Sticky(w.store)
    requires r in w.store.written
    ensures StickyAt(w.store.written[r], StoreAfter(w, a).entries)
  {
    var x := w.store.written[r];
    assert StickyAt(x, w.store.entries);
    if x.value.SlotV? && x.value.slot.cleanup.Some? {
      var v := x.value.slot;
      WriteTyped(w, r);
      JoinTyped(w, v.generation);
      if HasSlot(w.store.entries, v.eventId, v.number) {
        SlotFate(w, a, v.eventId, v.number);
      } else if SlotKey(v.eventId, v.number) in w.store.entries {
        LiveVersion(w, SlotKey(v.eventId, v.number));
      } else {
        SlotBirth(w, a, v.eventId, v.number);
      }
    }
  }

  /** What a store call adds to the history is live right after it. */
  lemma NewVersionIsLive(s: Store<Key, Value>, op: Op<Key, Value>, r: nat)
    requires Consistent(s)
    requires r in Apply(s, op).0.written && r !in s.written
    ensures var s' := Apply(s, op).0;
            && s'.written[r].key in s'.entries
            && s'.entries[s'.written[r].key] == Entry(s'.written[r].value, r)
  {
  }

  lemma StickyPerform(w: World, a: Action)
    requires Inv(w) && Enabled(w, a) && Sticky(w.store)
    ensures Sticky(Perform(w, a).0.store)
  {
    StoreFollows(w, a);
    InvPerform(w, a);
    var s' := StoreAfter(w, a);
    StoreAfterGrows(w, a);
    forall r | r in s'.written ensures StickyAt(s'.written[r], s'.entries) {
      if r in w.store.written {
        StickyStep(w, a, r);
      } else {
        Show(w);
        NewVersionIsLive(w.store, OpOf(w, a).value, r);
        WriteTyped(Perform(w, a).0, r);
      }
    }
  }

  lemma {:induction false} StickyExec(w: World, run: seq<Action>)
    requires Inv(w) && Sticky(w.store)
    ensures Sticky(Exec(w, run).store)
  {
    if run != [] {
      var front, a := run[..|run| - 1], run[|run| - 1];
      StickyExec(w, front);
      InvExec(w, front);
      if Enabled(Exec(w, front), a) {
        StickyPerform(Exec(w, front), a);
      }
    }
  }

  lemma StickyHolds(w: World)
    requires Reachable(w)
    ensures Sticky(w.store)
  {
    var cfg: Config, start: Time, run: seq<Action> :| Exec(Init(cfg, start), run) == w;
    InvInit(cfg, start);
    StickyExec(Init(cfg, start), run);
  }

  // ---------- No early reclaim ----------

  /** A guest whose join finished holds slot `n`, unclaimed. */
  predicate Tenant(w: World, e: Id, n: nat, g: Id) {
    && HasSlot(w.store.entries, e, n) && SlotNow(w.store.entries, e, n).generation == g
    && SlotNow(w.store.entries, e, n).cleanup.None?
    && g in w.joins && w.joins[g].phase == Indexed
  }

  predicate Overdue(w: World, v: Slot) {
    !v.reserved && v.graceExpiresAt <= w.clock
  }

  /** The only way an unclaimed tenant loses its place, or has it claimed:
      released by a presenter, a finished event deletion, or found overdue at
      that very compare-and-swap. */
  lemma NoEarlyReclaim(w: World, a: Action, e: Id, n: nat, g: Id)
    requires Reachable(w) && Enabled(w, a) && Tenant(w, e, n, g)
    ensures || Tenant(Perform(w, a).0, e, n, g)
            || HasReceipt(w.store.entries, e)
            || (Hits(w, a, e, n) && a.update.Claim? && a.update.why == Release)
            || (Hits(w, a, e, n) && a.update.Claim? && a.update.why.Expired? &&
               Overdue(w, SlotNow(w.store.entries, e, n)))
  {
    InvHolds(w);
    StoreFollows(w, a);
    JoinsStep(w, a);
    LiveVersion(w, SlotKey(e, n));
    SlotFate(w, a, e, n);
    if a.DropSlot? {
      WorkTyped(w, a.claim);
    }
  }

  /** A release of slot `n` by a presenter that succeeds. */
  predicate Released(w: World, a: Action, e: Id, n: nat) {
    Hits(w, a, e, n) && a.update.Claim? && a.update.why == Release
  }

  /** Through the run, whenever the guest holds its slot it is not overdue, and
      nobody releases the slot. */
  ghost predicate PunctualRun(w: World, run: seq<Action>, e: Id, n: nat, g: Id) {
    forall i :: 0 <= i < |run| ==> PunctualAt(Exec(w, run[..i]), run[i], e, n, g)
  }

  predicate PunctualAt(u: World, a: Action, e: Id, n: nat, g: Id) {
    (Tenant(u, e, n, g) ==> !Overdue(u, SlotNow(u.store.entries, e, n))) && !Released(u, a, e, n)
  }

  /** A guest that always renews before its grace ends keeps its subject and
      slot in every run, until a presenter releases it or deletes the event. */
  lemma {:induction false} PunctualGuestKeepsItsSlot(w: World, run: seq<Action>, e: Id, n: nat, g: Id)
    requires Reachable(w) && Tenant(w, e, n, g) && PunctualRun(w, run, e, n, g)
    requires e !in Exec(w, run).doomed
    ensures Tenant(Exec(w, run), e, n, g) && SlotNow(Exec(w, run).store.entries, e, n).subject == Guest(e, g)
  {
    ReachableExec(w, run);
    InvHolds(Exec(w, run));
    if run != [] {
      var front, a := run[..|run| - 1], run[|run| - 1];
      var u := Exec(w, front);
      ReachableExec(w, front);
      InvHolds(u);
      RunGrows(u, [a]);
      assert [a][..0] == [] && Exec(u, [a]) == Next(u, a);
      forall i | 0 <= i < |front| ensures PunctualAt(Exec(w, front[..i]), front[i], e, n, g) {
        assert front[..i] == run[..i];
        assert PunctualAt(Exec(w, run[..i]), run[i], e, n, g);
      }
      PunctualGuestKeepsItsSlot(w, front, e, n, g);
      assert PunctualAt(u, a, e, n, g) by { assert run[..|run| - 1] == front; }
      if Enabled(u, a) {
        NoEarlyReclaim(u, a, e, n, g);
        if HasReceipt(u.store.entries, e) {
          ReceiptTyped(u, e);
        }
      }
    }
    if HasSlot(Exec(w, run).store.entries, e, n) {
      LiveVersion(Exec(w, run), SlotKey(e, n));
    }
  }

  // ---------- Pause and resume ----------

  /** A place kept across a pause: reserved, unclaimed, and its cookie valid. */
  predicate Kept(w: World, e: Id, n: nat) {
    && HasSlot(w.store.entries, e, n)
    && var v := SlotNow(w.store.entries, e, n);
       v.reserved && v.cleanup.None? && HasIndex(w, v)
  }

  predicate HasIndex(w: World, v: Slot) {
    && SessionKey(v.digest) in w.store.entries
    && w.store.entries[SessionKey(v.digest)].value == SessionV(SessionIndex(v.eventId, v.number, false))
  }

  lemma IndexStays(w: World, a: Action, e: Id, n: nat)
    requires Inv(w) && Sticky(w.store) && Enabled(w, a) && Kept(w, e, n) && e !in w.doomed
    ensures HasIndex(Perform(w, a).0, SlotNow(w.store.entries, e, n))
  {
    StoreFollows(w, a);
    var v := SlotNow(w.store.entries, e, n);
    LiveVersion(w, SlotKey(e, n));
    IndexFate(w, a, v.digest);
    if a.DropIndex? {
      WriteTyped(w, a.claim);
      WorkTyped(w, a.claim);
      assert StickyAt(w.store.written[a.claim], w.store.entries);
    } else if a.Tombstone? {
      WriteTyped(w, a.slot);
      ReceiptTyped(w, SlotAt(w.store.written, a.slot).eventId);
    }
  }

  /** Nobody renews the slot (only its holder's secret could) or releases it. */
  predicate LeavesAlone(u: World, a: Action, e: Id, n: nat) {
    !Released(u, a, e, n) && !(Hits(u, a, e, n) && a.update.Renew?)
  }

  lemma KeptStep(w: World, a: Action, e: Id, n: nat)
    requires Inv(w) && Sticky(w.store) && Enabled(w, a) && Kept(w, e, n) && e !in w.doomed && LeavesAlone(w, a, e, n)
    ensures Unchanged(w, Perform(w, a).0.store, SlotKey(e, n)) && Kept(Perform(w, a).0, e, n)
  {
    StoreFollows(w, a);
    IndexStays(w, a, e, n);
    LiveVersion(w, SlotKey(e, n));
    SlotFate(w, a, e, n);
    if HasReceipt(w.store.entries, e) {
      ReceiptTyped(w, e);
    }
    if a.DropSlot? {
      WorkTyped(w, a.claim);
    } else if a.Rollback? {
      JoinTyped(w, a.generation);
    }
  }

  ghost predicate RunLeavesAlone(w: World, run: seq<Action>, e: Id, n: nat) {
    forall i :: 0 <= i < |run| ==> LeavesAlone(Exec(w, run[..i]), run[i], e, n)
  }

  /** A reserved unclaimed slot keeps its generation, subject and session index,
      indeed its very entry, through any run of joins, reconciles, pauses,
      reopens and clock advances, however long: until its own holder renews it,
      it is released, or the event is deleted. */
  lemma {:induction false} ReservedPlaceIsKept(w: World, run: seq<Action>, e: Id, n: nat)
    requires Reachable(w) && Kept(w, e, n) && RunLeavesAlone(w, run, e, n)
    requires e !in Exec(w, run).doomed
    ensures Unchanged(w, Exec(w, run).store, SlotKey(e, n)) && Kept(Exec(w, run), e, n)
  {
    if run != [] {
      var front, a := run[..|run| - 1], run[|run| - 1];
      var u := Exec(w, front);
      ReachableExec(w, front);
      InvHolds(u);
      RunGrows(u, [a]);
      assert [a][..0] == [] && Exec(u, [a]) == Next(u, a);
      forall i | 0 <= i < |front| ensures LeavesAlone(Exec(w, front[..i]), front[i], e, n) {
        assert front[..i] == run[..i];
        assert LeavesAlone(Exec(w, run[..i]), run[i], e, n);
      }
      ReservedPlaceIsKept(w, front, e, n);
      assert LeavesAlone(u, a, e, n) by { assert run[..|run| - 1] == front; }
      if Enabled(u, a) {
        StickyHolds(u);
        KeptStep(u, a, e, n);
      }
    }
  }

  // ---------- Capacity ----------

  /** Secrets whose holders could renew at event `e` now, or once it is open:
      an index that is not a tombstone, naming a slot that carries the same
      digest, unclaimed, reserved or within its grace. */
  predicate Renewable(w: World, e: Id, d: Digest) {
    && SessionKey(d) in w.store.entries
    && var x := w.store.entries[SessionKey(d)].value;
       && x.SessionV? && !x.index.deleted && x.index.eventId == e
       && HasSlot(w.store.entries, e, x.index.slot)
       && var v := SlotNow(w.store.entries, e, x.index.slot);
          v.digest == d && v.cleanup.None? && !Overdue(w, v)
  }

  function RenewableAt(w: World, e: Id): set<Digest> {
    set k | k in w.store.entries && k.SessionKey? && Renewable(w, e, k.digest) :: k.digest
  }

  function NumberOf(w: World, e: Id, d: Digest): nat
    requires Renewable(w, e, d)
  {
    w.store.entries[SessionKey(d)].value.index.slot
  }

  /** `most` bounds every capacity the event was ever given. */
  ghost predicate CapacityAtMost(w: World, e: Id, most: nat) {
    forall r :: IsEvent(w.store.written, r) && EventAt(w.store.written, r).id == e ==>
                  EventAt(w.store.written, r).capacity <= most
  }

  lemma RenewableSlotInRange(w: World, e: Id, d: Digest, most: nat)
    requires Inv(w) && Renewable(w, e, d) && CapacityAtMost(w, e, most)
    ensures 1 <= NumberOf(w, e, d) <= most
  {
    var n := NumberOf(w, e, d);
    LiveVersion(w, SlotKey(e, n));
    JoinTyped(w, SlotNow(w.store.entries, e, n).generation);
  }

  lemma {:induction false} BoundedByRange(s: set<Digest>, f: Digest -> nat, most: nat)
    requires forall d :: d in s ==> 1 <= f(d) <= most
    requires forall d, c :: d in s && c in s && f(d) == f(c) ==> d == c
    ensures |s| <= most
    decreases most
  {
    if most == 0 {
      assert forall d :: d !in s;
      assert s == {};
    } else if exists d :: d in s && f(d) == most {
      var d :| d in s && f(d) == most;
      BoundedByRange(s - {d}, f, most - 1);
    } else {
      BoundedByRange(s, f, most - 1);
    }
  }

  /** Renewable secrets name distinct slots within the largest capacity the
      event ever had, so no more than that many guests are renewable at once. */
  lemma CapacityIsNeverExceeded(w: World, e: Id, most: nat)
    requires Reachable(w) && CapacityAtMost(w, e, most)
    ensures forall d :: Renewable(w, e, d) ==> 1 <= NumberOf(w, e, d) <= most
    ensures forall d, c :: Renewable(w, e, d) && Renewable(w, e, c) && NumberOf(w, e, d) == NumberOf(w, e, c) ==> d == c
    ensures |RenewableAt(w, e)| <= most
  {
    InvHolds(w);
    forall d | Renewable(w, e, d) ensures 1 <= NumberOf(w, e, d) <= most {
      RenewableSlotInRange(w, e, d, most);
    }
    var s := RenewableAt(w, e);
    var f := (d: Digest) => if Renewable(w, e, d) then NumberOf(w, e, d) else 0;
    assert forall d :: d in s ==> Renewable(w, e, d);
    BoundedByRange(s, f, most);
  }
}
