/** Backoff over whole runs: however processes interleave, crash and restart, the
    saved failures of one cleanup intent push its next claim out by all the
    delays so far (internal/access/recovery.go:24-45, 65-70, 148-152). */
module Retries {
  import opened KvStore
  import opened Model
  import opened Protocol
  import opened Invariants
  import opened Preservation
  import opened Fates
  import opened Frames
  import opened Runs
  import opened Leases
  import opened Backoff

  function FailuresIn(w: World, run: seq<Action>, k: Key): nat {
    if run == [] then 0
    else
      var front, a := run[..|run| - 1], run[|run| - 1];
      FailuresIn(w, front, k) + if SavesAt(Exec(w, front), a, k) then 1 else 0
  }

  /** After `n` failures saved since a claim at time `start`: while an attempt is
      under way the clock, and the end of its call, are past all the delays; in
      between, the next attempt is not due before them. */
  predicate Paced(s: Store<Key, Value>, work: map<nat, Work>, clock: Time, k: Key, id: Id, start: Time, n: nat) {
    var x := LiveIntent(s, k);
    x.Some? && x.value.id == id ==>
      var r := s.entries[k].revision;
      if r in work then
        && n + 1 <= x.value.attempts && start + TotalDelay(n) <= clock
        && (work[r].Incomplete? ==> start + TotalDelay(n) <= work[r].endedAt)
      else
        && n <= x.value.attempts
        && (start + TotalDelay(n) <= x.value.nextAttemptAt || start + TotalDelay(n) <= clock)
  }

  predicate PacedIn(w: World, k: Key, id: Id, start: Time, n: nat) {
    Paced(w.store, w.work, w.clock, k, id, start, n)
  }

  /** How a call that is not over can come to have failed: it ends now. */
  predicate EndsNow(w: World, work': map<nat, Work>, r: nat) {
    r in work' && work'[r].Incomplete? ==>
      (r in w.work && w.work[r] == work'[r]) || work'[r].endedAt == w.clock
  }

  lemma UpdatesEndNothing(w: World, a: Action, r: nat)
    requires Enabled(w, a) && (a.UpdateSlot? || a.UpdateEvent?)
    ensures EndsNow(w, Perform(w, a).0.work, r)
  {
    if a.UpdateSlot? {
      SlotUpdateEndsNothing(w, a.revision, a.update, r);
    } else {
      EventUpdateEndsNothing(w, a.revision, a.change, r);
    }
  }

  lemma SlotUpdateEndsNothing(w: World, q: nat, c: SlotChange, r: nat)
    requires IsSlot(w.store.written, q) && SlotChangeAllowed(w, q, c)
    ensures EndsNow(w, PerformUpdateSlot(w, q, c).0.work, r)
  {
  }

  lemma EventUpdateEndsNothing(w: World, q: nat, c: EventChange, r: nat)
    requires IsEvent(w.store.written, q) && EventChangeAllowed(w, q, c)
    ensures EndsNow(w, PerformUpdateEvent(w, q, c).0.work, r)
  {
  }

  lemma CallStepsEndNow(w: World, a: Action, r: nat)
    requires Enabled(w, a) && (a.BeginList? || a.ListSlot? || a.StartCall? || a.EndCall?)
    ensures EndsNow(w, Perform(w, a).0.work, r)
  {
  }

  lemma CallsEndNow(w: World, a: Action, r: nat)
    requires Enabled(w, a)
    ensures EndsNow(w, Perform(w, a).0.work, r)
  {
    if a.UpdateSlot? || a.UpdateEvent? {
      UpdatesEndNothing(w, a, r);
    } else if Works(a) {
      CallStepsEndNow(w, a, r);
    } else {
      LeavesWork(w, a);
    }
  }

  lemma UnchangedPace(w: World, w': World, k: Key, id: Id, start: Time, n: nat)
    requires PacedIn(w, k, id, start, n) && k in w.store.entries && k in w'.store.entries
    requires w'.store.entries[k] == w.store.entries[k] && w.clock <= w'.clock
    requires var r := w.store.entries[k].revision; (r in w'.work <==> r in w.work) && EndsNow(w, w'.work, r)
    ensures PacedIn(w', k, id, start, n)
  {
  }

  /** A revision that exists is a claim after an action only if it was before. */
  lemma ClaimsAreNew(w: World, a: Action, k: Key)
    requires Inv(w) && Enabled(w, a) && k in w.store.entries
    ensures var r := w.store.entries[k].revision; r in Perform(w, a).0.work <==> r in w.work
  {
    LiveVersion(w, k);
    WriteTyped(w, w.store.entries[k].revision);
    WorkNeverUndone(w, a);
  }

  lemma OneMoreDelay(start: Time, n: nat, ended: Time, attempts: nat)
    requires start + TotalDelay(n) <= ended && n + 1 <= attempts
    ensures start + TotalDelay(n + 1) <= ended + RetryDelay(attempts)
  {
    DelayIsBoundedAndMonotone(n + 1, attempts);
  }

  lemma SlotPace(w: World, r: nat, c: SlotChange, e: Id, m: nat, id: Id, start: Time, n: nat)
    requires Inv(w) && IsSlot(w.store.written, r) && SlotChangeAllowed(w, r, c) && HasSlot(w.store.entries, e, m)
    requires w.store.entries[SlotKey(e, m)].revision == r && id < w.drawn && PacedIn(w, SlotKey(e, m), id, start, n)
    ensures PacedIn(PerformUpdateSlot(w, r, c).0, SlotKey(e, m), id, start, if c.SaveFailure? then n + 1 else n)
  {
    LiveVersion(w, SlotKey(e, m));
    NextRevisionUnclaimed(w);
    if c.SaveFailure? && SlotAt(w.store.written, r).cleanup.value.id == id {
      OneMoreDelay(start, n, c.now, SlotAt(w.store.written, r).cleanup.value.attempts);
    }
  }

  lemma EventPace(w: World, r: nat, c: EventChange, e: Id, id: Id, start: Time, n: nat)
    requires Inv(w) && IsEvent(w.store.written, r) && EventChangeAllowed(w, r, c) && HasEvent(w.store.entries, e)
    requires w.store.entries[EventKey(e)].revision == r && id < w.drawn && PacedIn(w, EventKey(e), id, start, n)
    ensures PacedIn(PerformUpdateEvent(w, r, c).0, EventKey(e), id, start, if c.SaveEventFailure? then n + 1 else n)
  {
    LiveVersion(w, EventKey(e));
    NextRevisionUnclaimed(w);
    if c.SaveEventFailure? && EventAt(w.store.written, r).cleanup.value.id == id {
      OneMoreDelay(start, n, c.now, EventAt(w.store.written, r).cleanup.value.attempts);
    }
  }

  lemma StillPaced(w: World, a: Action, k: Key, id: Id, start: Time, n: nat)
    requires Inv(w) && Enabled(w, a) && PacedIn(w, k, id, start, n) && !SavesAt(w, a, k)
    requires Unchanged(w, StoreAfter(w, a), k)
    ensures PacedIn(Perform(w, a).0, k, id, start, n)
  {
    var w' := Perform(w, a).0;
    StoreFollows(w, a);
    CallsEndNow(w, a, w.store.entries[k].revision);
    ClaimsAreNew(w, a, k);
    PerformGrows(w, a);
    UnchangedPace(w, w', k, id, start, n);
  }

  lemma SlotPacedStep(w: World, a: Action, e: Id, m: nat, id: Id, start: Time, n: nat)
    requires Inv(w) && Enabled(w, a) && id < w.drawn && HasSlot(w.store.entries, e, m)
    requires PacedIn(w, SlotKey(e, m), id, start, n)
    ensures PacedIn(Perform(w, a).0, SlotKey(e, m), id, start, if SavesAt(w, a, SlotKey(e, m)) then n + 1 else n)
  {
    var k := SlotKey(e, m);
    LiveVersion(w, k);
    if a.UpdateSlot? && a.revision == w.store.entries[k].revision {
      SlotPace(w, a.revision, a.update, e, m, id, start, n);
      assert Perform(w, a).0 == PerformUpdateSlot(w, a.revision, a.update).0;
    } else {
      SlotFate(w, a, e, m);
      StoreFollows(w, a);
      if Unchanged(w, StoreAfter(w, a), k) {
        StillPaced(w, a, k, id, start, n);
      }
    }
  }

  lemma EventPacedStep(w: World, a: Action, e: Id, id: Id, start: Time, n: nat)
    requires Inv(w) && Enabled(w, a) && id < w.drawn && HasEvent(w.store.entries, e)
    requires PacedIn(w, EventKey(e), id, start, n)
    ensures PacedIn(Perform(w, a).0, EventKey(e), id, start, if SavesAt(w, a, EventKey(e)) then n + 1 else n)
  {
    var k := EventKey(e);
    LiveVersion(w, k);
    if a.UpdateEvent? && a.revision == w.store.entries[k].revision {
      EventPace(w, a.revision, a.change, e, id, start, n);
      assert Perform(w, a).0 == PerformUpdateEvent(w, a.revision, a.change).0;
    } else {
      EventFate(w, a, e);
      StoreFollows(w, a);
      if Unchanged(w, StoreAfter(w, a), k) {
        StillPaced(w, a, k, id, start, n);
      }
    }
  }

  /** Where no intent with the ID is stored, none appears: IDs are drawn anew. */
  lemma NoIntentReturns(w: World, a: Action, k: Key, id: Id)
    requires Inv(w) && Enabled(w, a) && id < w.drawn && LiveIntent(w.store, k).None?
    ensures var x := LiveIntent(Perform(w, a).0.store, k); x.Some? ==> x.value.id != id
  {
    AnyIntentFate(w, a, k);
  }

  lemma PacedStep(w: World, a: Action, k: Key, id: Id, start: Time, n: nat)
    requires Inv(w) && Enabled(w, a) && id < w.drawn && PacedIn(w, k, id, start, n)
    ensures PacedIn(Perform(w, a).0, k, id, start, if SavesAt(w, a, k) then n + 1 else n)
  {
    if k in w.store.entries {
      LiveVersion(w, k);
    }
    if LiveIntent(w.store, k).None? {
      NoIntentReturns(w, a, k, id);
    } else if k.SlotKey? {
      SlotPacedStep(w, a, k.eventId, k.number, id, start, n);
    } else {
      EventPacedStep(w, a, k.eventId, id, start, n);
    }
  }

  lemma {:induction false} PacedRun(w: World, run: seq<Action>, k: Key, id: Id, start: Time)
    requires Inv(w) && id < w.drawn && PacedIn(w, k, id, start, 0)
    ensures PacedIn(Exec(w, run), k, id, start, FailuresIn(w, run, k))
  {
    if run != [] {
      var front, a := run[..|run| - 1], run[|run| - 1];
      PacedRun(w, front, k, id, start);
      RunGrows(w, front);
      if Enabled(Exec(w, front), a) {
        PacedStep(Exec(w, front), a, k, id, start, FailuresIn(w, front, k));
      }
    }
  }

  /** A claim the store accepts starts an attempt, now. */
  lemma ClaimTakes(w: World, a: Action, k: Key)
    requires Inv(w) && ClaimsAt(w, a, k)
    ensures var u := Perform(w, a).0;
            && u.clock == w.clock && LiveIntent(u.store, k).Some? && LiveIntent(u.store, k).value.attempts >= 1
            && u.store.entries[k].revision in u.work && u.work[u.store.entries[k].revision] == Claimed
  {
    LiveVersion(w, k);
    if a.UpdateSlot? {
      assert Perform(w, a).0 == PerformUpdateSlot(w, a.revision, a.update).0;
    } else {
      assert Perform(w, a).0 == PerformUpdateEvent(w, a.revision, a.change).0;
    }
  }

  lemma ClaimIsDue(u: World, a: Action, k: Key)
    requires Inv(u) && ClaimsAt(u, a, k)
    ensures LiveIntent(u.store, k).Some? ==> LiveIntent(u.store, k).value.nextAttemptAt <= u.clock
  {
    LiveVersion(u, k);
    if a.UpdateEvent? {
      WriteTyped(u, a.revision);
    }
  }

  /** From one accepted claim of an intent to another, over every run between:
      if `n` of its failures were saved meanwhile, at least 5(2^n - 1) seconds
      have passed, or 315 + 160(n - 6) once the cap is reached. */
  lemma BackoffOverRuns(w: World, first: Action, run: seq<Action>, next: Action, k: Key)
    requires Reachable(w) && ClaimsAt(w, first, k)
    requires ClaimsAt(Exec(Perform(w, first).0, run), next, k)
    requires var p, q := LiveIntent(Perform(w, first).0.store, k), LiveIntent(Exec(Perform(w, first).0, run).store, k);
             p.Some? && q.Some? && q.value.id == p.value.id
    ensures var u := Perform(w, first).0;
            var n := FailuresIn(u, run, k);
            && (n <= 6 ==> Exec(u, run).clock >= w.clock + 5 * (Pow2(n) - 1))
            && (n >= 6 ==> Exec(u, run).clock >= w.clock + 315 + 160 * (n - 6))
  {
    InvHolds(w);
    ClaimTakes(w, first, k);
    var u := Perform(w, first).0;
    InvPerform(w, first);
    LeasesHold(w);
    LeasesPerform(w, first);
    LiveIntentWritten(u, k);
    assert IdDrawn(u.store, u.drawn, u.store.entries[k].revision);
    PacedRun(u, run, k, LiveIntent(u.store, k).value.id, w.clock);
    InvExec(u, run);
    ClaimIsDue(Exec(u, run), next, k);
    TotalDelayClosedForm(FailuresIn(u, run, k));
  }

  // ---------- A claim holds its lease ----------

  /** The intent `id` at `k` is not due before `until`. */
  predicate HeldIn(s: Store<Key, Value>, k: Key, id: Id, until: Time) {
    var x := LiveIntent(s, k);
    x.Some? && x.value.id == id ==> until <= x.value.nextAttemptAt
  }

  lemma SlotUpdateHolds(w: World, r: nat, c: SlotChange, e: Id, m: nat, id: Id, until: Time)
    requires Inv(w) && IsSlot(w.store.written, r) && SlotChangeAllowed(w, r, c) && HasSlot(w.store.entries, e, m)
    requires w.store.entries[SlotKey(e, m)].revision == r && !c.SaveFailure? && id < w.drawn
    requires HeldIn(w.store, SlotKey(e, m), id, until)
    ensures HeldIn(PerformUpdateSlot(w, r, c).0.store, SlotKey(e, m), id, until)
  {
    LiveVersion(w, SlotKey(e, m));
  }

  lemma EventUpdateHolds(w: World, r: nat, c: EventChange, e: Id, id: Id, until: Time)
    requires Inv(w) && IsEvent(w.store.written, r) && EventChangeAllowed(w, r, c) && HasEvent(w.store.entries, e)
    requires w.store.entries[EventKey(e)].revision == r && !c.SaveEventFailure? && id < w.drawn
    requires HeldIn(w.store, EventKey(e), id, until)
    ensures HeldIn(PerformUpdateEvent(w, r, c).0.store, EventKey(e), id, until)
  {
    LiveVersion(w, EventKey(e));
  }

  lemma HeldStep(w: World, a: Action, k: Key, id: Id, until: Time)
    requires Inv(w) && Enabled(w, a) && id < w.drawn && HeldIn(w.store, k, id, until) && !SavesAt(w, a, k)
    ensures HeldIn(Perform(w, a).0.store, k, id, until)
  {
    if k in w.store.entries {
      LiveVersion(w, k);
    }
    if LiveIntent(w.store, k).None? {
      NoIntentReturns(w, a, k, id);
    } else if a.UpdateSlot? && k.SlotKey? && a.revision == w.store.entries[k].revision {
      SlotUpdateHolds(w, a.revision, a.update, k.eventId, k.number, id, until);
      assert Perform(w, a).0 == PerformUpdateSlot(w, a.revision, a.update).0;
    } else if a.UpdateEvent? && k.EventKey? && a.revision == w.store.entries[k].revision {
      EventUpdateHolds(w, a.revision, a.change, k.eventId, id, until);
      assert Perform(w, a).0 == PerformUpdateEvent(w, a.revision, a.change).0;
    } else {
      OthersHold(w, a, k, id, until);
    }
  }

  lemma OthersHold(w: World, a: Action, k: Key, id: Id, until: Time)
    requires Inv(w) && Enabled(w, a) && k in w.store.entries && HeldIn(w.store, k, id, until)
    requires LiveIntent(w.store, k).Some?
    requires (a.UpdateSlot? && k.SlotKey?) || (a.UpdateEvent? && k.EventKey?) ==>
             a.revision != w.store.entries[k].revision
    ensures HeldIn(Perform(w, a).0.store, k, id, until)
  {
    LiveVersion(w, k);
    StoreFollows(w, a);
    if k.SlotKey? {
      SlotFate(w, a, k.eventId, k.number);
    } else {
      EventFate(w, a, k.eventId);
    }
  }

  lemma {:induction false} HeldRun(w: World, run: seq<Action>, k: Key, id: Id, until: Time)
    requires Inv(w) && id < w.drawn && HeldIn(w.store, k, id, until) && FailuresIn(w, run, k) == 0
    ensures HeldIn(Exec(w, run).store, k, id, until)
  {
    if run != [] {
      var front, a := run[..|run| - 1], run[|run| - 1];
      HeldRun(w, front, k, id, until);
      RunGrows(w, front);
      if Enabled(Exec(w, front), a) {
        HeldStep(Exec(w, front), a, k, id, until);
      }
    }
  }

  /** A claim excludes every other of the same intent for the length of its lease,
      in every run in which no failure of it is saved: the next one the store
      accepts was made at the earliest that long after it. */
  lemma ClaimHoldsItsLease(w: World, first: Action, run: seq<Action>, next: Action, k: Key)
    requires Reachable(w) && ClaimsAt(w, first, k)
    requires ClaimsAt(Exec(Perform(w, first).0, run), next, k) && FailuresIn(Perform(w, first).0, run, k) == 0
    requires var p, q := LiveIntent(Perform(w, first).0.store, k), LiveIntent(Exec(Perform(w, first).0, run).store, k);
             p.Some? && q.Some? && q.value.id == p.value.id
    ensures ReadAt(next) >= ReadAt(first) + w.cfg.cleanupLease
  {
    InvHolds(w);
    ClaimStoresLease(w, first, k);
    var u := Perform(w, first).0;
    InvPerform(w, first);
    LeasesHold(w);
    LeasesPerform(w, first);
    LiveIntentWritten(u, k);
    assert IdDrawn(u.store, u.drawn, u.store.entries[k].revision);
    HeldRun(u, run, k, LiveIntent(u.store, k).value.id, ReadAt(first) + w.cfg.cleanupLease);
    InvExec(u, run);
    ClaimReadsDue(Exec(u, run), next, k);
  }

  lemma ClaimReadsDue(u: World, a: Action, k: Key)
    requires Inv(u) && ClaimsAt(u, a, k)
    ensures LiveIntent(u.store, k).Some? ==> LiveIntent(u.store, k).value.nextAttemptAt <= ReadAt(a)
  {
    LiveVersion(u, k);
    if a.UpdateEvent? {
      WriteTyped(u, a.revision);
    }
  }

  /** The clock, as the process that saves a failure read it. */
  function SavedAt(a: Action): Time
    requires (a.UpdateSlot? && a.update.SaveFailure?) || (a.UpdateEvent? && a.change.SaveEventFailure?)
  {
    if a.UpdateSlot? then a.update.now else a.change.now
  }

  /** A saved failure puts the next attempt off by the delay of the attempts made,
      which is between 5 and 160 seconds, and changes nothing else of the intent
      but to say that it failed. */
  lemma SavedFailureDelays(w: World, a: Action, k: Key)
    requires Inv(w) && SavesAt(w, a, k)
    ensures var x, x' := LiveIntent(w.store, k), LiveIntent(Perform(w, a).0.store, k);
            && x.Some? && x'.Some?
            && x'.value == x.value.(failed := true, nextAttemptAt := x'.value.nextAttemptAt)
            && x'.value.nextAttemptAt == SavedAt(a) + DelaySeconds(x.value.attempts)
            && SavedAt(a) + 5 <= x'.value.nextAttemptAt <= SavedAt(a) + 160
  {
    LiveVersion(w, k);
    if a.UpdateSlot? {
      assert Perform(w, a).0 == PerformUpdateSlot(w, a.revision, a.update).0;
    } else {
      assert Perform(w, a).0 == PerformUpdateEvent(w, a.revision, a.change).0;
    }
    DelaysInSeconds(LiveIntent(w.store, k).value.attempts);
  }
}
