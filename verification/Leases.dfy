/** Cleanup claims as leases: at most one cleaner call per deletion ID is
    outstanding at a time, across all processes and restarts, as long as each
    call ends before its claim's next attempt falls due. */
module Leases {
  import opened KvStore
  import opened Model
  import opened Protocol
  import opened Invariants
  import opened Preservation
  import opened Fates
  import opened Frames
  import opened Runs
  import opened Tenancy

  /** The cleanup intent an entry carries. */
  function IntentIn(v: Value): Option<Progress> {
    match v
    case EventV(ev) => ev.cleanup
    case SlotV(v) => v.cleanup
    case _ => None
  }

  function LiveIntent(s: Store<Key, Value>, k: Key): Option<Progress> {
    if k in s.entries then IntentIn(s.entries[k].value) else None
  }

  /** The claim at revision `rc`, and the intent it stored. */
  predicate IsClaim(s: Store<Key, Value>, work: map<nat, Work>, rc: nat) {
    rc in work && rc in s.written && IntentIn(s.written[rc].value).Some?
  }

  function ClaimedIntent(s: Store<Key, Value>, rc: nat): Progress
    requires rc in s.written && IntentIn(s.written[rc].value).Some?
  {
    IntentIn(s.written[rc].value).value
  }

  predicate Ended(k: Work) {
    k.Complete? || k.Incomplete?
  }

  /** The claim's call is not over and its lease has not run out. */
  predicate Active(s: Store<Key, Value>, work: map<nat, Work>, clock: Time, rc: nat)
    requires IsClaim(s, work, rc)
  {
    !Ended(work[rc]) && clock < ClaimedIntent(s, rc).nextAttemptAt
  }

  // ---------- The invariant, claim by claim ----------

  predicate IdDrawn(s: Store<Key, Value>, drawn: Id, r: nat) {
    r in s.written && IntentIn(s.written[r].value).Some? ==> ClaimedIntent(s, r).id < drawn
  }

  /** An intent ID is ever used at one key only. */
  predicate IdHasOneKey(s: Store<Key, Value>, r: nat, q: nat) {
    (&& r in s.written && q in s.written
     && IntentIn(s.written[r].value).Some? && IntentIn(s.written[q].value).Some?
     && ClaimedIntent(s, r).id == ClaimedIntent(s, q).id) ==> s.written[r].key == s.written[q].key
  }

  /** What the live intent says of a claim with the same ID: it counts at least
      as many attempts, and while the claim is active it is that claim's own. */
  predicate LiveCovers(s: Store<Key, Value>, work: map<nat, Work>, clock: Time, rc: nat) {
    IsClaim(s, work, rc) ==>
      var p, x := ClaimedIntent(s, rc), LiveIntent(s, s.written[rc].key);
      x.Some? && x.value.id == p.id ==>
        && p.attempts <= x.value.attempts
        && (Active(s, work, clock, rc) ==> x.value == p)
  }

  /** Two claims of one ID are different attempts, and not both active. */
  predicate Apart(s: Store<Key, Value>, work: map<nat, Work>, clock: Time, rc: nat, rd: nat) {
    (&& IsClaim(s, work, rc) && IsClaim(s, work, rd) && rc != rd
     && ClaimedIntent(s, rc).id == ClaimedIntent(s, rd).id) ==>
      && ClaimedIntent(s, rc).attempts != ClaimedIntent(s, rd).attempts
      && !(Active(s, work, clock, rc) && Active(s, work, clock, rd))
  }

  ghost predicate LeasesOk(w: World) {
    && (forall r :: IdDrawn(w.store, w.drawn, r))
    && (forall r, q :: IdHasOneKey(w.store, r, q))
    && (forall rc :: LiveCovers(w.store, w.work, w.clock, rc))
    && (forall rc, rd :: Apart(w.store, w.work, w.clock, rc, rd))
  }

  // ---------- What an action does to intents and claims ----------

  /** A successful claim at `k`: a new attempt of the live intent, due by now,
      or a fresh intent where there was none. */
  predicate ClaimedAt(w: World, w': World, k: Key) {
    var rc := w.store.revision + 1;
    var x, x' := LiveIntent(w.store, k), LiveIntent(w'.store, k);
    && x'.Some? && w'.work == w.work[rc := Claimed]
    && rc in w'.store.written && w'.store.written[rc].key == k && IntentIn(w'.store.written[rc].value) == x'
    && w'.clock == w.clock
    && (match x
        case Some(p) =>
          x'.value.id == p.id && x'.value.attempts == p.attempts + 1 && p.nextAttemptAt <= w.clock
        case None => x'.value.id == w.drawn < w'.drawn)
  }

  /** The claim that is live at `k` ended without success and says so. */
  predicate FailedAt(w: World, w': World, k: Key) {
    var x, x' := LiveIntent(w.store, k), LiveIntent(w'.store, k);
    && x.Some? && x'.Some? && x'.value.id == x.value.id && x'.value.attempts == x.value.attempts
    && w'.work == w.work && w'.clock == w.clock
    && var r := w.store.entries[k].revision;
       r in w.work && Ended(w.work[r])
  }

  /** A deletion begins at `k` under a fresh ID. */
  predicate StartedAt(w: World, w': World, k: Key) {
    && LiveIntent(w.store, k).None? && LiveIntent(w'.store, k).Some?
    && LiveIntent(w'.store, k).value.id == w.drawn < w'.drawn
    && w'.work == w.work && w'.clock == w.clock
  }

  predicate IntentFate(w: World, w': World, k: Key) {
    || LiveIntent(w'.store, k).None?
    || LiveIntent(w'.store, k) == LiveIntent(w.store, k)
    || ClaimedAt(w, w', k)
    || FailedAt(w, w', k)
    || StartedAt(w, w', k)
  }

  lemma LiveSlotIntentFate(w: World, a: Action, e: Id, n: nat)
    requires Inv(w) && Enabled(w, a) && HasSlot(w.store.entries, e, n)
    ensures IntentFate(w, Perform(w, a).0, SlotKey(e, n))
  {
    StoreFollows(w, a);
    LiveVersion(w, SlotKey(e, n));
    SlotFate(w, a, e, n);
  }

  lemma SlotIntentFate(w: World, a: Action, e: Id, n: nat)
    requires Inv(w) && Enabled(w, a)
    ensures IntentFate(w, Perform(w, a).0, SlotKey(e, n))
  {
    var k := SlotKey(e, n);
    if HasSlot(w.store.entries, e, n) {
      LiveSlotIntentFate(w, a, e, n);
    } else {
      if k in w.store.entries {
        LiveVersion(w, k);
      }
      StoreFollows(w, a);
      SlotBirth(w, a, e, n);
    }
  }

  lemma LiveEventIntentFate(w: World, a: Action, e: Id)
    requires Inv(w) && Enabled(w, a) && HasEvent(w.store.entries, e)
    ensures IntentFate(w, Perform(w, a).0, EventKey(e))
  {
    StoreFollows(w, a);
    LiveVersion(w, EventKey(e));
    EventFate(w, a, e);
  }

  lemma EventIntentFate(w: World, a: Action, e: Id)
    requires Inv(w) && Enabled(w, a)
    ensures IntentFate(w, Perform(w, a).0, EventKey(e))
  {
    if HasEvent(w.store.entries, e) {
      LiveEventIntentFate(w, a, e);
    } else {
      NewEventIntentFate(w, a, e);
    }
  }

  lemma NewEventIntentFate(w: World, a: Action, e: Id)
    requires Inv(w) && Enabled(w, a) && !HasEvent(w.store.entries, e)
    ensures LiveIntent(Perform(w, a).0.store, EventKey(e)).None?
  {
    StoreFollows(w, a);
    if EventKey(e) in w.store.entries {
      LiveVersion(w, EventKey(e));
    }
    EventBirth(w, a, e);
    if a.CreateEvent? {
      EventIsBornWithoutIntent(w, a.capacity);
    }
  }

  lemma EventIsBornWithoutIntent(w: World, capacity: nat)
    ensures LiveIntent(w.store, EventKey(w.drawn)).None? ==>
            LiveIntent(PerformCreateEvent(w, capacity).0.store, EventKey(w.drawn)).None?
  {
  }

  lemma AnyIntentFate(w: World, a: Action, k: Key)
    requires Inv(w) && Enabled(w, a)
    ensures IntentFate(w, Perform(w, a).0, k)
  {
    match k
    case SlotKey(e, n) => SlotIntentFate(w, a, e, n);
    case EventKey(e) => EventIntentFate(w, a, e);
    case _ =>
      InvPerform(w, a);
      if k in Perform(w, a).0.store.entries {
        LiveVersion(Perform(w, a).0, k);
      }
  }

  /** No claim is forgotten or un-ended, and a new one is at its key's live entry. */
  ghost predicate WorkGoesOn(w: World, w': World) {
    && (forall rc :: rc in w.work ==> rc in w'.work && (Ended(w.work[rc]) ==> Ended(w'.work[rc])))
    && (forall rc :: rc in w'.work && rc !in w.work ==>
          rc == w.store.revision + 1 && rc in w'.store.written && ClaimedAt(w, w', w'.store.written[rc].key))
  }

  lemma SlotUpdateGoesOn(w: World, r: nat, c: SlotChange)
    requires Inv(w) && IsSlot(w.store.written, r) && SlotChangeAllowed(w, r, c)
    ensures WorkGoesOn(w, PerformUpdateSlot(w, r, c).0)
  {
    var k := SlotKey(SlotAt(w.store.written, r).eventId, SlotAt(w.store.written, r).number);
    if k in w.store.entries && w.store.entries[k].revision == r {
      LiveVersion(w, k);
      NextRevisionUnclaimed(w);
      if c.Claim? {
        assert ClaimedAt(w, PerformUpdateSlot(w, r, c).0, k);
      }
    }
  }

  lemma EventUpdateGoesOn(w: World, r: nat, c: EventChange)
    requires Inv(w) && IsEvent(w.store.written, r) && EventChangeAllowed(w, r, c)
    ensures WorkGoesOn(w, PerformUpdateEvent(w, r, c).0)
  {
    var k := EventKey(EventAt(w.store.written, r).id);
    if c.ClaimEvent? && k in w.store.entries && w.store.entries[k].revision == r {
      NextRevisionUnclaimed(w);
      ClaimEventClaims(w, r, c);
    }
  }

  lemma ClaimEventClaims(w: World, r: nat, c: EventChange)
    requires Inv(w) && IsEvent(w.store.written, r) && EventChangeAllowed(w, r, c) && c.ClaimEvent?
    requires PerformUpdateEvent(w, r, c).1.Ok?
    ensures ClaimedAt(w, PerformUpdateEvent(w, r, c).0, EventKey(EventAt(w.store.written, r).id))
    ensures w.store.revision + 1 in PerformUpdateEvent(w, r, c).0.store.written
    ensures PerformUpdateEvent(w, r, c).0.store.written[w.store.revision + 1].key ==
            EventKey(EventAt(w.store.written, r).id)
  {
    LiveVersion(w, EventKey(EventAt(w.store.written, r).id));
    WriteTyped(w, r);
  }

  lemma WorkNeverUndone(w: World, a: Action)
    requires Inv(w) && Enabled(w, a)
    ensures WorkGoesOn(w, Perform(w, a).0)
  {
    if a.UpdateSlot? {
      SlotUpdateGoesOn(w, a.revision, a.update);
    } else if a.UpdateEvent? {
      EventUpdateGoesOn(w, a.revision, a.change);
    } else if Works(a) {
      CallStepGoesOn(w, a);
    } else {
      LeavesWork(w, a);
    }
  }

  lemma CallStepGoesOn(w: World, a: Action)
    requires Enabled(w, a) && (a.BeginList? || a.ListSlot? || a.StartCall? || a.EndCall?)
    ensures WorkGoesOn(w, Perform(w, a).0)
  {
    if a.BeginList? || a.ListSlot? {
      ListStepGoesOn(w, a);
    } else if a.EndCall? {
      AnswerGoesOn(w, a.claim, a.answer);
    } else {
      BeginsCalling(w, a.claim);
    }
  }

  lemma AnswerGoesOn(w: World, rc: nat, answer: Answer)
    requires rc in w.work && w.work[rc].Calling?
    ensures WorkGoesOn(w, PerformEndCall(w, rc, answer).0)
  {
  }

  lemma BeginsCalling(w: World, rc: nat)
    requires Enabled(w, StartCall(rc))
    ensures WorkGoesOn(w, w.(work := w.work[rc := CallOf(w, rc)]))
  {
  }

  lemma ListStepGoesOn(w: World, a: Action)
    requires Enabled(w, a) && (a.BeginList? || a.ListSlot?)
    ensures WorkGoesOn(w, Perform(w, a).0)
  {
  }

  // ---------- Preservation, claim by claim ----------

  /** A version a call wrote is live at its key. */
  lemma WrittenIsLive(s: Store<Key, Value>, op: Op<Key, Value>, r: nat)
    requires Consistent(s) && r !in s.written && r in Apply(s, op).0.written
    ensures var s' := Apply(s, op).0;
            r == s.revision + 1 && LiveIntent(s', s'.written[r].key) == IntentIn(s'.written[r].value)
  {
    NewVersionIsLive(s, op, r);
  }

  lemma NewVersionLive(w: World, a: Action, r: nat)
    requires Inv(w) && Enabled(w, a) && r !in w.store.written && r in StoreAfter(w, a).written
    ensures var s' := StoreAfter(w, a);
            r == w.store.revision + 1 && LiveIntent(s', s'.written[r].key) == IntentIn(s'.written[r].value)
  {
    Show(w);
    WrittenIsLive(w.store, OpOf(w, a).value, r);
  }

  /** The live intent is that of a version in the history. */
  lemma LiveIntentWritten(w: World, k: Key)
    requires Inv(w) && LiveIntent(w.store, k).Some?
    ensures var r := w.store.entries[k].revision;
            && r in w.store.written && w.store.written[r].key == k
            && IntentIn(w.store.written[r].value) == LiveIntent(w.store, k)
  {
    LiveVersion(w, k);
  }

  lemma IdDrawnStep(w: World, w': World, r: nat)
    requires Inv(w) && LeasesOk(w) && Grows(w, w')
    requires r in w'.store.written && r !in w.store.written ==>
               LiveIntent(w'.store, w'.store.written[r].key) == IntentIn(w'.store.written[r].value)
               && IntentFate(w, w', w'.store.written[r].key)
    ensures IdDrawn(w'.store, w'.drawn, r)
  {
    if r in w.store.written {
      assert IdDrawn(w.store, w.drawn, r);
    } else if r in w'.store.written && LiveIntent(w.store, w'.store.written[r].key).Some? {
      var k := w'.store.written[r].key;
      LiveIntentWritten(w, k);
      assert IdDrawn(w.store, w.drawn, w.store.entries[k].revision);
    }
  }

  lemma OneKeyStep(w: World, w': World, r: nat, q: nat)
    requires Inv(w) && LeasesOk(w) && Grows(w, w')
    requires r in w'.store.written && r !in w.store.written ==>
               LiveIntent(w'.store, w'.store.written[r].key) == IntentIn(w'.store.written[r].value)
               && IntentFate(w, w', w'.store.written[r].key)
    requires q in w.store.written
    ensures IdHasOneKey(w'.store, r, q) && IdHasOneKey(w'.store, q, r)
  {
    assert IdDrawn(w.store, w.drawn, q);
    if r in w.store.written {
      assert IdHasOneKey(w.store, r, q);
    } else if r in w'.store.written && LiveIntent(w.store, w'.store.written[r].key).Some? {
      var k := w'.store.written[r].key;
      LiveIntentWritten(w, k);
      assert IdHasOneKey(w.store, w.store.entries[k].revision, q);
    }
  }

  lemma CoversStep(w: World, w': World, rc: nat)
    requires Inv(w) && LeasesOk(w) && Grows(w, w') && WorkGoesOn(w, w')
    requires rc in w'.store.written ==> IntentFate(w, w', w'.store.written[rc].key)
    ensures LiveCovers(w'.store, w'.work, w'.clock, rc)
  {
    if rc in w.work && IsClaim(w'.store, w'.work, rc) {
      WorkTyped(w, rc);
      var k := w.store.written[rc].key;
      assert IdDrawn(w.store, w.drawn, rc);
      assert LiveCovers(w.store, w.work, w.clock, rc);
      if LiveIntent(w.store, k).Some? {
        var r := w.store.entries[k].revision;
        LiveIntentWritten(w, k);
        assert Apart(w.store, w.work, w.clock, rc, r);
      }
    }
  }

  lemma ApartStep(w: World, w': World, rc: nat, rd: nat)
    requires Inv(w) && LeasesOk(w) && Grows(w, w') && WorkGoesOn(w, w')
    requires rc in w.work
    ensures Apart(w'.store, w'.work, w'.clock, rc, rd) && Apart(w'.store, w'.work, w'.clock, rd, rc)
  {
    if IsClaim(w'.store, w'.work, rc) && IsClaim(w'.store, w'.work, rd) {
      WorkTyped(w, rc);
      assert IdDrawn(w.store, w.drawn, rc);
      assert LiveCovers(w.store, w.work, w.clock, rc);
      if rd in w.work {
        WorkTyped(w, rd);
        assert Apart(w.store, w.work, w.clock, rc, rd);
      } else {
        var k := w'.store.written[rd].key;
        if LiveIntent(w.store, k).Some? {
          LiveIntentWritten(w, k);
          assert IdHasOneKey(w.store, rc, w.store.entries[k].revision);
        }
      }
    }
  }

  /** All a step needs to be known by, claim by claim. */
  ghost predicate Step(w: World, w': World) {
    && Inv(w) && Grows(w, w') && WorkGoesOn(w, w')
    && (forall r :: r in w'.store.written && r !in w.store.written ==>
          && r == w.store.revision + 1
          && LiveIntent(w'.store, w'.store.written[r].key) == IntentIn(w'.store.written[r].value))
    && (forall k :: IntentFate(w, w', k))
  }

  lemma IdsStep(w: World, w': World)
    requires Step(w, w') && LeasesOk(w)
    ensures forall r :: IdDrawn(w'.store, w'.drawn, r)
    ensures forall r, q :: IdHasOneKey(w'.store, r, q)
  {
    forall r ensures IdDrawn(w'.store, w'.drawn, r) {
      IdDrawnStep(w, w', r);
    }
    forall r, q ensures IdHasOneKey(w'.store, r, q) {
      if q in w.store.written { OneKeyStep(w, w', r, q); }
      else if r in w.store.written { OneKeyStep(w, w', q, r); }
    }
  }

  lemma ClaimsStep(w: World, w': World)
    requires Step(w, w') && LeasesOk(w)
    ensures forall rc :: LiveCovers(w'.store, w'.work, w'.clock, rc)
    ensures forall rc, rd :: Apart(w'.store, w'.work, w'.clock, rc, rd)
  {
    forall rc ensures LiveCovers(w'.store, w'.work, w'.clock, rc) {
      CoversStep(w, w', rc);
    }
    forall rc, rd ensures Apart(w'.store, w'.work, w'.clock, rc, rd) {
      if rc in w.work { ApartStep(w, w', rc, rd); }
      else if rd in w.work { ApartStep(w, w', rd, rc); }
    }
  }

  lemma LeasesPerform(w: World, a: Action)
    requires Inv(w) && Enabled(w, a) && LeasesOk(w)
    ensures LeasesOk(Perform(w, a).0)
  {
    PerformIsStep(w, a);
    IdsStep(w, Perform(w, a).0);
    ClaimsStep(w, Perform(w, a).0);
  }

  lemma PerformIsStep(w: World, a: Action)
    requires Inv(w) && Enabled(w, a)
    ensures Step(w, Perform(w, a).0)
  {
    var w' := Perform(w, a).0;
    PerformGrows(w, a);
    WorkNeverUndone(w, a);
    StoreFollows(w, a);
    forall r | r in w'.store.written && r !in w.store.written
      ensures r == w.store.revision + 1
      ensures LiveIntent(w'.store, w'.store.written[r].key) == IntentIn(w'.store.written[r].value)
    {
      NewVersionLive(w, a, r);
    }
    forall k ensures IntentFate(w, w', k) {
      AnyIntentFate(w, a, k);
    }
  }

  lemma {:induction false} LeasesExec(w: World, run: seq<Action>)
    requires Inv(w) && LeasesOk(w)
    ensures LeasesOk(Exec(w, run))
  {
    if run != [] {
      var front, a := run[..|run| - 1], run[|run| - 1];
      LeasesExec(w, front);
      InvExec(w, front);
      if Enabled(Exec(w, front), a) {
        LeasesPerform(Exec(w, front), a);
      }
    }
  }

  lemma LeasesHold(w: World)
    requires Reachable(w)
    ensures LeasesOk(w)
  {
    var cfg: Config, start: Time, run: seq<Action> :| Exec(Init(cfg, start), run) == w;
    InvInit(cfg, start);
    LeasesExec(Init(cfg, start), run);
  }

  // ---------- Claims, as actions ----------

  /** The action saves a failure of the intent stored at `k`, and the store
      accepts it. */
  predicate SavesAt(u: World, a: Action, k: Key) {
    && Enabled(u, a) && k in u.store.entries
    && ((a.UpdateSlot? && a.update.SaveFailure?) || (a.UpdateEvent? && a.change.SaveEventFailure?))
    && u.store.entries[k].revision == a.revision
  }

  /** The action claims the intent stored at `k`, and the store accepts it. */
  predicate ClaimsAt(u: World, a: Action, k: Key) {
    && Enabled(u, a) && k in u.store.entries
    && ((a.UpdateSlot? && a.update.Claim?) || (a.UpdateEvent? && a.change.ClaimEvent?))
    && u.store.entries[k].revision == a.revision
  }

  predicate IsClaimAction(a: Action) {
    (a.UpdateSlot? && a.update.Claim?) || (a.UpdateEvent? && a.change.ClaimEvent?)
  }

  /** The clock, as the process that makes the claim read it. */
  function ReadAt(a: Action): Time
    requires IsClaimAction(a)
  {
    if a.UpdateSlot? then a.update.now else a.change.now
  }

  /** What an accepted claim stores: the intent is due again when the lease, from
      the moment the clock was read, has run out. */
  lemma ClaimStoresLease(w: World, a: Action, k: Key)
    requires Inv(w) && ClaimsAt(w, a, k)
    ensures var u := Perform(w, a).0;
            && LiveIntent(u.store, k).Some? &&
               LiveIntent(u.store, k).value.nextAttemptAt == ReadAt(a) + w.cfg.cleanupLease
            && (match LiveIntent(w.store, k)
                case Some(p) => LiveIntent(u.store, k).value.attempts == p.attempts + 1
                case None => LiveIntent(u.store, k).value.attempts == 1)
            && var rc := w.store.revision + 1;
               && u.store.entries[k].revision == rc && IsClaim(u.store, u.work, rc) && u.store.written[rc].key == k
               && ClaimedIntent(u.store, rc) == LiveIntent(u.store, k).value
  {
    LiveVersion(w, k);
    if a.UpdateSlot? {
      assert Perform(w, a).0 == PerformUpdateSlot(w, a.revision, a.update).0;
    } else {
      WriteTyped(w, a.revision);
      assert Perform(w, a).0 == PerformUpdateEvent(w, a.revision, a.change).0;
    }
  }

  lemma NewSlotWork(w: World, r: nat, c: SlotChange, rc: nat)
    requires Inv(w) && IsSlot(w.store.written, r) && SlotChangeAllowed(w, r, c)
    requires rc in PerformUpdateSlot(w, r, c).0.work && rc !in w.work
    ensures var k := SlotKey(SlotAt(w.store.written, r).eventId, SlotAt(w.store.written, r).number);
            ClaimsAt(w, UpdateSlot(r, c), k) && rc == w.store.revision + 1
  {
    NextRevisionUnclaimed(w);
  }

  lemma NewEventWork(w: World, r: nat, c: EventChange, rc: nat)
    requires Inv(w) && IsEvent(w.store.written, r) && EventChangeAllowed(w, r, c)
    requires rc in PerformUpdateEvent(w, r, c).0.work && rc !in w.work
    ensures ClaimsAt(w, UpdateEvent(r, c), EventKey(EventAt(w.store.written, r).id)) && rc == w.store.revision + 1
  {
    NextRevisionUnclaimed(w);
  }

  /** A claim begins only by an action that claims. */
  lemma NewWork(w: World, a: Action, rc: nat) returns (k: Key)
    requires Inv(w) && Enabled(w, a) && rc in Perform(w, a).0.work && rc !in w.work
    ensures ClaimsAt(w, a, k) && rc == w.store.revision + 1
  {
    if a.UpdateSlot? {
      NewSlotWork(w, a.revision, a.update, rc);
      k := SlotKey(SlotAt(w.store.written, a.revision).eventId, SlotAt(w.store.written, a.revision).number);
    } else if a.UpdateEvent? {
      NewEventWork(w, a.revision, a.change, rc);
      k := EventKey(EventAt(w.store.written, a.revision).id);
    } else if Works(a) {
      CallStepGoesOn(w, a);
      CallStepsBeginNothing(w, a, rc);
    } else {
      LeavesWork(w, a);
    }
  }

  lemma CallStepsBeginNothing(w: World, a: Action, rc: nat)
    requires Enabled(w, a) && (a.BeginList? || a.ListSlot? || a.StartCall? || a.EndCall?)
    ensures rc in Perform(w, a).0.work ==> rc in w.work
  {
  }

  /** Step `i` of the run stores the claim `rc`. */
  predicate Begins(w: World, run: seq<Action>, i: nat, rc: nat) {
    && i < |run| && IsClaimAction(run[i])
    && var u := Exec(w, run[..i]);
       Enabled(u, run[i]) && rc == u.store.revision + 1 && rc in Perform(u, run[i]).0.work && rc !in u.work
  }

  /** Every claim was begun by some step, and carries its lease ever after. */
  lemma {:induction false} ClaimBegan(w: World, run: seq<Action>, rc: nat) returns (i: nat)
    requires Inv(w) && rc in Exec(w, run).work && rc !in w.work
    ensures Begins(w, run, i, rc) && IsClaim(Exec(w, run).store, Exec(w, run).work, rc)
    ensures ClaimedIntent(Exec(w, run).store, rc).nextAttemptAt == ReadAt(run[i]) + w.cfg.cleanupLease
  {
    var front, a := run[..|run| - 1], run[|run| - 1];
    RunGrows(w, front);
    var u := Exec(w, front);
    if rc in u.work {
      i := ClaimBegan(w, front, rc);
      assert front[..i] == run[..i];
      if Enabled(u, a) {
        PerformGrows(u, a);
      }
    } else {
      i := |front|;
      var k := NewWork(u, a, rc);
      ClaimStoresLease(u, a, k);
    }
  }

  // ---------- The guarantee ----------

  /** The cleaner has been called for this claim and has not answered. */
  predicate Outstanding(w: World, rc: nat) {
    rc in w.work && w.work[rc].Calling?
  }

  /** The deletion ID the call carries. */
  function CallId(w: World, rc: nat): Id
    requires rc in w.store.written && IntentIn(w.store.written[rc].value).Some?
  {
    ClaimedIntent(w.store, rc).id
  }

  /** The standing assumption: a call that is still outstanding was claimed less
      than a lease ago, by the clock as its process read it then. */
  ghost predicate CallsAreTimely(w: World, run: seq<Action>) {
    forall i: nat, rc: nat :: Begins(w, run, i, rc) && Outstanding(Exec(w, run), rc) ==>
      Exec(w, run).clock < ReadAt(run[i]) + w.cfg.cleanupLease
  }

  lemma StillLeased(w: World, run: seq<Action>, rc: nat)
    requires Inv(w) && w.work == map[] && CallsAreTimely(w, run) && Outstanding(Exec(w, run), rc)
    ensures IsClaim(Exec(w, run).store, Exec(w, run).work, rc)
    ensures Active(Exec(w, run).store, Exec(w, run).work, Exec(w, run).clock, rc)
  {
    var i := ClaimBegan(w, run, rc);
  }

  /** After any run, if the calls outstanding were claimed less than a lease ago,
      no two of them carry the same deletion ID. */
  lemma OneCallPerDeletionId(cfg: Config, start: Time, run: seq<Action>, rc: nat, rd: nat)
    requires CallsAreTimely(Init(cfg, start), run)
    requires var w := Exec(Init(cfg, start), run); Outstanding(w, rc) && Outstanding(w, rd) && rc != rd
    ensures var w := Exec(Init(cfg, start), run);
            && IsClaim(w.store, w.work, rc) && IsClaim(w.store, w.work, rd)
            && CallId(w, rc) != CallId(w, rd)
  {
    var w := Exec(Init(cfg, start), run);
    InvInit(cfg, start);
    assert Reachable(w);
    LeasesHold(w);
    StillLeased(Init(cfg, start), run, rc);
    StillLeased(Init(cfg, start), run, rd);
    assert Apart(w.store, w.work, w.clock, rc, rd);
  }
}
