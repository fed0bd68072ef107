/** Joining an event and releasing a slot (internal/access/service.go:265-333,
    426-442), modelled as methods, while other processes interfere. */
module Joining {
  import opened KvStore
  import opened Model
  import opened Protocol
  import opened Invariants
  import opened Runs
  import opened Tenancy
  import opened Invitations
  import opened Interference
  import opened ClusterApi
  import opened Cleanup
  import opened Calls

  /** A join in phase `phase` that put the slot `v` in its place. */
  predicate JoinedAs(w: World, v: Slot, source: nat, phase: Phase) {
    && v.generation in w.joins && v.subject == Guest(v.eventId, v.generation)
    && w.joins[v.generation] == Join(v.eventId, v.number, v.digest, w.joins[v.generation].revision, source, phase)
  }

  /** Every guest minted at the place of `v` before `v` is acknowledged. */
  ghost predicate PredecessorsErased(w: World, v: Slot) {
    forall x :: Precedes(w, x, v) && x in w.minted ==> x in w.acked
  }

  predicate Precedes(w: World, x: Guest, v: Slot) {
    && x.eventId == v.eventId && x.generation < v.generation
    && x.generation in w.joins && w.joins[x.generation].number == v.number
  }

  /** Only slot `n` of the event, and session indexes, may have changed. */
  ghost predicate OnlyPlace(w: World, w': World, e: Id, n: nat) {
    && w'.clock == w.clock && w'.cfg == w.cfg
    && (forall k: Key :: !k.SessionKey? && k != SlotKey(e, n) ==> SameAt(w.store, w'.store, k))
  }

  predicate Vacant(entries: Entries, e: Id, n: nat) {
    SlotKey(e, n) !in entries
  }

  /** A slot that a join leaves alone: neither claimed nor out of grace, or
      claimed with its next attempt still to come. */
  predicate LeftAlone(v: Slot, now: Time) {
    || (v.cleanup.None? && (v.reserved || now < v.graceExpiresAt))
    || (v.cleanup.Some? && now < v.cleanup.value.nextAttemptAt)
  }

  /** Slot `n` was occupied and is: a slot to be left alone as it was, and any
      other with one attempt more to clean it, made now, that failed. */
  ghost predicate PassedOver(w: World, w': World, e: Id, n: nat) {
    && HasSlot(w.store.entries, e, n) && HasSlot(w'.store.entries, e, n)
    && var v, v' := SlotNow(w.store.entries, e, n), SlotNow(w'.store.entries, e, n);
       if LeftAlone(v, w.clock) then SameAt(w.store, w'.store, SlotKey(e, n))
       else
         && v'.cleanup.Some? && v' == v.(cleanup := v'.cleanup)
         && FailedAttempt(v.cleanup, v'.cleanup.value.id, w.clock, v'.cleanup)
         && (v.cleanup.None? ==> w.drawn <= v'.cleanup.value.id)
  }

  /** Slot `n` was free to take: vacant, or not to be left alone and its guest
      acknowledged since. */
  ghost predicate MadeRoom(w: World, w': World, e: Id, n: nat) {
    || Vacant(w.store.entries, e, n)
    || (&& HasSlot(w.store.entries, e, n) && !LeftAlone(SlotNow(w.store.entries, e, n), w.clock)
        && SlotNow(w.store.entries, e, n).subject in w'.acked)
  }

  /** Nobody loses the right to renew, nor her place, except the holder of a
      digest in `gone`. */
  ghost predicate KeepsGuests(w: World, w': World, gone: set<Digest>) {
    forall e, d :: Renewable(w, e, d) && d !in gone ==> Renewable(w', e, d) && NumberOf(w', e, d) == NumberOf(w, e, d)
  }

  /** A digest with an index is that of one guest, in one place. */
  lemma OnePlacePerDigest(w: World, v: Slot, e: Id)
    requires Inv(w) && HasSlot(w.store.entries, v.eventId, v.number)
    requires SlotNow(w.store.entries, v.eventId, v.number) == v && Renewable(w, e, v.digest)
    ensures e == v.eventId && NumberOf(w, e, v.digest) == v.number
  {
    LiveVersion(w, SlotKey(v.eventId, v.number));
    LiveVersion(w, SessionKey(v.digest));
  }

  /** Cleaning a slot takes nothing from anybody but its guest. */
  lemma CleaningKeepsOthers(w: World, w': World, v: Slot, q: nat, answer: Option<Answer>, problem: Option<Problem>)
    requires Inv(w) && HasSlot(w.store.entries, v.eventId, v.number)
    requires SlotNow(w.store.entries, v.eventId, v.number) == v && CleanedAlone(w, w', v, q, answer, problem)
    ensures KeepsGuests(w, w', {v.digest})
    ensures v.cleanup.Some? || Overdue(w, v) ==> KeepsGuests(w, w', {})
  {
    forall e, d | Renewable(w, e, d) && d != v.digest
      ensures Renewable(w', e, d) && NumberOf(w', e, d) == NumberOf(w, e, d)
    {
      assert SameAt(w.store, w'.store, SessionKey(d));
      assert SameAt(w.store, w'.store, SlotKey(e, NumberOf(w, e, d)));
    }
    forall e | Renewable(w, e, v.digest) ensures v.cleanup.None? && !Overdue(w, v) {
      OnePlacePerDigest(w, v, e);
    }
  }

  lemma CreatingKeeps(w: World, w': World, e: Id, n: nat)
    requires Vacant(w.store.entries, e, n) && SameExcept(w.store, w'.store, {SlotKey(e, n)}) && w'.clock == w.clock
    ensures KeepsGuests(w, w', {})
  {
    forall e', d | Renewable(w, e', d) ensures Renewable(w', e', d) && NumberOf(w', e', d) == NumberOf(w, e', d) {
      assert SameAt(w.store, w'.store, SessionKey(d));
      assert SameAt(w.store, w'.store, SlotKey(e', NumberOf(w, e', d)));
    }
  }

  lemma IndexingKeeps(w: World, w': World, c: Digest)
    requires SessionKey(c) !in w.store.entries && SameExcept(w.store, w'.store, {SessionKey(c)}) && w'.clock == w.clock
    ensures KeepsGuests(w, w', {})
  {
    forall e, d | Renewable(w, e, d) ensures Renewable(w', e, d) && NumberOf(w', e, d) == NumberOf(w, e, d) {
      assert SameAt(w.store, w'.store, SessionKey(d));
      assert SameAt(w.store, w'.store, SlotKey(e, NumberOf(w, e, d)));
    }
  }

  lemma CreateOutcome(at: World, r: nat, n: nat, now: Time, w: World, reply: Reply)
    requires Inv(at) && IsEvent(at.store.written, r) && (w, reply) == PerformCreateSlot(at, r, n, now)
    ensures var e := EventAt(at.store.written, r).id;
            var v := NewSlot(at, e, n, now);
            && (reply.Ok? <==> Vacant(at.store.entries, e, n))
            && (reply.Failed? ==> w == at)
            && at.drawn !in at.joins
            && (reply.Ok? ==>
                  && JoinedAs(w, v, r, Created) && HasSlot(w.store.entries, e, n) && SlotNow(w.store.entries, e, n) == v
                  && OnlyPlace(at, w, e, n) && SameExcept(at.store, w.store, {SlotKey(e, n)}))
  {
    Show(at);
    NextDrawIsNew(at.joins, at.store.written, at.drawn);
  }

  /** Guests that no longer hold the place when a new one takes it never will,
      so any of them that is ever minted is acknowledged. */
  lemma TakenOverFromErased(at: World, w: World, v: Slot)
    requires Inv(at) && Inv(w) && Since(at, w) && Vacant(at.store.entries, v.eventId, v.number)
    requires v.generation == at.drawn
    ensures PredecessorsErased(w, v)
  {
    ShowSince(at, w);
    forall x | Precedes(w, x, v) && x in w.minted ensures x in w.acked {
      MintTyped(w);
      assert IsIndexed(w.joins, x);
      JoinTyped(w, x.generation);
    }
  }

  /** A slot created by this join, at the time and place asked for. */
  predicate Took(w: World, ev: Event, r: nat, n: nat, now: Time, v: Slot) {
    && JoinedAs(w, v, r, Created) && v.eventId == ev.id && v.number == n && v.digest == Digest(v.generation + 1)
    && v.leaseExpiresAt == now + w.cfg.leaseTTL && v.graceExpiresAt == v.leaseExpiresAt + w.cfg.gracePeriod
    && v.lastSeenAt == now && !v.reserved && v.cleanup.None?
  }

  /** The moment `at` when the slot `v` was put into a vacant place. */
  ghost predicate TookFrom(w: World, at: World, w': World, v: Slot) {
    && Inv(at) && Since(w, at) && Since(at, w')
    && Vacant(at.store.entries, v.eventId, v.number) && v.generation == at.drawn
  }

  method CreateOnce(c: Cluster, ghost rely: Rely, ev: Event, r: nat, n: nat, now: Time, ghost d: Digest)
    returns (slot: Option<Slot>, ghost at: World)
    requires c.Valid() && IsEvent(c.w.store.written, r) && EventAt(c.w.store.written, r) == ev
    requires ev.state == Open && 1 <= n <= ev.capacity && now <= c.w.clock
    modifies c
    ensures c.Valid() && Since(old(c.w), c.w)
    ensures slot.Some? ==> Took(c.w, ev, r, n, now, slot.value) && TookFrom(old(c.w), at, c.w, slot.value)
    ensures rely.alone ==>
              && OnlyPlace(old(c.w), c.w, ev.id, n) && KeepsGuests(old(c.w), c.w, {})
              && (slot.Some? <==> Vacant(old(c.w).store.entries, ev.id, n))
    ensures rely.alone && slot.Some? ==>
              HasSlot(c.w.store.entries, ev.id, n) && SlotNow(c.w.store.entries, ev.id, n) == slot.value
    ensures rely.alone && slot.None? ==> c.w == old(c.w)
    ensures Since(old(c.w), at)
    ensures StepOf(at, d, Scanning(r, n, now)) ==
            (c.w, if slot.Some? then Joined(slot.value.generation) else Looking(r, n, now))
  {
    ghost var w0 := c.w;
    var reply, generation;
    reply, generation, at := c.CreateSlot(rely, r, n, now);
    SinceEvent(w0, c.w, r);
    SinceEvent(w0, at, r);
    CreateIsStep(at, d, r, n, now, c.w, reply);
    CreateOutcome(at, r, n, now, c.w, reply);
    if reply.Failed? {
      return None, at;
    }
    if rely.alone {
      CreatingKeeps(w0, c.w, ev.id, n);
    }
    slot := Some(Slot(ev.id, n, generation, Guest(ev.id, generation), Digest(generation + 1), false,
                      now + c.w.cfg.leaseTTL, now + c.w.cfg.leaseTTL + c.w.cfg.gracePeriod, now, None));
  }

  lemma CleanedInPlace(w: World, u: World, w': World, v: Slot, q: nat, answer: Option<Answer>,
                       problem: Option<Problem>)
    requires CleanedAlone(w, u, v, q, answer, problem) && OnlyPlace(u, w', v.eventId, v.number)
    ensures OnlyPlace(w, w', v.eventId, v.number)
  {
    forall k: Key | !k.SessionKey? && k != SlotKey(v.eventId, v.number) ensures SameAt(w.store, w'.store, k) {
      assert SameAt(w.store, u.store, k) && SameAt(u.store, w'.store, k);
    }
  }

  /** Create the slot, or clean the one in the way first and try once more. */
  method TakePlace(c: Cluster, ghost rely: Rely, ev: Event, r: nat, n: nat, now: Time, ghost d: Digest)
    returns (slot: Option<Slot>, ghost at: World, ghost trace: Trace, ghost answer: Option<Answer>)
    requires c.Valid() && IsEvent(c.w.store.written, r) && EventAt(c.w.store.written, r) == ev
    requires ev.state == Open && 1 <= n <= ev.capacity && now <= c.w.clock
    modifies c
    ensures c.Valid() && Since(old(c.w), c.w)
    ensures slot.Some? ==> Took(c.w, ev, r, n, now, slot.value) && TookFrom(old(c.w), at, c.w, slot.value)
    ensures rely.alone ==> TookAlone(old(c.w), c.w, ev, n, now, slot, answer)
    ensures rely.alone && now == old(c.w).clock ==> KeepsGuests(old(c.w), c.w, {})
    ensures Traced(old(c.w), Scanning(r, n, now), trace, d)
    ensures ComesTo(trace, c.w, if slot.Some? then Joined(slot.value.generation) else Scanning(r, n + 1, now))
  {
    ghost var w0 := c.w;
    answer := None;
    slot, at := CreateOnce(c, rely, ev, r, n, now, d);
    ghost var w1 := c.w;
    trace := OneStep(w0, Scanning(r, n, now), d, at);
    SinceSelf(w1);
    if slot.Some? {
      return;
    }
    var found := c.LoadSlot(rely, ev.id, n);
    SinceChain(w0, w1, c.w);
    SinceEvent(w0, c.w, r);
    trace := NextStep(w0, Scanning(r, n, now), trace, d, c.w);
    LookIsStep(c.w, d, r, n, now);
    SinceSelf(c.w);
    if rely.alone && SlotKey(ev.id, n) in w0.store.entries {
      LiveVersion(w0, SlotKey(ev.id, n));
    }
    if found.None? {
      return None, at, trace, answer;
    }
    var v, q := found.value.value, found.value.revision;
    if v.cleanup.None? && (v.reserved || now < v.graceExpiresAt) {
      return None, at, trace, answer;
    }
    ghost var w2 := c.w;
    SinceFacts(w0, w2);
    SinceEvent(w0, w2, r);
    var problem;
    ghost var ending;
    problem, answer, ending := CleanSlot(c, rely, v, q, if v.cleanup.Some? then Retry else Expired(r, now));
    SinceChain(w0, w2, c.w);
    if rely.alone {
      CleanedInPlace(w0, c.w, c.w, v, q, answer, problem);
      CleaningKeepsOthers(w0, c.w, v, q, answer, problem);
    }
    if problem.Some? {
      return None, at, trace, answer;
    }
    ghost var w3 := c.w;
    SinceFacts(w0, w3);
    SinceEvent(w0, w3, r);
    slot, at := CreateOnce(c, rely, ev, r, n, now, d);
    if slot.Some? {
      SinceChain(w0, w3, at);
    }
    SinceChain(w0, w3, c.w);
    SinceChain(w2, w3, c.w);
    SinceFacts(w3, c.w);
    if rely.alone {
      CleanedInPlace(w0, w3, c.w, v, q, answer, problem);
    }
  }

  /** With no other process running: a vacant place is taken, and one that can be
      cleared is if and only if the cleaner counts its guest as erased. */
  ghost predicate TookAlone(w: World, w': World, ev: Event, n: nat, now: Time, slot: Option<Slot>,
                            answer: Option<Answer>) {
    && OnlyPlace(w, w', ev.id, n) && SlotKey(ev.id, n) in w'.store.entries
    && (Vacant(w.store.entries, ev.id, n) ==> slot.Some?)
    && (now == w.clock ==>
          match slot
          case None =>
            && PassedOver(w, w', ev.id, n)
            && (if LeftAlone(SlotNow(w.store.entries, ev.id, n), now) then w' == w && answer.None?
                else answer.Some? && answer != Some(Count(1)))
          case Some(v) =>
            && MadeRoom(w, w', ev.id, n) && (Vacant(w.store.entries, ev.id, n) || answer == Some(Count(1)))
            && HasSlot(w'.store.entries, ev.id, n) && SlotNow(w'.store.entries, ev.id, n) == v)
  }

  /** The event is open and has room for slot `n`. */
  predicate Admits(entries: Entries, e: Id, n: nat) {
    HasEvent(entries, e) && EventNow(entries, e).state == Open && n <= EventNow(entries, e).capacity
  }

  lemma RecheckOutcome(at: World, g: Id, w: World, reply: Reply)
    requires g in at.joins && (w, reply) == PerformRecheck(at, g)
    ensures reply.Failed? ==> (reply.error == NotFound <==> !HasEvent(at.store.entries, at.joins[g].eventId))
    ensures var j := at.joins[g];
            && (reply.Ok? <==> Admits(at.store.entries, j.eventId, j.number))
            && w.joins == at.joins[g := j.(phase := if reply.Ok? then Cleared else Refused)]
            && w.store == at.store && w.clock == at.clock && w.cfg == at.cfg
  {
  }

  lemma IndexOutcome(at: World, g: Id, w: World, reply: Reply)
    requires Inv(at) && g in at.joins && at.joins[g].phase == Cleared && (w, reply) == PerformCreateIndex(at, g)
    ensures reply.Ok? && w.joins == at.joins[g := at.joins[g].(phase := Indexed)]
    ensures SameExcept(at.store, w.store, {SessionKey(at.joins[g].digest)}) && w.clock == at.clock && w.cfg == at.cfg
    ensures var j := at.joins[g];
            && SessionKey(j.digest) !in at.store.entries && SessionKey(j.digest) in w.store.entries
            && w.store.entries[SessionKey(j.digest)].value == SessionV(SessionIndex(j.eventId, j.number, false))
  {
    JoinTyped(at, g);
    var k := SessionKey(at.joins[g].digest);
    if k in at.store.entries {
      LiveVersion(at, k);
      assert false;
    }
  }

  lemma RollbackOutcome(at: World, g: Id, w: World, reply: Reply)
    requires g in at.joins && (w, reply) == PerformRollback(at, g)
    ensures var j := at.joins[g];
            w.joins == at.joins && !IsLive(w.store.entries, SlotKey(j.eventId, j.number), j.revision)
  {
  }

  /** Where a call that came back stands. */
  function Ended(result: Result<Slot>): Call {
    match result
    case Success(v) => Admitted(v.generation)
    case Failure(problem) => Call.TurnedAway(problem)
  }

  /** The event is read again, then the index written and the token minted.
      `seen` is the moment of that reading. A refused join leaves its slot behind
      only if a rival has changed it. */
  method FinishJoin(c: Cluster, ghost rely: Rely, v: Slot, ghost r: nat, ghost d: Digest)
    returns (result: Result<Slot>, ghost seen: World, ghost trace: Trace)
    requires c.Valid() && JoinedAs(c.w, v, r, Created) && JoinToken(v.generation) in rely.mine
    modifies c
    ensures c.Valid() && Since(old(c.w), c.w) && Since(old(c.w), seen)
    ensures result.Success? ==>
              && result.value == v && v.subject in c.w.minted && JoinedAs(c.w, v, r, Indexed)
              && Admits(seen.store.entries, v.eventId, v.number)
    ensures result.Failure? ==>
              && v.generation in c.w.joins && c.w.joins[v.generation].phase == Refused
              && !IsLive(c.w.store.entries, SlotKey(v.eventId, v.number), c.w.joins[v.generation].revision)
    ensures rely.alone && Admits(old(c.w).store.entries, v.eventId, v.number) ==>
              && result.Success? && SameExcept(old(c.w).store, c.w.store, {SessionKey(v.digest)})
              && c.w.clock == old(c.w).clock && c.w.cfg == old(c.w).cfg
              && HasIndex(c.w, v) && KeepsGuests(old(c.w), c.w, {})
    ensures result.Success? <==> Admits(seen.store.entries, v.eventId, v.number)
    ensures result.Failure? ==>
              result.problem == (if HasEvent(seen.store.entries, v.eventId) then AdmissionClosed else Missing)
    ensures Traced(old(c.w), Joined(v.generation), trace, d) && !trace.call.Cleaning?
    ensures ComesTo(trace, c.w, Ended(result))
  {
    ghost var w0 := c.w;
    var g := v.generation;
    var checked, at := c.Recheck(rely, g);
    seen := at;
    trace := OneStep(w0, Joined(g), d, at);
    RecheckIsStep(at, d, g, c.w, checked);
    RecheckOutcome(at, g, c.w, checked);
    ghost var w1 := c.w;
    if checked.Failed? {
      var undone, at' := c.Rollback(rely, g);
      RollbackOutcome(at', g, c.w, undone);
      SinceChain(w0, w1, c.w);
      trace := NextStep(w0, Joined(g), trace, d, at');
      UndoIsStep(at', d, g, if checked.error == NotFound then Missing else AdmissionClosed);
      SinceSelf(c.w);
      return Failure(if checked.error == NotFound then Missing else AdmissionClosed), seen, trace;
    }
    var indexed, at' := c.CreateIndex(rely, g);
    IndexOutcome(at', g, c.w, indexed);
    trace := NextStep(w0, Joined(g), trace, d, at');
    IndexIsStep(at', d, g);
    if indexed.Failed? {
      // A new digest has no index, so the rollback at
      // internal/access/service.go:327 is never needed.
      assert false;
    }
    SinceChain(w0, w1, c.w);
    ghost var w2 := c.w;
    ghost var at'' := c.Mint(rely, g);
    SinceChain(w0, w2, c.w);
    trace := NextStep(w0, Joined(g), trace, d, at'');
    MintIsStep(at'', d, g);
    SinceSelf(c.w);
    if rely.alone {
      IndexingKeeps(w0, c.w, v.digest);
    }
    return Success(v), seen, trace;
  }

  lemma PassedFrom(w: World, u: World, w': World, e: Id, n: nat)
    requires SameAt(w.store, u.store, SlotKey(e, n)) && u.clock == w.clock && w.drawn <= u.drawn
    requires PassedOver(u, w', e, n)
    ensures PassedOver(w, w', e, n)
  {
  }

  lemma PassedStays(w: World, u: World, w': World, e: Id, n: nat)
    requires PassedOver(w, u, e, n) && SameAt(u.store, w'.store, SlotKey(e, n))
    ensures PassedOver(w, w', e, n)
  {
  }

  lemma ScannedFurther(w: World, u: World, w': World, ev: Event, n: nat, now: Time, slot: Option<Slot>,
                       answer: Option<Answer>)
    requires 1 <= n && Scanned(w, u, ev, n - 1) && TookAlone(u, w', ev, n, now, slot, answer) && now == w.clock
    requires w.drawn <= u.drawn
    ensures slot.None? ==> Scanned(w, w', ev, n)
    ensures forall m: nat :: 1 <= m < n ==> PassedOver(w, w', ev.id, m)
    ensures slot.Some? ==>
              && MadeRoom(w, w', ev.id, n)
              && HasSlot(w'.store.entries, ev.id, n) && SlotNow(w'.store.entries, ev.id, n) == slot.value
    ensures SameAt(w.store, w'.store, EventKey(ev.id)) && w'.clock == w.clock && w'.cfg == w.cfg
  {
    assert SameAt(w.store, u.store, SlotKey(ev.id, n));
    assert SameAt(u.store, w'.store, EventKey(ev.id));
    forall m: nat | 1 <= m < n ensures PassedOver(w, w', ev.id, m) {
      assert SameAt(u.store, w'.store, SlotKey(ev.id, m));
      PassedStays(w, u, w', ev.id, m);
    }
    forall m: nat | n < m ensures SameAt(w.store, w'.store, SlotKey(ev.id, m)) {
      assert SameAt(w.store, u.store, SlotKey(ev.id, m)) && SameAt(u.store, w'.store, SlotKey(ev.id, m));
    }
    if slot.None? {
      PassedFrom(w, u, w', ev.id, n);
    }
  }

  lemma StillInPlace(w: World, u: World, w': World, ev: Event, v: Slot)
    requires SeatedAlone(w, u, ev, v) && SameExcept(u.store, w'.store, {SessionKey(v.digest)}) && u.acked <= w'.acked
    requires HasIndex(w', v) && w'.clock == u.clock && KeepsGuests(w, u, {}) && KeepsGuests(u, w', {})
    ensures AdmittedAlone(w, w', ev, v)
  {
    assert SameAt(u.store, w'.store, EventKey(ev.id));
    assert SameAt(u.store, w'.store, SlotKey(ev.id, v.number));
    forall m: nat | 1 <= m < v.number ensures PassedOver(w, w', ev.id, m) {
      assert SameAt(u.store, w'.store, SlotKey(ev.id, m));
      PassedStays(w, u, w', ev.id, m);
    }
  }

  lemma GotIn(w0: World, w1: World, at: World, w2: World, w: World, seen: World, v: Slot)
    requires Since(w0, w1) && TookFrom(w1, at, w2, v) && Since(w2, w) && Since(w2, seen) && Inv(w)
    ensures Since(w0, w) && Since(w0, seen) && PredecessorsErased(w, v) && v.generation !in w0.joins
  {
    SinceChain(w0, w1, at);
    SinceChain(w0, at, w2);
    SinceChain(w0, w2, w);
    SinceChain(w0, w2, seen);
    SinceChain(at, w2, w);
    TakenOverFromErased(at, w, v);
    NewGeneration(w0, at);
  }

  /** Slots in order, until one is taken. */
  method ScanSlots(c: Cluster, ghost rely: Rely, ev: Event, r: nat, now: Time, ghost d: Digest)
    returns (result: Result<Slot>, ghost seen: World, ghost trace: Trace)
    requires c.Valid() && IsEvent(c.w.store.written, r) && EventAt(c.w.store.written, r) == ev
    requires ev.state == Open && now <= c.w.clock
    modifies c
    ensures c.Valid() && Since(old(c.w), c.w) && Since(old(c.w), seen)
    ensures result.Success? ==> AdmittedAs(old(c.w), seen, c.w, result.value) && result.value.eventId == ev.id
    ensures rely.alone && now == old(c.w).clock
            && HasEvent(old(c.w).store.entries, ev.id) && EventNow(old(c.w).store.entries, ev.id) == ev ==>
              || (result.Success? && AdmittedAlone(old(c.w), c.w, ev, result.value))
              || (result == Failure(AtCapacity) && Scanned(old(c.w), c.w, ev, ev.capacity)
                  && KeepsGuests(old(c.w), c.w, {}))
    ensures Traced(old(c.w), Scanning(r, 1, now), trace, d) && ComesTo(trace, c.w, Ended(result))
  {
    ghost var w0 := c.w;
    seen, trace := w0, Start(w0, Scanning(r, 1, now));
    SinceSelf(w0);
    var number := 1;
    while number <= ev.capacity
      invariant 1 <= number <= ev.capacity + 1 && seen == w0
      invariant c.Valid() && Since(w0, c.w)
      invariant IsEvent(c.w.store.written, r) && EventAt(c.w.store.written, r) == ev && now <= c.w.clock
      invariant rely.alone && now == w0.clock ==> Scanned(w0, c.w, ev, number - 1) && KeepsGuests(w0, c.w, {})
      invariant Traced(w0, Scanning(r, 1, now), trace, d) && ComesTo(trace, c.w, Scanning(r, number, now))
    {
      ghost var w1 := c.w;
      var slot;
      ghost var at, more, answer;
      slot, at, more, answer := TakePlace(c, rely, ev, r, number, now, d);
      SinceFacts(w0, w1);
      SinceChain(w0, w1, c.w);
      trace := Further(w0, Scanning(r, 1, now), trace, w1, Scanning(r, number, now), more, d, c.w,
                       if slot.Some? then Joined(slot.value.generation) else Scanning(r, number + 1, now));
      SinceEvent(w1, c.w, r);
      SinceFacts(w1, c.w);
      if rely.alone && now == w0.clock {
        ScannedFurther(w0, w1, c.w, ev, number, now, slot, answer);
      }
      if slot.Some? {
        var v := slot.value;
        ghost var w2 := c.w;
        ghost var last: Trace;
        result, seen, last := FinishJoin(c, rely.(mine := rely.mine + {JoinToken(v.generation)}), v, r, d);
        trace := Further(w0, Scanning(r, 1, now), trace, w2, Joined(v.generation), last, d, c.w, Ended(result));
        SinceFacts(w2, c.w);
        if rely.alone && now == w0.clock && Admits(w2.store.entries, ev.id, number) {
          StillInPlace(w0, w2, c.w, ev, v);
        }
        GotIn(w0, w1, at, w2, c.w, seen, v);
        return;
      }
      number := number + 1;
    }
    SinceSelf(c.w);
    if !trace.call.Cleaning? {
      FullIsStep(c.w, d, r, number, now);
      trace := NextStep(w0, Scanning(r, 1, now), trace, d, c.w);
    }
    return Failure(AtCapacity), seen, trace;
  }

  lemma SinceJoins(w: World, w': World)
    requires Since(w, w')
    ensures forall g :: g in w.joins ==> g in w'.joins
  {
    ShowSince(w, w');
  }

  lemma NewGeneration(w: World, at: World)
    requires Since(w, at) && Inv(at)
    ensures at.drawn !in w.joins
  {
    ShowSince(w, at);
    Show(at);
    NextDrawIsNew(at.joins, at.store.written, at.drawn);
  }

  /** What a guest that gets in has, whoever else acts. */
  ghost predicate AdmittedAs(w: World, seen: World, w': World, v: Slot) {
    && v.subject in w'.minted && v.subject == Guest(v.eventId, v.generation)
    && v.generation !in w.joins && v.generation in w'.joins && w'.joins[v.generation].phase == Indexed
    && v.number >= 1 && Admits(seen.store.entries, v.eventId, v.number)
    && PredecessorsErased(w', v)
  }

  /** Why a join is turned away before any slot is tried. */
  function TurnedAway(w: World, d: Digest): Option<Problem> {
    if w.cfg.maxCapacity == 0 then Some(AdmissionClosed)
    else if InvitationKey(d) !in w.store.entries || !w.store.entries[InvitationKey(d)].value.InvitationV? then
      Some(Missing)
    else
      var e := w.store.entries[InvitationKey(d)].value.eventId;
      if !HasEvent(w.store.entries, e) then Some(Missing)
      else if EventNow(w.store.entries, e).state == Paused then Some(EventPaused)
      else if EventNow(w.store.entries, e).state != Open || EventNow(w.store.entries, e).capacity == 0 then
        Some(AdmissionClosed)
      else None
  }

  function InvitedTo(w: World, d: Digest): Event
    requires TurnedAway(w, d).None?
  {
    EventNow(w.store.entries, w.store.entries[InvitationKey(d)].value.eventId)
  }

  /** Slots `1..n` were passed over, and nothing beyond changed. */
  ghost predicate Scanned(w: World, w': World, ev: Event, n: nat) {
    && w'.clock == w.clock && w'.cfg == w.cfg
    && SameAt(w.store, w'.store, EventKey(ev.id))
    && (forall m: nat :: 1 <= m <= n ==> PassedOver(w, w', ev.id, m))
    && (forall m: nat :: n < m ==> SameAt(w.store, w'.store, SlotKey(ev.id, m)))
  }

  /** The new guest can renew, and whoever could before can still. */
  ghost predicate AdmittedAlone(w: World, w': World, ev: Event, v: Slot) {
    && SeatedAlone(w, w', ev, v) && HasIndex(w', v) && KeepsGuests(w, w', {})
  }

  /** The new guest is in the first place that was vacant or could be cleared;
      all below it were passed over. */
  ghost predicate SeatedAlone(w: World, w': World, ev: Event, v: Slot) {
    && w'.clock == w.clock && SameAt(w.store, w'.store, EventKey(ev.id))
    && v.eventId == ev.id && 1 <= v.number <= ev.capacity
    && MadeRoom(w, w', ev.id, v.number)
    && HasSlot(w'.store.entries, ev.id, v.number) && SlotNow(w'.store.entries, ev.id, v.number) == v
    && v.lastSeenAt == w.clock && v.leaseExpiresAt == w.clock + w.cfg.leaseTTL
    && v.graceExpiresAt == w.clock + w.cfg.leaseTTL + w.cfg.gracePeriod
    && !v.reserved && v.cleanup.None?
    && (forall m: nat :: 1 <= m < v.number ==> PassedOver(w, w', ev.id, m))
  }

  /** The event an invitation admits to, if it is open and has any room. */
  method FindEvent(c: Cluster, ghost rely: Rely, d: Digest)
    returns (result: Result<Versioned<Event>>, ghost invited: World, ghost trace: Trace)
    requires c.Valid()
    modifies c
    ensures c.Valid() && Since(old(c.w), c.w) && Since(old(c.w), invited)
    ensures result.Success? ==>
              var ev, r := result.value.value, result.value.revision;
              && Names(invited.store.entries, d, ev.id) && !StaysShut(old(c.w), rely, ev.id)
              && IsEvent(c.w.store.written, r) && EventAt(c.w.store.written, r) == ev && ev.state == Open
              && HasEvent(c.w.store.entries, ev.id) && EventNow(c.w.store.entries, ev.id) == ev
    ensures rely.alone ==>
              && c.w == old(c.w)
              && TurnedAway(c.w, d) == (if result.Failure? then Some(result.problem) else None)
              && (result.Success? ==> InvitedTo(c.w, d) == result.value.value)
    ensures Traced(old(c.w), Waiting, trace, d)
    ensures trace.end == c.w
    ensures trace.call == if result.Success? then Opened(result.value.revision) else Call.TurnedAway(result.problem)
  {
    ghost var w0 := c.w;
    invited := w0;
    SinceSelf(w0);
    if c.w.cfg.maxCapacity == 0 {
      trace := OneStep(w0, Waiting, d, w0);
      return Failure(AdmissionClosed), invited, trace;
    }
    var named := c.LoadInvitation(rely, d);
    invited := c.w;
    SinceFacts(w0, invited);
    trace := OneStep(w0, Waiting, d, invited);
    if named.None? {
      return Failure(Missing), invited, trace;
    }
    var found := c.LoadEvent(rely, named.value);
    SinceChain(w0, invited, c.w);
    trace := NextStep(w0, Waiting, trace, d, c.w);
    if StaysShut(w0, rely, named.value) {
      ShutStill(w0, invited, rely, named.value);
      ShutStill(invited, c.w, rely, named.value);
    }
    if found.None? {
      return Failure(Missing), invited, trace;
    }
    var ev := found.value.value;
    if ev.state == Paused {
      return Failure(EventPaused), invited, trace;
    }
    if ev.state != Open || ev.capacity == 0 {
      return Failure(AdmissionClosed), invited, trace;
    }
    return Success(found.value), invited, trace;
  }

  /** A join. Whoever else acts: a guest that gets in has a subject of its own,
      minted, in a slot the open event had room for after the slot was stored,
      and everyone minted there before is erased. With no other process running
      it is refused exactly when it should be, and takes the first place it can.
      None begun while the event is closed gets in, unless somebody opens it. */
  method StartSession(c: Cluster, ghost rely: Rely, d: Digest)
    returns (result: Result<Slot>, ghost seen: World, ghost invited: World, ghost trace: Trace)
    requires c.Valid()
    modifies c
    ensures c.Valid() && Since(old(c.w), c.w) && Since(old(c.w), seen)
    ensures Since(old(c.w), invited)
    ensures result.Success? ==>
              && AdmittedAs(old(c.w), seen, c.w, result.value)
              && Names(invited.store.entries, d, result.value.eventId)
              && !StaysShut(old(c.w), rely, result.value.eventId)
    ensures rely.alone && TurnedAway(old(c.w), d).Some? ==>
              result == Failure(TurnedAway(old(c.w), d).value) && c.w == old(c.w)
    ensures rely.alone && TurnedAway(old(c.w), d).None? ==>
              var ev := InvitedTo(old(c.w), d);
              || (result.Success? && AdmittedAlone(old(c.w), c.w, ev, result.value))
              || (result == Failure(AtCapacity) && Scanned(old(c.w), c.w, ev, ev.capacity)
                  && KeepsGuests(old(c.w), c.w, {}))
    ensures Traced(old(c.w), Waiting, trace, d) && ComesTo(trace, c.w, Ended(result))
  {
    ghost var w0 := c.w;
    var found;
    found, invited, trace := FindEvent(c, rely, d);
    seen := c.w;
    if found.Failure? {
      return Failure(found.problem), seen, invited, trace;
    }
    var ev, r := found.value.value, found.value.revision;
    ghost var w2 := c.w;
    var now := c.Now(rely);
    SinceChain(w0, w2, c.w);
    SinceEvent(w2, c.w, r);
    ghost var w3 := c.w;
    trace := ScanBegins(w0, Waiting, trace, d, w3, r);
    ghost var more: Trace;
    result, seen, more := ScanSlots(c, rely, ev, r, now, d);
    trace := Further(w0, Waiting, trace, w3, Scanning(r, 1, now), more, d, c.w, Ended(result));
    SinceChain(w0, w3, c.w);
    SinceChain(w0, w3, seen);
    SinceJoins(w0, w3);
  }

  /** Release a guest's slot. On success the guest was acknowledged and its
      place is empty, whoever else acts. */
  method ReleaseSlot(c: Cluster, ghost rely: Rely, e: Id, n: nat)
    returns (result: Result<Slot>, ghost answer: Option<Answer>)
    requires c.Valid()
    modifies c
    ensures c.Valid() && Since(old(c.w), c.w)
    ensures result.Success? ==>
              && result.value.eventId == e && result.value.number == n
              && result.value.subject in c.w.acked && Vacant(c.w.store.entries, e, n)
              && answer == Some(Count(1))
    ensures rely.alone && !HasEvent(old(c.w).store.entries, e) ==> result == Failure(Missing) && c.w == old(c.w)
    ensures rely.alone && HasEvent(old(c.w).store.entries, e) &&
            EventNow(old(c.w).store.entries, e).state == Deleting ==>
              result == Failure(Conflicting) && c.w == old(c.w)
    ensures rely.alone && HasEvent(old(c.w).store.entries, e) &&
            EventNow(old(c.w).store.entries, e).state != Deleting ==>
              if !HasSlot(old(c.w).store.entries, e, n) then result == Failure(StoreError(NotFound)) && c.w == old(c.w)
              else
                CleanedAlone(old(c.w), c.w, SlotNow(old(c.w).store.entries, e, n),
                             old(c.w).store.entries[SlotKey(e, n)].revision, answer,
                             if result.Success? then None else Some(result.problem))
    ensures rely.alone && HasSlot(old(c.w).store.entries, e, n) ==>
              KeepsGuests(old(c.w), c.w, {SlotNow(old(c.w).store.entries, e, n).digest})
  {
    ghost var w0 := c.w;
    var event := c.LoadEvent(rely, e);
    if event.None? {
      return Failure(Missing), None;
    }
    if event.value.value.state == Deleting {
      return Failure(Conflicting), None;
    }
    ghost var w1 := c.w;
    var slot := c.LoadSlot(rely, e, n);
    SinceChain(w0, w1, c.w);
    if slot.None? {
      return Failure(StoreError(NotFound)), None;
    }
    ghost var w2 := c.w;
    var problem;
    ghost var ending;
    problem, answer, ending := CleanSlot(c, rely, slot.value.value, slot.value.revision, Release);
    SinceChain(w0, w2, c.w);
    if rely.alone {
      CleaningKeepsOthers(w0, c.w, slot.value.value, slot.value.revision, answer, problem);
    }
    return if problem.None? then Success(slot.value.value) else Failure(problem.value), answer;
  }
}
