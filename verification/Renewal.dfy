/** Renewing a lease (internal/access/service.go:335-401), modelled as methods,
    while other processes interfere. */
module Renewal {
  import opened KvStore
  import opened Model
  import opened Protocol
  import opened Invariants
  import opened Preservation
  import opened Runs
  import opened Tenancy
  import opened Interference
  import opened ClusterApi
  import opened Cleanup

  /** A renewed slot, the version it was stored as, and the event it was read
      under. */
  datatype Lease = Lease(event: Event, slot: Slot, revision: nat)

  /** The index the holder of a secret presents is good, and the event open. */
  predicate CanRenew(w: World, d: Digest) {
    && SessionKey(d) in w.store.entries && w.store.entries[SessionKey(d)].value.SessionV?
    && var e := w.store.entries[SessionKey(d)].value.index.eventId;
       HasEvent(w.store.entries, e) && EventNow(w.store.entries, e).state == Open && Renewable(w, e, d)
  }

  /** What the holder of a secret that cannot be renewed is told. */
  function Refusal(w: World, d: Digest): Problem {
    if SessionKey(d) !in w.store.entries || !w.store.entries[SessionKey(d)].value.SessionV? then SessionExpired
    else
      var x := w.store.entries[SessionKey(d)].value.index;
      if x.deleted then EventDeleted
      else if !HasEvent(w.store.entries, x.eventId) then Missing
      else
        match EventNow(w.store.entries, x.eventId).state
        case Paused => EventPaused
        case Deleting => EventDeleted
        case Deleted => EventDeleted
        case Draft => AdmissionClosed
        case Open => SessionExpired
  }

  function RenewedSlot(v: Slot, cfg: Config, now: Time): Slot {
    v.(lastSeenAt := now, reserved := false, leaseExpiresAt := now + cfg.leaseTTL,
       graceExpiresAt := now + cfg.leaseTTL + cfg.gracePeriod)
  }

  /** Only the slot of the renewed lease has changed: it was seen now, has a full
      term from now, and is no longer reserved. */
  ghost predicate RenewedAlone(w: World, w': World, lease: Lease) {
    var v := lease.slot;
    && HasSlot(w.store.entries, v.eventId, v.number) && HasSlot(w'.store.entries, v.eventId, v.number)
    && v.lastSeenAt == w.clock && !v.reserved
    && v.leaseExpiresAt == w.clock + w.cfg.leaseTTL
    && v.graceExpiresAt == w.clock + w.cfg.leaseTTL + w.cfg.gracePeriod
    && v == SlotNow(w.store.entries, v.eventId, v.number).(
              lastSeenAt := v.lastSeenAt, reserved := v.reserved,
              leaseExpiresAt := v.leaseExpiresAt, graceExpiresAt := v.graceExpiresAt)
    && SlotNow(w'.store.entries, v.eventId, v.number) == v
    && SameExcept(w.store, w'.store, {SlotKey(v.eventId, v.number)})
    && w'.clock == w.clock && w'.minted == w.minted
  }

  /** What a lease promises its holder, whoever else acts: the guest the secret
      was issued to, a full term from now, and a version that was really stored. */
  predicate LeaseOk(w: World, d: Digest, lease: Lease) {
    var v := lease.slot;
    && lease.revision in w.renewals && IsSlot(w.store.written, lease.revision)
    && SlotAt(w.store.written, lease.revision) == v
    && v.digest == d && d.secret >= 1 && v.subject == Guest(v.eventId, d.secret - 1)
    && lease.event.state == Open && lease.event.id == v.eventId
    && v.cleanup.None? && !v.reserved && v.lastSeenAt <= w.clock
    && v.leaseExpiresAt == v.lastSeenAt + w.cfg.leaseTTL && v.graceExpiresAt == v.leaseExpiresAt + w.cfg.gracePeriod
  }

  lemma RenewOutcome(at: World, r: nat, index: nat, event: nat, now: Time, ev: Event, w: World, reply: Reply)
    requires Inv(at) && IsSlot(at.store.written, r) && SlotChangeAllowed(at, r, Renew(index, event, now))
    requires EventAt(at.store.written, event) == ev
    requires (w, reply) == PerformUpdateSlot(at, r, Renew(index, event, now)) && reply.Ok?
    ensures var v := SlotAt(at.store.written, r);
            var v' := RenewedSlot(v, at.cfg, now);
            && LeaseOk(w, v.digest, Lease(ev, v', reply.revision))
            && HasSlot(w.store.entries, v.eventId, v.number) && SlotNow(w.store.entries, v.eventId, v.number) == v'
            && w.minted == at.minted
  {
    WriteTyped(at, r);
  }

  /** A place kept for the holder of `d` under an event that is open and stays
      so, in a slot that nobody else writes meanwhile. */
  predicate Resumable(w: World, d: Digest, rely: Rely) {
    && SessionKey(d) in w.store.entries && w.store.entries[SessionKey(d)].value.SessionV?
    && var x := w.store.entries[SessionKey(d)].value.index;
       && Kept(w, x.eventId, x.slot) && SlotNow(w.store.entries, x.eventId, x.slot).digest == d
       && OpenNow(w.store.entries, x.eventId) && rely.open == Some(x.eventId)
       && SlotKey(x.eventId, x.slot) in rely.keeps
  }

  /** The lease is for the guest that held the slot before. */
  predicate SameGuest(w: World, lease: Lease) {
    && HasSlot(w.store.entries, lease.slot.eventId, lease.slot.number)
    && SlotNow(w.store.entries, lease.slot.eventId, lease.slot.number).subject == lease.slot.subject
  }

  /** Whatever rivals do with the event's capacity, its invitation or any other
      slot, the place is still to be resumed, by the same secret. */
  lemma ResumableStill(w: World, w': World, rely: Rely, d: Digest)
    requires Meanwhile(w, w', rely) && Resumable(w, d, rely)
    ensures Resumable(w', d, rely)
    ensures w'.store.entries[SessionKey(d)].value == w.store.entries[SessionKey(d)].value
    ensures var x := w.store.entries[SessionKey(d)].value.index;
            SameAt(w.store, w'.store, SlotKey(x.eventId, x.slot))
  {
    var x := w.store.entries[SessionKey(d)].value.index;
    ShowMeanwhile(w, w', rely);
    MeanwhileKept(w, w', rely, SlotKey(x.eventId, x.slot));
    assert Kept(w', x.eventId, x.slot);
  }

  /** The index version `q` of secret `d`, as it was read and never a tombstone. */
  predicate IndexRead(w: World, d: Digest, x: SessionIndex, q: nat) {
    q in w.store.written && w.store.written[q] == Write(SessionKey(d), SessionV(x)) && !x.deleted
  }

  /** What the holder of a secret is told when its event is read as not open. */
  predicate TurnedBack(problem: Problem) {
    problem == Missing || problem == EventPaused || problem == EventDeleted || problem == AdmissionClosed
  }

  /** How that is said. */
  function WhyShut(s: EventState): (problem: Problem)
    requires s != Open
    ensures TurnedBack(problem)
  {
    if s == Paused then EventPaused else if s == Deleting || s == Deleted then EventDeleted else AdmissionClosed
  }

  /** One attempt; `None` when another writer won the slot meanwhile. Begun while
      the event is closed, and nobody opens it, it is turned back. */
  method TryRenew(c: Cluster, ghost rely: Rely, d: Digest, x: SessionIndex, q: nat)
    returns (result: Option<Result<Lease>>, ghost race: Race)
    requires c.Valid() && IndexRead(c.w, d, x, q)
    modifies c
    ensures c.Valid() && Since(old(c.w), c.w)
    ensures result.Some? && result.value.Success? ==>
              && LeaseOk(c.w, d, result.value.value) && result.value.value.slot.eventId == x.eventId
              && old(c.w).clock <= result.value.value.slot.lastSeenAt
    ensures result.None? ==> Since(old(c.w), race.at) && Lost(race, SlotKey(x.eventId, x.slot))
    ensures result.Some? && result.value.Failure? && result.value.problem.StoreError? ==>
              result.value.problem == StoreError(NotFound)
    ensures result != Some(Failure(Conflicting))
    ensures StaysShut(old(c.w), rely, x.eventId) ==>
              result.Some? && result.value.Failure? && TurnedBack(result.value.problem)
    ensures rely.alone && IsLive(old(c.w).store.entries, SessionKey(d), q) ==>
              && result.Some? && (result.value.Success? <==> CanRenew(old(c.w), d))
              && (result.value.Success? ==> RenewedAlone(old(c.w), c.w, result.value.value))
              && (result.value.Failure? ==> result.value.problem == Refusal(old(c.w), d) && c.w == old(c.w))
    ensures IsLive(old(c.w).store.entries, SessionKey(d), q) && Resumable(old(c.w), d, rely) ==>
              && result.Some? && result.value.Success? && SameGuest(old(c.w), result.value.value)
              && result.value.value.slot.eventId == x.eventId && result.value.value.slot.number == x.slot
  {
    ghost var w0 := c.w;
    race := Race(w0, 0);
    ghost var kept := IsLive(w0.store.entries, SessionKey(d), q) && Resumable(w0, d, rely);
    if IsLive(w0.store.entries, SessionKey(d), q) {
      LiveVersion(w0, SessionKey(d));
    }
    var event := c.LoadEvent(rely, x.eventId);
    if kept {
      ResumableStill(w0, c.w, rely, d);
    }
    if StaysShut(w0, rely, x.eventId) {
      ShutStill(w0, c.w, rely, x.eventId);
    }
    if event.None? {
      return Some(Failure(Missing)), race;
    }
    var ev := event.value.value;
    if ev.state != Open {
      return Some(Failure(WhyShut(ev.state))), race;
    }
    ghost var w1 := c.w;
    var found := c.LoadSlot(rely, x.eventId, x.slot);
    SinceChain(w0, w1, c.w);
    if kept {
      ResumableStill(w1, c.w, rely, d);
    }
    if found.None? || found.value.value.digest != d {
      return Some(Failure(SessionExpired)), race;
    }
    var v, r := found.value.value, found.value.revision;
    ghost var w2 := c.w;
    SinceWritten(w0, w2, q);
    SinceEvent(w1, w2, event.value.revision);
    result, race := RenewFound(c, rely, q, event.value.revision, ev, v, r);
    SinceChain(w0, w2, c.w);
    SinceFacts(w0, w2);
    if result.None? {
      SinceChain(w0, w2, race.at);
    }
  }

  /** The rest of an attempt, from the slot version read. */
  method RenewFound(c: Cluster, ghost rely: Rely, q: nat, er: nat, ev: Event, v: Slot, r: nat)
    returns (result: Option<Result<Lease>>, ghost race: Race)
    requires c.Valid() && IsSlot(c.w.store.written, r) && SlotAt(c.w.store.written, r) == v
    requires IsEvent(c.w.store.written, er) && EventAt(c.w.store.written, er) == ev
    requires ev.id == v.eventId && ev.state == Open
    requires IndexRead(c.w, v.digest, SessionIndex(v.eventId, v.number, false), q)
    modifies c
    ensures c.Valid() && Since(old(c.w), c.w)
    ensures result.Some? && result.value.Success? ==>
              && LeaseOk(c.w, v.digest, result.value.value) && old(c.w).clock <= result.value.value.slot.lastSeenAt
              && result.value.value.slot.eventId == v.eventId && result.value.value.slot.number == v.number
    ensures result.None? ==> Since(old(c.w), race.at) && Lost(race, SlotKey(v.eventId, v.number))
    ensures result.Some? && result.value.Failure? ==>
              result.value.problem == SessionExpired || result.value.problem == StoreError(NotFound)
    ensures (rely.alone || SlotKey(v.eventId, v.number) in rely.keeps)
            && IsLive(old(c.w).store.entries, SlotKey(v.eventId, v.number), r) ==>
              && result.Some?
              && (rely.alone ==> (result.value.Success? <==> v.cleanup.None? && !Overdue(old(c.w), v)))
              && (v.cleanup.None? && v.reserved ==> result.value.Success?)
              && (rely.alone && result.value.Success? ==> RenewedAlone(old(c.w), c.w, result.value.value))
              && (rely.alone && result.value.Failure? ==>
                    result.value.problem == SessionExpired && c.w == old(c.w))
  {
    ghost var w0 := c.w;
    race := Race(w0, 0);
    if IsLive(w0.store.entries, SlotKey(v.eventId, v.number), r) {
      LiveVersion(w0, SlotKey(v.eventId, v.number));
    }
    var now := c.Now(rely);
    if v.cleanup.Some? || (!v.reserved && v.graceExpiresAt <= now) {
      return Some(Failure(SessionExpired)), race;
    }
    ghost var w1 := c.w;
    SinceFacts(w0, w1);
    if SlotKey(v.eventId, v.number) in rely.keeps {
      MeanwhileKept(w0, w1, rely, SlotKey(v.eventId, v.number));
    }
    SinceWritten(w0, w1, q);
    SinceEvent(w0, w1, er);
    SinceSlot(w0, w1, r);
    var reply, lost := StoreRenewal(c, rely, v, r, Renew(q, er, now), ev);
    SinceChain(w0, w1, c.w);
    if reply.Ok? {
      return Some(Success(Lease(ev, RenewedSlot(v, c.w.cfg, now), reply.revision))), race;
    }
    if reply.error == Conflict {
      SinceChain(w0, w1, lost.at);
      return None, lost;
    }
    return Some(Failure(StoreError(reply.error))), race;
  }

  method StoreRenewal(c: Cluster, ghost rely: Rely, ghost v: Slot, r: nat, change: SlotChange, ghost ev: Event)
    returns (reply: Reply, ghost race: Race)
    requires c.Valid() && IsSlot(c.w.store.written, r) && SlotAt(c.w.store.written, r) == v
    requires change.Renew? && SlotChangeAllowed(c.w, r, change) && EventAt(c.w.store.written, change.event) == ev
    modifies c
    ensures c.Valid() && Since(old(c.w), c.w)
    ensures reply.Failed? ==> reply.error == Conflict || reply.error == NotFound
    ensures reply == Failed(Conflict) ==> Since(old(c.w), race.at) && Lost(race, SlotKey(v.eventId, v.number))
    ensures reply.Ok? ==> LeaseOk(c.w, v.digest, Lease(ev, RenewedSlot(v, c.w.cfg, change.now), reply.revision))
    ensures rely.alone || SlotKey(v.eventId, v.number) in rely.keeps ==>
              (reply.Ok? <==> IsLive(old(c.w).store.entries, SlotKey(v.eventId, v.number), r))
    ensures rely.alone && reply.Ok? ==>
              && HasSlot(c.w.store.entries, v.eventId, v.number)
              && SlotNow(c.w.store.entries, v.eventId, v.number) == RenewedSlot(v, c.w.cfg, change.now)
              && SameExcept(old(c.w).store, c.w.store, {SlotKey(v.eventId, v.number)})
              && c.w.clock == old(c.w).clock && c.w.minted == old(c.w).minted && c.w.cfg == old(c.w).cfg
    ensures rely.alone && reply.Failed? ==> c.w == old(c.w)
  {
    ghost var w0 := c.w;
    ghost var at: World;
    reply, at := c.UpdateSlot(rely, r, change);
    race := Race(at, r);
    SinceSlot(w0, at, r);
    WriteTyped(at, r);
    if SlotKey(v.eventId, v.number) in rely.keeps {
      MeanwhileKept(w0, at, rely, SlotKey(v.eventId, v.number));
    }
    SinceEvent(w0, c.w, change.event);
    SlotUpdateOutcome(at, r, change, c.w, reply);
    if reply.Ok? {
      RenewOutcome(at, r, change.index, change.event, change.now, ev, c.w, reply);
    }
  }

  /** Up to five attempts. With no other process running, a renewal succeeds
      exactly when the secret is renewable and its event open, keeps the guest
      and the slot, and changes nothing but the slot's times and its flag.
      Whoever else acts, none begun while its event is closed succeeds, unless
      somebody opens the event. `place` is the slot's key and `races` are the
      compare-and-swaps lost there: giving up means five of them. */
  method RenewLease(c: Cluster, ghost rely: Rely, d: Digest)
    returns (result: Result<Lease>, ghost place: Key, ghost races: seq<Race>)
    requires c.Valid()
    modifies c
    ensures c.Valid() && Since(old(c.w), c.w)
    ensures result.Success? ==> LeaseOk(c.w, d, result.value) && old(c.w).clock <= result.value.slot.lastSeenAt
    ensures AllLost(old(c.w), races, place)
    ensures result == Failure(Conflicting) ==> |races| == 5
    ensures result.Failure? && result.problem.StoreError? ==> result.problem == StoreError(NotFound)
    ensures rely.alone ==> (result.Success? <==> CanRenew(old(c.w), d))
    ensures rely.alone && result.Success? ==> RenewedAlone(old(c.w), c.w, result.value)
    ensures rely.alone && result.Failure? ==> result.problem == Refusal(old(c.w), d) && c.w == old(c.w)
    ensures Resumable(old(c.w), d, rely) ==> result.Success? && SameGuest(old(c.w), result.value)
    ensures result.Success? ==> !StaysShut(old(c.w), rely, result.value.slot.eventId)
  {
    ghost var w0 := c.w;
    place, races := SessionKey(d), [];
    var index := c.LoadIndex(rely, d);
    if Resumable(w0, d, rely) {
      ResumableStill(w0, c.w, rely, d);
    }
    if rely.quiet.Some? && StaysShut(w0, rely, rely.quiet.value) {
      ShutStill(w0, c.w, rely, rely.quiet.value);
    }
    if index.None? {
      return Failure(SessionExpired), place, races;
    }
    if index.value.value.deleted {
      return Failure(EventDeleted), place, races;
    }
    ghost var w1 := c.w;
    place := SlotKey(index.value.value.eventId, index.value.value.slot);
    var attempt := 0;
    while attempt < 5
      invariant c.Valid() && Since(w0, c.w) && IndexRead(c.w, d, index.value.value, index.value.revision)
      invariant attempt == |races| <= 5 && AllLost(w0, races, place)
      invariant rely.alone ==> attempt == 0 && c.w == w0
      invariant attempt == 0 ==> c.w == w1
      invariant Resumable(w0, d, rely) ==> attempt == 0
      invariant StaysShut(w0, rely, index.value.value.eventId) ==> attempt == 0
    {
      ghost var w2 := c.w;
      var tried, race := TryRenew(c, rely, d, index.value.value, index.value.revision);
      SinceChain(w0, w2, c.w);
      SinceFacts(w0, w2);
      if tried.Some? {
        return tried.value, place, races;
      }
      SinceWritten(w2, c.w, index.value.revision);
      SinceChain(w0, w2, race.at);
      races := races + [race];
      attempt := attempt + 1;
    }
    return Failure(Conflicting), place, races;
  }

  lemma LeaseStays(w: World, w': World, d: Digest, lease: Lease)
    requires Since(w, w') && LeaseOk(w, d, lease)
    ensures LeaseOk(w', d, lease)
  {
    SinceFacts(w, w');
    SinceSlot(w, w', lease.revision);
  }

  /** A renewal followed by a token for the guest it renewed. */
  method RenewSession(c: Cluster, ghost rely: Rely, d: Digest) returns (result: Result<Lease>)
    requires c.Valid()
    modifies c
    ensures c.Valid() && Since(old(c.w), c.w)
    ensures result.Success? ==>
              && LeaseOk(c.w, d, result.value) && result.value.slot.subject in c.w.minted
              && old(c.w).clock <= result.value.slot.lastSeenAt
    ensures rely.alone ==> (result.Success? <==> CanRenew(old(c.w), d))
    ensures rely.alone && result.Failure? ==> result.problem == Refusal(old(c.w), d) && c.w == old(c.w)
    ensures rely.alone && result.Success? ==> SameGuest(old(c.w), result.value) && c.w.clock == old(c.w).clock
    ensures Resumable(old(c.w), d, rely) ==> result.Success? && SameGuest(old(c.w), result.value)
    ensures result.Success? ==> !StaysShut(old(c.w), rely, result.value.slot.eventId)
  {
    ghost var w0 := c.w;
    ghost var place, races;
    result, place, races := RenewLease(c, rely, d);
    if result.Success? {
      ghost var w1 := c.w;
      ghost var _ := c.MintRenewed(rely, result.value.revision);
      LeaseStays(w1, c.w, d, result.value);
      SinceChain(w0, w1, c.w);
    }
  }

  /** Pause and resume: a place kept reserved through any such run is renewable
      once the event is open again, by its own holder and nobody else. */
  lemma KeptPlaceCanBeRenewed(w: World, run: seq<Action>, e: Id, n: nat)
    requires Reachable(w) && Kept(w, e, n) && RunLeavesAlone(w, run, e, n)
    requires e !in Exec(w, run).doomed
    requires HasEvent(Exec(w, run).store.entries, e) && EventNow(Exec(w, run).store.entries, e).state == Open
    ensures var u := Exec(w, run);
            var v := SlotNow(w.store.entries, e, n);
            && HasSlot(u.store.entries, e, n) && SlotNow(u.store.entries, e, n) == v
            && CanRenew(u, v.digest) && Renewable(u, e, v.digest) && NumberOf(u, e, v.digest) == n
            && (forall d :: Renewable(u, e, d) && NumberOf(u, e, d) == n ==> d == v.digest)
  {
    ReservedPlaceIsKept(w, run, e, n);
    ReachableExec(w, run);
    InvHolds(Exec(w, run));
    LiveVersion(Exec(w, run), SlotKey(e, n));
  }
}
