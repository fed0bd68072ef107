/** Cleaning one slot (internal/access/recovery.go:34-80), modelled as
    methods, while other processes interfere. */
module Cleanup {
  import opened KvStore
  import opened Model
  import opened Protocol
  import opened Invariants
  import opened Backoff
  import opened Frames
  import opened Runs
  import opened Interference
  import opened ClusterApi

  /** Why an operation came back without doing what was asked. `CleanupFailed`
      says whether the failure could be saved in the intent; `Interrupted` that
      the request ended first. */
  datatype Problem =
    | StoreError(error: Error)
    | StoreUnavailable
    | CleanupPending
    | CleanupFailed(saved: bool)
    | Missing
    | SessionExpired
    | EventDeleted
    | EventPaused
    | AdmissionClosed
    | AtCapacity
    | Conflicting
    | Interrupted

  datatype Result<+T> = Success(value: T) | Failure(problem: Problem)

  /** The version `r` is what the store holds now. */
  predicate IsLive(entries: Entries, k: Key, r: nat) {
    k in entries && entries[k].revision == r
  }

  /** A compare-and-swap on version `revision`, made at the moment `at`. */
  datatype Race = Race(at: World, revision: nat)

  /** Another writer had been there: the version is not the one stored. */
  predicate Lost(x: Race, k: Key) {
    && k in x.at.store.entries && x.at.store.entries[k].revision != x.revision
    && x.revision in x.at.store.written && x.at.store.written[x.revision].key == k
  }

  ghost predicate AllLost(w: World, races: seq<Race>, k: Key) {
    forall i :: 0 <= i < |races| ==> Since(w, races[i].at) && Lost(races[i], k)
  }

  lemma RaceLost(w: World, u: World, at: World, r: nat, k: Key, races: seq<Race>)
    requires Since(w, u) && Since(u, at) && r in u.store.written && u.store.written[r].key == k
    requires k in at.store.entries && !IsLive(at.store.entries, k, r) && AllLost(w, races, k)
    ensures AllLost(w, races + [Race(at, r)], k)
  {
    SinceWritten(u, at, r);
    SinceChain(w, u, at);
  }

  /** The reason a caller has for claiming the slot version it holds. */
  predicate MayClaim(w: World, v: Slot, why: Why) {
    match why
    case Expired(event, seenAt) =>
      && IsOpenEvent(w.store.written, event, v.eventId)
      && v.cleanup.None? && !v.reserved && v.graceExpiresAt <= seenAt <= w.clock
    case Retry => v.cleanup.Some?
    case Release => true
  }

  lemma MayStillClaim(w: World, w': World, v: Slot, why: Why)
    requires Since(w, w') && MayClaim(w, v, why)
    ensures MayClaim(w', v, why)
  {
    SinceFacts(w, w');
    if why.Expired? {
      SinceEvent(w, w', why.event);
    }
  }

  /** A stored claim: its work has begun and the version says who is cleaned. */
  predicate ClaimStored(w: World, rc: nat, v: Slot) {
    && rc in w.work && w.work[rc] == Claimed
    && IsSlot(w.store.written, rc) && SlotAt(w.store.written, rc) == v
    && IsLive(w.store.entries, SlotKey(v.eventId, v.number), rc)
  }

  lemma SlotUpdateOutcome(at: World, r: nat, c: SlotChange, w: World, reply: Reply)
    requires IsSlot(at.store.written, r) && SlotChangeAllowed(at, r, c) && (w, reply) == PerformUpdateSlot(at, r, c)
    ensures var v := SlotAt(at.store.written, r);
            var v' := ChangedSlot(at, r, c);
            && (reply.Ok? <==> IsLive(at.store.entries, SlotKey(v.eventId, v.number), r))
            && (reply == Failed(NotFound) <==> SlotKey(v.eventId, v.number) !in at.store.entries)
            && (reply.Failed? ==> w == at && reply.error != Exists)
            && (reply.Ok? ==>
                  && SlotKey(v.eventId, v.number) in w.store.entries
                  && w.store.entries[SlotKey(v.eventId, v.number)] == Entry(SlotV(v'), reply.revision)
                  && (c.Claim? ==> ClaimStored(w, reply.revision, v')))
            && SameExcept(at.store, w.store, {SlotKey(v.eventId, v.number)})
            && w.clock == at.clock && w.acked == at.acked && w.cfg == at.cfg
  {
  }

  lemma EventUpdateOutcome(at: World, r: nat, c: EventChange, w: World, reply: Reply)
    requires IsEvent(at.store.written, r) && EventChangeAllowed(at, r, c) && !c.Rotate?
    requires (w, reply) == PerformUpdateEvent(at, r, c)
    ensures var k := EventKey(EventAt(at.store.written, r).id);
            var ev := ChangedEvent(at, r, c);
            && (reply.Ok? <==> IsLive(at.store.entries, k, r))
            && (reply == Failed(NotFound) <==> k !in at.store.entries)
            && (reply.Failed? ==> w == at && reply.error != Exists)
            && (reply.Ok? ==>
                  && k in w.store.entries && w.store.entries[k] == Entry(EventV(ev), reply.revision)
                  && IsEvent(w.store.written, reply.revision) && EventAt(w.store.written, reply.revision) == ev
                  && (c.ClaimEvent? ==> reply.revision in w.work && w.work[reply.revision] == Claimed))
            && SameExcept(at.store, w.store, {k})
            && w.clock == at.clock && w.acked == at.acked && w.cfg == at.cfg
            && (c.SetState? || c.SetCapacity? ==> w == at.(store := w.store))
  {
  }

  lemma ClaimKept(w: World, w': World, rely: Rely, rc: nat)
    requires Meanwhile(w, w', rely) && ClaimToken(rc) in rely.mine && rc in w.work
    ensures rc in w'.work && w'.work[rc] == w.work[rc]
  {
    ShowMeanwhile(w, w', rely);
  }

  /** The one call a claim makes. The cleaner answers an error or a count, and
      only the full count is an acknowledgement. */
  method CallCleaner(c: Cluster, ghost rely: Rely, rc: nat) returns (complete: bool, answer: Answer)
    requires c.Valid() && rc in c.w.work && ClaimToken(rc) in rely.mine
    requires (c.w.work[rc] == Claimed && IsSlot(c.w.store.written, rc)) ||
             (c.w.work[rc].Listing? && c.w.work[rc].todo == {})
    modifies c
    ensures c.Valid() && Since(old(c.w), c.w)
    ensures complete <==> answer == Count(|CallOf(old(c.w), rc).subjects|)
    ensures var subjects := CallOf(old(c.w), rc).subjects;
            && rc in c.w.work
            && (if complete then c.w.work[rc] == Complete(subjects)
                else c.w.work[rc].Incomplete? && c.w.work[rc].endedAt <= c.w.clock)
            && (complete ==> subjects <= c.w.acked)
            && (rely.alone ==>
                  c.w.store == old(c.w).store && c.w.clock == old(c.w).clock && c.w.cfg == old(c.w).cfg &&
                  c.w.acked == if complete then old(c.w).acked + subjects else old(c.w).acked)
  {
    ghost var w0 := c.w;
    ghost var at := c.StartCall(rely, rc);
    if w0.work[rc] == Claimed {
      ShowMeanwhile(w0, at, rely);
    }
    ghost var w1 := c.w;
    var asked := |c.w.work[rc].subjects|;
    ghost var at': World;
    answer, at' := c.EndCall(rely, rc);
    SinceChain(w0, w1, c.w);
    complete := answer.Count? && answer.n == asked;
  }

  /** Whom the cleaner acknowledges, over every action: exactly those a call
      asked for, and only on an answer that counts them all. */
  lemma AckedExactlyOnFullCount(w: World, a: Action, x: Guest)
    requires Enabled(w, a) && x !in w.acked
    ensures x in Perform(w, a).0.acked <==>
            && a.EndCall? && a.answer.Count? && a.answer.n == |w.work[a.claim].subjects|
            && x in w.work[a.claim].subjects
  {
    if !a.EndCall? {
      LeavesAcked(w, a);
    }
  }

  /** The intent is due only later. */
  predicate IsPending(intent: Option<Progress>, now: Time) {
    intent.Some? && now < intent.value.nextAttemptAt
  }

  /** The intent `after` an attempt at `now` that failed: the same one, or else
      one under the ID `drawn`; one attempt more, and due again after its delay. */
  predicate FailedAttempt(before: Option<Progress>, drawn: Id, now: Time, after: Option<Progress>) {
    after.Some? &&
    var p := after.value;
    && p.failed && p.nextAttemptAt == now + DelaySeconds(p.attempts)
    && (match before
        case Some(q) => p.id == q.id && p.attempts == q.attempts + 1 && p.startedAt == q.startedAt
        case None => p.id == drawn && p.attempts == 1 && p.startedAt == now)
  }

  /** The slot is as `v` but for its intent, which has failed an attempt now. */
  predicate AttemptFailed(w: World, w': World, v: Slot) {
    && HasSlot(w'.store.entries, v.eventId, v.number)
    && var v' := SlotNow(w'.store.entries, v.eventId, v.number);
       v' == v.(cleanup := v'.cleanup) && FailedAttempt(v.cleanup, w.drawn, w.clock, v'.cleanup)
  }

  /** What cleaning the version `r` of a slot comes to when no other process
      runs; `answer` is the cleaner's, if it was called. */
  ghost predicate CleanedAlone(w: World, w': World, v: Slot, r: nat, answer: Option<Answer>, problem: Option<Problem>) {
    var k := SlotKey(v.eventId, v.number);
    && w'.clock == w.clock && w'.cfg == w.cfg
    && SameExcept(w.store, w'.store, {k, SessionKey(v.digest)})
    && (if IsPending(v.cleanup, w.clock) then
          problem == Some(CleanupPending) && answer.None? && w' == w
        else if !IsLive(w.store.entries, k, r) then
          problem.Some? && problem.value.StoreError? && answer.None? && w' == w
        else if answer == Some(Count(1)) then
          && problem.None? && k !in w'.store.entries && SessionKey(v.digest) !in w'.store.entries
          && w'.acked == w.acked + {v.subject}
        else
          && answer.Some? && problem == Some(CleanupFailed(true)) && w'.acked == w.acked
          && SameExcept(w.store, w'.store, {k}) && AttemptFailed(w, w', v))
  }

  lemma ClaimedSlot(w: World, r: nat, why: Why, now: Time)
    requires IsSlot(w.store.written, r) && SlotChangeAllowed(w, r, Claim(why, now))
    ensures var v := SlotAt(w.store.written, r);
            var claimed := ClaimCleanup(v.cleanup, w.drawn, now, w.cfg.cleanupLease);
            claimed.Some? && ChangedSlot(w, r, Claim(why, now)) == v.(cleanup := claimed)
  {
  }

  lemma FinishedMeansCleaned(w: World, u: World, w': World, v: Slot, r: nat, answer: Option<Answer>,
                             problem: Option<Problem>)
    requires var k := SlotKey(v.eventId, v.number);
             var claimed := ClaimCleanup(v.cleanup, w.drawn, w.clock, w.cfg.cleanupLease);
             && claimed.Some? && IsLive(w.store.entries, k, r)
             && SameExcept(w.store, u.store, {k}) && u.clock == w.clock && u.acked == w.acked && u.cfg == w.cfg
             && FinishedAlone(u, w', v.(cleanup := claimed), answer, problem)
    ensures CleanedAlone(w, w', v, r, answer, problem)
  {
  }

  /** The moment that decided an attempt: a reading of the clock, or a store call
      on the version it had read, or on the one it had claimed. */
  datatype Ending =
    | AtClock(at: World)
    | AtClaim(at: World)
    | AtSave(at: World, claim: nat)
    | AtDrop(at: World, claim: nat)
    | AtGuest(at: World, guest: Versioned<Slot>)

  /** How an attempt on version `r` at key `k` came out, whoever else acts. An
      entry found gone is as good as deleted; one found changed is a lost race. */
  predicate CameOut(k: Key, r: nat, intent: Option<Progress>, problem: Option<Problem>, ending: Ending) {
    match ending
    case AtClock(at) => problem == Some(CleanupPending) && IsPending(intent, at.clock)
    case AtClaim(at) => problem == CasProblem(at.store.entries, k, r) && problem.Some?
    case AtSave(at, rc) => problem == Some(CleanupFailed(IsLive(at.store.entries, k, rc)))
    case AtDrop(at, rc) => problem == DropProblem(at.store.entries, k, rc)
    case AtGuest(at, x) => problem.Some? && GuestProblem(at.store.entries, x, problem.value)
  }

  /** What a compare-and-swap on version `r` is answered. */
  function CasProblem(entries: Entries, k: Key, r: nat): Option<Problem> {
    if k !in entries then Some(StoreError(NotFound))
    else if entries[k].revision != r then Some(StoreError(Conflict))
    else None
  }

  function DropProblem(entries: Entries, k: Key, r: nat): Option<Problem> {
    if k in entries && entries[k].revision != r then Some(StoreError(Conflict)) else None
  }

  /** What can keep a finalizer from purging a listed slot: a race on its session
      or on the slot, or a session that went away while it was being marked. */
  predicate GuestProblem(entries: Entries, x: Versioned<Slot>, problem: Problem) {
    || problem == Conflicting
    || (problem == StoreError(NotFound) && SessionKey(x.value.digest) !in entries)
    || (&& problem == StoreError(Conflict) && SlotKey(x.value.eventId, x.value.number) in entries
        && entries[SlotKey(x.value.eventId, x.value.number)].revision != x.revision)
  }

  /** Whoever else acts: without a problem the subject was acknowledged and its
      place is empty now. */
  method CleanSlot(c: Cluster, ghost rely: Rely, v: Slot, r: nat, why: Why)
    returns (problem: Option<Problem>, ghost answer: Option<Answer>, ghost ending: Ending)
    requires c.Valid() && IsSlot(c.w.store.written, r) && SlotAt(c.w.store.written, r) == v && MayClaim(c.w, v, why)
    modifies c
    ensures c.Valid() && Since(old(c.w), c.w) && Since(old(c.w), ending.at)
    ensures CameOut(SlotKey(v.eventId, v.number), r, v.cleanup, problem, ending)
    ensures answer.None? <==> ending.AtClock? || ending.AtClaim?
    ensures answer.Some? ==> if answer == Some(Count(1)) then ending.AtDrop? else ending.AtSave?
    ensures problem.None? ==> v.subject in c.w.acked && SlotKey(v.eventId, v.number) !in c.w.store.entries
    ensures rely.alone ==> CleanedAlone(old(c.w), c.w, v, r, answer, problem)
  {
    ghost var w0 := c.w;
    var now := c.Now(rely);
    if ClaimCleanup(v.cleanup, 0, now, c.w.cfg.cleanupLease).None? {
      return Some(CleanupPending), None, AtClock(c.w);
    }
    ghost var w1 := c.w;
    SinceSlot(w0, w1, r);
    MayStillClaim(w0, w1, v, why);
    var claimed, at := c.UpdateSlot(rely, r, Claim(why, now));
    SinceChain(w0, w1, c.w);
    SlotUpdateOutcome(at, r, Claim(why, now), c.w, claimed);
    if claimed.Failed? {
      return Some(StoreError(claimed.error)), None, AtClaim(at);
    }
    var rc := claimed.revision;
    ghost var w2 := c.w;
    ClaimedSlot(at, r, why, now);
    ghost var mine := rely.(mine := rely.mine + {ClaimToken(rc)});
    problem, answer, ending := FinishSlot(c, mine, ChangedSlot(at, r, Claim(why, now)), rc);
    SinceChain(w0, w2, c.w);
    SinceChain(w0, w2, ending.at);
    if rely.alone {
      FinishedMeansCleaned(w0, w2, c.w, v, r, answer, problem);
    }
  }

  /** The rest of a cleanup, from the stored claim on. */
  method FinishSlot(c: Cluster, ghost rely: Rely, ghost v: Slot, rc: nat)
    returns (problem: Option<Problem>, ghost answer: Option<Answer>, ghost ending: Ending)
    requires c.Valid() && ClaimStored(c.w, rc, v) && v.cleanup.Some? && ClaimToken(rc) in rely.mine
    modifies c
    ensures c.Valid() && Since(old(c.w), c.w) && Since(old(c.w), ending.at)
    ensures CameOut(SlotKey(v.eventId, v.number), rc, v.cleanup, problem, ending) && answer.Some?
    ensures if answer == Some(Count(1)) then ending.AtDrop? else ending.AtSave?
    ensures (ending.AtDrop? || ending.AtSave?) && ending.claim == rc
    ensures problem.None? ==> v.subject in c.w.acked && SlotKey(v.eventId, v.number) !in c.w.store.entries
    ensures rely.alone ==> FinishedAlone(old(c.w), c.w, v, answer, problem)
  {
    ghost var w0 := c.w;
    var complete, said := CallCleaner(c, rely, rc);
    answer := Some(said);
    ghost var w1 := c.w;
    SinceSlot(w0, w1, rc);
    if !complete {
      var now := c.Now(rely);
      ghost var w2 := c.w;
      SinceFacts(w1, w2);
      ClaimKept(w1, w2, rely, rc);
      SinceSlot(w1, w2, rc);
      var saved, at := c.UpdateSlot(rely, rc, SaveFailure(now));
      SlotUpdateOutcome(at, rc, SaveFailure(now), c.w, saved);
      SinceChain(w0, w1, w2);
      SinceChain(w0, w2, c.w);
      DelaysInSeconds(v.cleanup.value.attempts);
      SinceChain(w0, w2, at);
      return Some(CleanupFailed(saved.Ok?)), answer, AtSave(at, rc);
    }
    var _, at := c.DropIndex(rely, rc);
    ghost var w2 := c.w;
    SinceSlot(w1, w2, rc);
    SinceChain(w0, w1, w2);
    var dropped, at' := c.DropSlot(rely, rc);
    SinceFacts(w1, w2);
    SinceFacts(w2, c.w);
    SinceSlot(w2, c.w, rc);
    SinceChain(w0, w2, c.w);
    SinceChain(w0, w2, at');
    ending := AtDrop(at', rc);
    problem := if dropped == Failed(Conflict) then Some(StoreError(Conflict)) else None;
  }

  ghost predicate FinishedAlone(w: World, w': World, v: Slot, answer: Option<Answer>, problem: Option<Problem>)
    requires v.cleanup.Some?
  {
    var k := SlotKey(v.eventId, v.number);
    && w'.clock == w.clock && w'.cfg == w.cfg
    && SameExcept(w.store, w'.store, {k, SessionKey(v.digest)}) && answer.Some?
    && (if answer == Some(Count(1)) then
          && problem.None? && k !in w'.store.entries && SessionKey(v.digest) !in w'.store.entries
          && w'.acked == w.acked + {v.subject}
        else
          && problem == Some(CleanupFailed(true)) && w'.acked == w.acked
          && SameExcept(w.store, w'.store, {k}) && k in w'.store.entries
          && var p := v.cleanup.value;
             w'.store.entries[k].value ==
             SlotV(v.(cleanup := Some(p.(failed := true, nextAttemptAt := w.clock + DelaySeconds(p.attempts))))))
  }
}
