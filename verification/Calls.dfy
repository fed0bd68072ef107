/** One `StartSession` call (internal/access/service.go:265-333) as the steps it
    makes, each at most one store call, and what it means that a call makes just
    these steps while others act in between. */
module Calls {
  import opened KvStore
  import opened Model
  import opened Protocol
  import opened Invariants
  import opened Interference
  import opened Cleanup

  /** Where a call stands between two of its steps. `Cleaning` is where it would
      go on to clean a slot in its way. */
  datatype Call =
    | Waiting
    | Invited(event: Id)
    | Opened(source: nat)
    | Scanning(source: nat, number: nat, now: Time)
    | Looking(source: nat, number: nat, now: Time)
    | Cleaning(number: nat)
    | Joined(generation: Id)
    | Undoing(generation: Id, problem: Problem)
    | Admitted(generation: Id)
    | TurnedAway(problem: Problem)

  /** The next step of a call. */
  function StepOf(w: World, d: Digest, p: Call): (World, Call) {
    match p
    case Waiting =>
      if w.cfg.maxCapacity == 0 then (w, TurnedAway(AdmissionClosed))
      else if InvitationKey(d) !in w.store.entries || !w.store.entries[InvitationKey(d)].value.InvitationV? then
        (w, TurnedAway(Missing))
      else (w, Invited(w.store.entries[InvitationKey(d)].value.eventId))
    case Invited(e) =>
      if !HasEvent(w.store.entries, e) then (w, TurnedAway(Missing))
      else
        var ev := EventNow(w.store.entries, e);
        if ev.state == Paused then (w, TurnedAway(EventPaused))
        else if ev.state != Open || ev.capacity == 0 then (w, TurnedAway(AdmissionClosed))
        else (w, Opened(w.store.entries[EventKey(e)].revision))
    case Opened(r) => (w, Scanning(r, 1, w.clock))
    case Scanning(r, n, now) =>
      if !IsEvent(w.store.written, r) then (w, p)
      else if n > EventAt(w.store.written, r).capacity then (w, TurnedAway(AtCapacity))
      else
        var (w', reply) := PerformCreateSlot(w, r, n, now);
        if reply.Ok? then (w', Joined(w.drawn)) else (w, Looking(r, n, now))
    case Looking(r, n, now) =>
      if !IsEvent(w.store.written, r) then (w, p)
      else
        var e := EventAt(w.store.written, r).id;
        if !HasSlot(w.store.entries, e, n) then (w, Scanning(r, n + 1, now))
        else
          var v := SlotNow(w.store.entries, e, n);
          if v.cleanup.None? && (v.reserved || now < v.graceExpiresAt) then (w, Scanning(r, n + 1, now))
          else (w, Cleaning(n))
    case Joined(g) =>
      if g !in w.joins then (w, p)
      else
        (match w.joins[g].phase
         case Created =>
           var (w', reply) := PerformRecheck(w, g);
           if reply.Ok? then (w', p) else (w', Undoing(g, if reply.error == NotFound then Missing else AdmissionClosed))
         case Cleared => (PerformCreateIndex(w, g).0, p)
         case Indexed => (w.(minted := w.minted + {Guest(w.joins[g].eventId, g)}), Admitted(g))
         case Refused => (w, p))
    case Undoing(g, problem) =>
      if g in w.joins then (PerformRollback(w, g).0, TurnedAway(problem)) else (w, p)
    case _ => (w, p)
  }

  // ---------- A call that makes its steps while others act in between ----------

  /** The world, and where the call stands, after steps made at the moments
      `trail`. */
  function After(w: World, p: Call, trail: seq<World>, d: Digest): (World, Call) {
    if trail == [] then (w, p) else StepOf(trail[|trail| - 1], d, After(w, p, trail[..|trail| - 1], d).1)
  }

  /** Between one step and the next others may have acted. */
  ghost predicate Walks(w: World, p: Call, trail: seq<World>, d: Digest) {
    trail != [] ==>
      var front := trail[..|trail| - 1];
      Walks(w, p, front, d) && Since(After(w, p, front, d).0, trail[|trail| - 1])
  }

  /** From `w` to `w'` the call goes from `p` to `p'` by its steps, at the moments
      `trail`; before each of them others may act. */
  ghost predicate Goes(w: World, p: Call, trail: seq<World>, d: Digest, w': World, p': Call) {
    Walks(w, p, trail, d) && After(w, p, trail, d) == (w', p')
  }

  lemma GoesNext(w: World, p: Call, trail: seq<World>, d: Digest, u: World, q: Call, at: World)
    requires Goes(w, p, trail, d, u, q) && Since(u, at)
    ensures Goes(w, p, trail + [at], d, StepOf(at, d, q).0, StepOf(at, d, q).1)
  {
    assert (trail + [at])[..|trail|] == trail;
  }

  lemma {:induction false} GoesFurther(w: World, p: Call, trail: seq<World>, d: Digest, u: World, q: Call,
                                       more: seq<World>)
    requires Goes(w, p, trail, d, u, q) && Walks(u, q, more, d)
    ensures Walks(w, p, trail + more, d) && After(w, p, trail + more, d) == After(u, q, more, d)
  {
    if more == [] {
      assert trail + more == trail;
    } else {
      var front := more[..|more| - 1];
      GoesFurther(w, p, trail, d, u, q, front);
      assert (trail + more)[..|trail + more| - 1] == trail + front;
    }
  }

  /** The moments of a call's steps, and where they led. */
  datatype Trace = Trace(moments: seq<World>, end: World, call: Call)

  /** The call goes from `p` as traced; kept folded until it is asked for. */
  ghost predicate Traced(w: World, p: Call, t: Trace, d: Digest) {
    forall b: bool :: Shown(w, b) ==> Goes(w, p, t.moments, d, t.end, t.call)
  }

  lemma ShowTraced(w: World, p: Call, t: Trace, d: Digest)
    requires Traced(w, p, t, d)
    ensures Goes(w, p, t.moments, d, t.end, t.call)
  {
    assert Shown(w, true);
  }

  /** The call has come to `p'` by `w'`, unless it went on to clean a slot. */
  ghost predicate ComesTo(t: Trace, w': World, p': Call) {
    Since(t.end, w') && (t.call.Cleaning? || (t.end == w' && t.call == p'))
  }

  function Start(w: World, p: Call): Trace {
    Trace([], w, p)
  }

  lemma NextStep(w: World, p: Call, t: Trace, d: Digest, at: World) returns (t': Trace)
    requires Traced(w, p, t, d) && Since(t.end, at)
    ensures Traced(w, p, t', d) && (t'.end, t'.call) == StepOf(at, d, t.call)
  {
    ShowTraced(w, p, t, d);
    t' := Trace(t.moments + [at], StepOf(at, d, t.call).0, StepOf(at, d, t.call).1);
    GoesNext(w, p, t.moments, d, t.end, t.call, at);
  }

  lemma OneStep(w: World, p: Call, d: Digest, at: World) returns (t: Trace)
    requires Since(w, at)
    ensures Traced(w, p, t, d) && (t.end, t.call) == StepOf(at, d, p)
  {
    t := NextStep(w, p, Start(w, p), d, at);
  }

  /** The clock is read, and the scan begins. */
  lemma ScanBegins(w: World, p: Call, t: Trace, d: Digest, at: World, r: nat) returns (t': Trace)
    requires Traced(w, p, t, d) && t.call == Opened(r) && Since(t.end, at)
    ensures Traced(w, p, t', d) && ComesTo(t', at, Scanning(r, 1, at.clock))
  {
    t' := NextStep(w, p, t, d, at);
    SinceSelf(at);
  }

  /** The call goes on, unless it is already past what is traced. */
  lemma Further(w: World, p: Call, t: Trace, u: World, q: Call, more: Trace, d: Digest, w': World, p': Call)
    returns (t': Trace)
    requires Traced(w, p, t, d) && ComesTo(t, u, q) && Since(u, w')
    requires Traced(u, q, more, d) && ComesTo(more, w', p')
    ensures Traced(w, p, t', d) && ComesTo(t', w', p')
  {
    if t.call.Cleaning? {
      t' := t;
      SinceChain(t.end, u, w');
    } else {
      ShowTraced(w, p, t, d);
      ShowTraced(u, q, more, d);
      t' := Trace(t.moments + more.moments, more.end, more.call);
      GoesFurther(w, p, t.moments, d, t.end, t.call, more.moments);
    }
  }

  // ---------- Each step, by itself ----------

  lemma CreateIsStep(at: World, d: Digest, r: nat, n: nat, now: Time, w': World, reply: Reply)
    requires IsEvent(at.store.written, r) && n <= EventAt(at.store.written, r).capacity
    requires (w', reply) == PerformCreateSlot(at, r, n, now)
    ensures reply.Ok? ==> StepOf(at, d, Scanning(r, n, now)) == (w', Joined(at.drawn))
    ensures reply.Failed? ==> StepOf(at, d, Scanning(r, n, now)) == (at, Looking(r, n, now))
  {
  }

  lemma LookIsStep(at: World, d: Digest, r: nat, n: nat, now: Time)
    requires IsEvent(at.store.written, r)
    ensures var e := EventAt(at.store.written, r).id;
            StepOf(at, d, Looking(r, n, now)) ==
            (at, if && HasSlot(at.store.entries, e, n)
                    && (var v := SlotNow(at.store.entries, e, n);
                        v.cleanup.Some? || (!v.reserved && v.graceExpiresAt <= now))
                 then Cleaning(n) else Scanning(r, n + 1, now))
  {
  }

  lemma FullIsStep(at: World, d: Digest, r: nat, n: nat, now: Time)
    requires IsEvent(at.store.written, r) && n > EventAt(at.store.written, r).capacity
    ensures StepOf(at, d, Scanning(r, n, now)) == (at, TurnedAway(AtCapacity))
  {
  }

  lemma RecheckIsStep(at: World, d: Digest, g: Id, w': World, reply: Reply)
    requires g in at.joins && at.joins[g].phase == Created && (w', reply) == PerformRecheck(at, g)
    ensures reply.Ok? ==> StepOf(at, d, Joined(g)) == (w', Joined(g))
    ensures reply.Failed? ==>
              StepOf(at, d, Joined(g)) == (w', Undoing(g, if reply.error == NotFound then Missing else AdmissionClosed))
  {
  }

  lemma UndoIsStep(at: World, d: Digest, g: Id, problem: Problem)
    requires g in at.joins
    ensures StepOf(at, d, Undoing(g, problem)) == (PerformRollback(at, g).0, TurnedAway(problem))
  {
  }

  lemma IndexIsStep(at: World, d: Digest, g: Id)
    requires g in at.joins && at.joins[g].phase == Cleared
    ensures StepOf(at, d, Joined(g)) == (PerformCreateIndex(at, g).0, Joined(g))
  {
  }

  lemma MintIsStep(at: World, d: Digest, g: Id)
    requires g in at.joins && at.joins[g].phase == Indexed
    ensures StepOf(at, d, Joined(g)) == (at.(minted := at.minted + {Guest(at.joins[g].eventId, g)}), Admitted(g))
  {
  }
}
