/** Exact admission: any interleaving of joins on an empty open event fills its
    slots from the first up, one guest each, until it is full
    (internal/access/service.go:265-333). */
module Admission {
  import opened KvStore
  import opened Model
  import opened Protocol
  import opened Invariants
  import opened Preservation
  import opened Interference
  import opened ClusterApi
  import opened Cleanup
  import opened Joining
  import opened Calls
  import Counting

  /** Calls in progress on one world, and, for the record, which of them have
      taken a slot, in the order they did. */
  datatype Crowd = Crowd(w: World, calls: seq<Call>, seated: seq<nat>)

  /** One call makes its next step, or time passes. */
  datatype Turn = Go(call: nat) | Wait(to: Time)

  function Advance(c: Crowd, d: Digest, t: Turn): Crowd {
    match t
    case Wait(to) => if c.w.clock <= to then c.(w := c.w.(clock := to)) else c
    case Go(i) =>
      if i >= |c.calls| then c
      else
        var (w', p') := StepOf(c.w, d, c.calls[i]);
        Crowd(w', c.calls[i := p'], if p'.Joined? && !c.calls[i].Joined? then c.seated + [i] else c.seated)
  }

  function Run(c: Crowd, d: Digest, turns: seq<Turn>): Crowd {
    if turns == [] then c else Advance(Run(c, d, turns[..|turns| - 1]), d, turns[|turns| - 1])
  }

  predicate Finished(p: Call) {
    p.Admitted? || p.TurnedAway?
  }

  /** Nothing but these joins happens, and all of it within the grace time. */
  predicate Prompt(turns: seq<Turn>, limit: Time) {
    forall i :: 0 <= i < |turns| && turns[i].Wait? ==> turns[i].to < limit
  }

  /** The event the crowd joins: open, with its invitation, read as version `r`. */
  predicate Welcomes(w: World, d: Digest, ev: Event, r: nat) {
    && w.cfg.maxCapacity > 0 && ev.state == Open && ev.capacity >= 1
    && InvitationKey(d) in w.store.entries && w.store.entries[InvitationKey(d)].value == InvitationV(ev.id)
    && EventKey(ev.id) in w.store.entries && w.store.entries[EventKey(ev.id)] == Entry(EventV(ev), r)
    && IsEvent(w.store.written, r) && EventAt(w.store.written, r) == ev
  }

  // ---------- The invariant ----------

  /** Call `p` holds slot `n`, which nobody will find expired before `limit`. */
  predicate Seat(w: World, p: Call, e: Id, n: nat, limit: Time) {
    && (p.Joined? || p.Admitted?) && p.generation in w.joins
    && w.joins[p.generation].eventId == e && w.joins[p.generation].number == n
    && w.joins[p.generation].phase != Refused
    && (p.Admitted? ==> w.joins[p.generation].phase == Indexed && Guest(e, p.generation) in w.minted)
    && HasSlot(w.store.entries, e, n)
    && var v := SlotNow(w.store.entries, e, n);
       v.generation == p.generation && v.subject == Guest(e, v.generation) && v.cleanup.None? &&
         limit <= v.graceExpiresAt
  }

  /** A call without a slot has passed over taken slots only. */
  predicate Seeks(p: Call, ev: Event, r: nat, taken: nat, start: Time, clock: Time) {
    match p
    case Waiting => true
    case Invited(e) => e == ev.id
    case Opened(q) => q == r
    case Scanning(q, n, now) => q == r && 1 <= n <= taken + 1 && n <= ev.capacity + 1 && start <= now <= clock
    case Looking(q, n, now) => q == r && 1 <= n <= taken && start <= now <= clock
    case TurnedAway(problem) => problem == AtCapacity && taken == ev.capacity
    case _ => false
  }

  ghost predicate Orderly(c: Crowd, d: Digest, ev: Event, r: nat, start: Time, limit: Time) {
    && Welcomes(c.w, d, ev, r) && start <= c.w.clock < limit
    && limit == start + c.w.cfg.leaseTTL + c.w.cfg.gracePeriod
    && |c.seated| <= ev.capacity
    && (forall k :: 0 <= k < |c.seated| ==>
       c.seated[k] < |c.calls| && Seat(c.w, c.calls[c.seated[k]], ev.id, k + 1, limit))
    && (forall j, k :: 0 <= j < k < |c.seated| ==> c.seated[j] != c.seated[k])
    && (forall n: nat :: SlotKey(ev.id, n) in c.w.store.entries ==> 1 <= n <= |c.seated|)
    && (forall i :: 0 <= i < |c.calls| && i !in c.seated ==> Seeks(c.calls[i], ev, r, |c.seated|, start, c.w.clock))
  }

  // ---------- Each kind of step keeps it ----------

  /** What a step leaves as it was, for everyone but the call that made it. */
  ghost predicate Apart(w: World, w': World, ev: Event, g: Id) {
    && w'.clock == w.clock && w'.cfg == w.cfg && w.minted <= w'.minted
    && (forall k: Key :: !k.SessionKey? ==> SameAt(w.store, w'.store, k))
    && (forall r :: IsEvent(w.store.written, r) ==>
          IsEvent(w'.store.written, r) && EventAt(w'.store.written, r) == EventAt(w.store.written, r))
    && (forall h :: h in w.joins && h != g ==> h in w'.joins && w'.joins[h] == w.joins[h])
  }

  lemma SeatKept(w: World, w': World, ev: Event, g: Id, p: Call, n: nat, limit: Time)
    requires Apart(w, w', ev, g) && Seat(w, p, ev.id, n, limit) && p.generation != g
    ensures Seat(w', p, ev.id, n, limit)
  {
    assert SameAt(w.store, w'.store, SlotKey(ev.id, n));
  }

  lemma WelcomeKept(w: World, w': World, d: Digest, ev: Event, r: nat, g: Id)
    requires Apart(w, w', ev, g) && Welcomes(w, d, ev, r)
    ensures Welcomes(w', d, ev, r)
  {
    assert SameAt(w.store, w'.store, EventKey(ev.id)) && SameAt(w.store, w'.store, InvitationKey(d));
  }

  /** A step of a seated call that keeps its seat. */
  lemma SeatedStep(c: Crowd, d: Digest, ev: Event, r: nat, start: Time, limit: Time, k: nat, w': World, p': Call)
    requires Orderly(c, d, ev, r, start, limit) && k < |c.seated|
    requires Apart(c.w, w', ev, c.calls[c.seated[k]].generation)
    requires p'.Joined? || p'.Admitted?
    requires p'.generation == c.calls[c.seated[k]].generation && Seat(w', p', ev.id, k + 1, limit)
    ensures Orderly(Crowd(w', c.calls[c.seated[k] := p'], c.seated), d, ev, r, start, limit)
  {
    var g := p'.generation;
    var calls' := c.calls[c.seated[k] := p'];
    WelcomeKept(c.w, w', d, ev, r, g);
    forall j | 0 <= j < |c.seated| ensures Seat(w', calls'[c.seated[j]], ev.id, j + 1, limit) {
      if j != k {
        assert c.seated[j] != c.seated[k];
        assert Seat(c.w, c.calls[c.seated[j]], ev.id, j + 1, limit) &&
          Seat(c.w, c.calls[c.seated[k]], ev.id, k + 1, limit);
        SeatKept(c.w, w', ev, g, c.calls[c.seated[j]], j + 1, limit);
      }
    }
    forall n: nat | SlotKey(ev.id, n) in w'.store.entries ensures 1 <= n <= |c.seated| {
      assert SameAt(c.w.store, w'.store, SlotKey(ev.id, n));
    }
  }

  /** A step is an action of the protocol. */
  lemma Acts(w: World, a: Action, w': World)
    requires Inv(w) && Enabled(w, a) && w' == Perform(w, a).0
    ensures Inv(w') && Since(w, w') && (Reachable(w) ==> Reachable(w'))
  {
    InvPerform(w, a);
    StepIsSince(w, a);
    if Reachable(w) {
      ReachableNext(w, a);
    }
  }

  lemma RecheckStep(w: World, d: Digest, ev: Event, r: nat, g: Id, n: nat, limit: Time)
    requires Inv(w) && Welcomes(w, d, ev, r) && Seat(w, Joined(g), ev.id, n, limit) && n <= ev.capacity
    requires w.joins[g].phase == Created
    ensures var w' := PerformRecheck(w, g).0;
            Inv(w') && (Reachable(w) ==> Reachable(w')) && Apart(w, w', ev, g) && Seat(w', Joined(g), ev.id, n, limit)
  {
    var w' := PerformRecheck(w, g).0;
    Acts(w, Action.Recheck(g), w');
    RecheckOutcome(w, g, w', PerformRecheck(w, g).1);
  }

  lemma IndexStep(w: World, ev: Event, g: Id, n: nat, limit: Time)
    requires Inv(w) && Seat(w, Joined(g), ev.id, n, limit) && w.joins[g].phase == Cleared
    ensures var w' := PerformCreateIndex(w, g).0;
            Inv(w') && (Reachable(w) ==> Reachable(w')) && Apart(w, w', ev, g) && Seat(w', Joined(g), ev.id, n, limit)
  {
    var w' := PerformCreateIndex(w, g).0;
    Acts(w, Action.CreateIndex(g), w');
    IndexOutcome(w, g, w', PerformCreateIndex(w, g).1);
    JoinTyped(w, g);
    assert SameAt(w.store, w'.store, SlotKey(ev.id, n));
    IndexWritesNoEvent(w, g);
  }

  lemma IndexWritesNoEvent(w: World, g: Id)
    requires Inv(w) && g in w.joins
    ensures var w' := PerformCreateIndex(w, g).0;
            forall r :: IsEvent(w.store.written, r) ==>
              IsEvent(w'.store.written, r) && EventAt(w'.store.written, r) == EventAt(w.store.written, r)
  {
    Show(w);
  }

  lemma MintStep(w: World, ev: Event, g: Id, n: nat, limit: Time)
    requires Inv(w) && Seat(w, Joined(g), ev.id, n, limit) && w.joins[g].phase == Indexed
    ensures var w' := w.(minted := w.minted + {Guest(w.joins[g].eventId, g)});
            Inv(w') && (Reachable(w) ==> Reachable(w')) && Apart(w, w', ev, g) && Seat(w', Admitted(g), ev.id, n, limit)
  {
    Acts(w, Action.Mint(g), w.(minted := w.minted + {Guest(w.joins[g].eventId, g)}));
  }

  lemma JoinedStep(w: World, d: Digest, ev: Event, r: nat, p: Call, n: nat, limit: Time)
    requires Inv(w) && Welcomes(w, d, ev, r) && Seat(w, p, ev.id, n, limit) && n <= ev.capacity
    ensures var (w', p') := StepOf(w, d, p);
            && Inv(w') && (Reachable(w) ==> Reachable(w')) && Apart(w, w', ev, p.generation)
            && Seat(w', p', ev.id, n, limit)
            && (p'.Joined? || p'.Admitted?) && p'.generation == p.generation
  {
    if p.Joined? {
      var g := p.generation;
      match w.joins[g].phase {
        case Created => RecheckStep(w, d, ev, r, g, n, limit);
        case Cleared => IndexStep(w, ev, g, n, limit);
        case Indexed => MintStep(w, ev, g, n, limit);
      }
    }
  }

  /** The create of a call that has passed over every taken slot. */
  lemma CreateStep(w: World, d: Digest, ev: Event, r: nat, n: nat, now: Time, start: Time, limit: Time)
    requires Inv(w) && Welcomes(w, d, ev, r) && 1 <= n <= ev.capacity && start <= now <= w.clock
    requires limit == start + w.cfg.leaseTTL + w.cfg.gracePeriod
    requires SlotKey(ev.id, n) !in w.store.entries
    ensures var (w', reply) := PerformCreateSlot(w, r, n, now);
            && Inv(w') && (Reachable(w) ==> Reachable(w')) && reply.Ok? && Seat(w', Joined(w.drawn), ev.id, n, limit)
            && w'.clock == w.clock && w'.cfg == w.cfg && w'.minted == w.minted && w.drawn !in w.joins
            && (forall k: Key :: k != SlotKey(ev.id, n) ==> SameAt(w.store, w'.store, k))
            && IsEvent(w'.store.written, r) && EventAt(w'.store.written, r) == ev
            && (forall h :: h in w.joins ==> h in w'.joins && w'.joins[h] == w.joins[h])
  {
    var w', reply := PerformCreateSlot(w, r, n, now).0, PerformCreateSlot(w, r, n, now).1;
    Acts(w, Action.CreateSlot(r, n, now), w');
    CreateOutcome(w, r, n, now, w', reply);
    SinceEvent(w, w', r);
  }

  lemma SeatTaken(c: Crowd, d: Digest, ev: Event, r: nat, start: Time, limit: Time, i: nat, w': World, g: Id)
    requires Orderly(c, d, ev, r, start, limit) && i < |c.calls| && i !in c.seated && |c.seated| < ev.capacity
    requires Seat(w', Joined(g), ev.id, |c.seated| + 1, limit) && g !in c.w.joins
    requires w'.clock == c.w.clock && w'.cfg == c.w.cfg && w'.minted == c.w.minted
    requires forall k: Key :: k != SlotKey(ev.id, |c.seated| + 1) ==> SameAt(c.w.store, w'.store, k)
    requires IsEvent(w'.store.written, r) && EventAt(w'.store.written, r) == ev
    requires forall h :: h in c.w.joins ==> h in w'.joins && w'.joins[h] == c.w.joins[h]
    ensures Orderly(Crowd(w', c.calls[i := Joined(g)], c.seated + [i]), d, ev, r, start, limit)
  {
    var calls', seated' := c.calls[i := Joined(g)], c.seated + [i];
    assert SameAt(c.w.store, w'.store, EventKey(ev.id)) && SameAt(c.w.store, w'.store, InvitationKey(d));
    forall k | 0 <= k < |seated'| ensures seated'[k] < |calls'| && Seat(w', calls'[seated'[k]], ev.id, k + 1, limit) {
      if k < |c.seated| {
        assert Seat(c.w, c.calls[c.seated[k]], ev.id, k + 1, limit);
        assert SameAt(c.w.store, w'.store, SlotKey(ev.id, k + 1));
      }
    }
    forall n: nat | SlotKey(ev.id, n) in w'.store.entries ensures 1 <= n <= |seated'| {
      assert n != |c.seated| + 1 ==> SameAt(c.w.store, w'.store, SlotKey(ev.id, n));
    }
    forall j | 0 <= j < |calls'| && j !in seated' ensures Seeks(calls'[j], ev, r, |seated'|, start, w'.clock) {
      assert j != i by { assert i == seated'[|c.seated|]; }
      assert j !in c.seated;
    }
  }

  /** A step of a call without a slot that takes none. */
  lemma SeekStep(c: Crowd, d: Digest, ev: Event, r: nat, start: Time, limit: Time, i: nat)
    requires Orderly(c, d, ev, r, start, limit) && i < |c.calls| && i !in c.seated
    requires c.calls[i].Scanning? ==> c.calls[i].number <= |c.seated| || c.calls[i].number > ev.capacity
    ensures var (w', p') := StepOf(c.w, d, c.calls[i]);
            w' == c.w && !p'.Joined? && Seeks(p', ev, r, |c.seated|, start, c.w.clock)
  {
    var p := c.calls[i];
    assert Seeks(p, ev, r, |c.seated|, start, c.w.clock);
    if (p.Looking? || p.Scanning?) && p.number <= |c.seated| {
      assert Seat(c.w, c.calls[c.seated[p.number - 1]], ev.id, p.number, limit);
    }
  }

  lemma SeekingGoesOn(c: Crowd, d: Digest, ev: Event, r: nat, start: Time, limit: Time, i: nat, p': Call)
    requires Orderly(c, d, ev, r, start, limit) && i < |c.calls| && i !in c.seated
    requires Seeks(p', ev, r, |c.seated|, start, c.w.clock)
    ensures Orderly(c.(calls := c.calls[i := p']), d, ev, r, start, limit)
  {
    var calls' := c.calls[i := p'];
    forall k | 0 <= k < |c.seated|
      ensures c.seated[k] < |calls'| && Seat(c.w, calls'[c.seated[k]], ev.id, k + 1, limit)
    {
      assert c.seated[k] in c.seated;
    }
  }

  lemma UnseatedKeeps(c: Crowd, d: Digest, ev: Event, r: nat, start: Time, limit: Time, i: nat)
    requires Inv(c.w) && Orderly(c, d, ev, r, start, limit) && i < |c.calls| && i !in c.seated
    ensures Inv(Advance(c, d, Go(i)).w) && (Reachable(c.w) ==> Reachable(Advance(c, d, Go(i)).w))
    ensures Orderly(Advance(c, d, Go(i)), d, ev, r, start, limit)
  {
    var p := c.calls[i];
    assert Seeks(p, ev, r, |c.seated|, start, c.w.clock);
    if p.Scanning? && |c.seated| < p.number <= ev.capacity {
      CreateStep(c.w, d, ev, r, p.number, p.now, start, limit);
      SeatTaken(c, d, ev, r, start, limit, i, PerformCreateSlot(c.w, r, p.number, p.now).0, c.w.drawn);
    } else {
      SeekStep(c, d, ev, r, start, limit, i);
      SeekingGoesOn(c, d, ev, r, start, limit, i, StepOf(c.w, d, p).1);
    }
  }

  lemma StaysSeated(c: Crowd, d: Digest, i: nat)
    requires i < |c.calls| && (c.calls[i].Joined? || c.calls[i].Admitted?)
    ensures var out := StepOf(c.w, d, c.calls[i]);
            Advance(c, d, Go(i)) == Crowd(out.0, c.calls[i := out.1], c.seated)
  {
  }

  lemma SeatedKeeps(c: Crowd, d: Digest, ev: Event, r: nat, start: Time, limit: Time, i: nat)
    requires Inv(c.w) && Orderly(c, d, ev, r, start, limit) && i < |c.calls| && i in c.seated
    ensures Inv(Advance(c, d, Go(i)).w) && (Reachable(c.w) ==> Reachable(Advance(c, d, Go(i)).w))
    ensures Orderly(Advance(c, d, Go(i)), d, ev, r, start, limit)
  {
    var k :| 0 <= k < |c.seated| && c.seated[k] == i;
    assert Seat(c.w, c.calls[i], ev.id, k + 1, limit);
    JoinedStep(c.w, d, ev, r, c.calls[i], k + 1, limit);
    var out := StepOf(c.w, d, c.calls[i]);
    StaysSeated(c, d, i);
    SeatedStep(c, d, ev, r, start, limit, k, out.0, out.1);
  }

  lemma WaitKeeps(c: Crowd, d: Digest, ev: Event, r: nat, start: Time, limit: Time, to: Time)
    requires Inv(c.w) && Orderly(c, d, ev, r, start, limit) && to < limit
    ensures Inv(Advance(c, d, Wait(to)).w) && (Reachable(c.w) ==> Reachable(Advance(c, d, Wait(to)).w))
    ensures Orderly(Advance(c, d, Wait(to)), d, ev, r, start, limit)
  {
    if c.w.clock <= to {
      Acts(c.w, Action.Tick(to), c.w.(clock := to));
    }
  }

  lemma {:induction false} RunKeeps(c: Crowd, d: Digest, ev: Event, r: nat, start: Time, limit: Time, turns: seq<Turn>)
    requires Inv(c.w) && Orderly(c, d, ev, r, start, limit) && Prompt(turns, limit)
    ensures Inv(Run(c, d, turns).w) && (Reachable(c.w) ==> Reachable(Run(c, d, turns).w))
    ensures Orderly(Run(c, d, turns), d, ev, r, start, limit)
    ensures |Run(c, d, turns).calls| == |c.calls|
  {
    if turns != [] {
      var front, t := turns[..|turns| - 1], turns[|turns| - 1];
      RunKeeps(c, d, ev, r, start, limit, front);
      var u := Run(c, d, front);
      match t {
        case Wait(to) => WaitKeeps(u, d, ev, r, start, limit, to);
        case Go(i) =>
          if i >= |u.calls| {
          } else if i in u.seated {
            SeatedKeeps(u, d, ev, r, start, limit, i);
          } else {
            UnseatedKeeps(u, d, ev, r, start, limit, i);
          }
      }
    }
  }

  // ---------- The guarantee ----------

  /** `n` joins about to be made, with the same invitation. */
  function Arrivals(w: World, n: nat): Crowd {
    Crowd(w, seq(n, _ => Waiting), [])
  }

  /** The seated calls are exactly the admitted ones: slots 1, 2, ... in turn,
      each with a minted subject of its own; everyone else was told "full". */
  ghost predicate AdmitsExactly(c: Crowd, e: Id, count: nat) {
    && |c.seated| == count
    && (forall k :: 0 <= k < count ==>
          && c.seated[k] < |c.calls| && c.calls[c.seated[k]].Admitted?
          && HasSlot(c.w.store.entries, e, k + 1)
          && SlotNow(c.w.store.entries, e, k + 1).generation == c.calls[c.seated[k]].generation
          && Guest(e, c.calls[c.seated[k]].generation) in c.w.minted)
    && (forall j, k :: 0 <= j < k < count ==>
          c.seated[j] != c.seated[k] && c.calls[c.seated[j]].generation != c.calls[c.seated[k]].generation)
    && (forall i :: 0 <= i < |c.calls| && i !in c.seated ==> c.calls[i] == TurnedAway(AtCapacity))
    && (forall n: nat :: SlotKey(e, n) in c.w.store.entries ==> 1 <= n <= count)
  }

  /** Exact admission: however the store calls of `n` joins on an empty open
      event interleave, if all complete within the grace time and nothing else
      happens, exactly min(n, capacity) guests get in, on the first slots in
      order, with distinct subjects, and the rest are told the event is full. */
  lemma ExactAdmission(w: World, d: Digest, ev: Event, r: nat, n: nat, turns: seq<Turn>)
    requires Reachable(w) && Welcomes(w, d, ev, r) && w.cfg.leaseTTL + w.cfg.gracePeriod > 0
    requires forall k: nat :: SlotKey(ev.id, k) !in w.store.entries
    requires Prompt(turns, w.clock + w.cfg.leaseTTL + w.cfg.gracePeriod)
    requires forall p :: p in Run(Arrivals(w, n), d, turns).calls ==> Finished(p)
    ensures Reachable(Run(Arrivals(w, n), d, turns).w)
    ensures AdmitsExactly(Run(Arrivals(w, n), d, turns), ev.id, Counting.Min(n, ev.capacity))
  {
    var limit := w.clock + w.cfg.leaseTTL + w.cfg.gracePeriod;
    InvHolds(w);
    RunKeeps(Arrivals(w, n), d, ev, r, w.clock, limit, turns);
    var c := Run(Arrivals(w, n), d, turns);
    EveryoneDone(c, d, ev, r, w.clock, limit);
    Counting.DistinctAreFew(c.seated, n);
  }

  lemma EveryoneDone(c: Crowd, d: Digest, ev: Event, r: nat, start: Time, limit: Time)
    requires Orderly(c, d, ev, r, start, limit) && forall p :: p in c.calls ==> Finished(p)
    ensures AdmitsExactly(c, ev.id, |c.seated|)
    ensures |c.seated| == ev.capacity || forall i: nat :: i < |c.calls| ==> i in c.seated
  {
    forall k | 0 <= k < |c.seated|
      ensures c.seated[k] < |c.calls| && c.calls[c.seated[k]].Admitted?
      ensures HasSlot(c.w.store.entries, ev.id, k + 1)
      ensures SlotNow(c.w.store.entries, ev.id, k + 1).generation == c.calls[c.seated[k]].generation
      ensures Guest(ev.id, c.calls[c.seated[k]].generation) in c.w.minted
    {
      assert Seat(c.w, c.calls[c.seated[k]], ev.id, k + 1, limit);
      assert c.calls[c.seated[k]] in c.calls;
    }
    forall j, k | 0 <= j < k < |c.seated| ensures c.calls[c.seated[j]].generation != c.calls[c.seated[k]].generation {
      assert Seat(c.w, c.calls[c.seated[j]], ev.id, j + 1, limit) &&
        Seat(c.w, c.calls[c.seated[k]], ev.id, k + 1, limit);
    }
    forall i | 0 <= i < |c.calls| && i !in c.seated
      ensures c.calls[i] == TurnedAway(AtCapacity) && |c.seated| == ev.capacity
    {
      assert c.calls[i] in c.calls;
      Stranded(c, d, ev, r, start, limit, i);
    }
    forall i: nat | i < |c.calls| ensures |c.seated| == ev.capacity || i in c.seated {
      assert c.calls[i] in c.calls;
    }
  }

  /** A finished call without a slot was told the event is full, and it is. */
  lemma Stranded(c: Crowd, d: Digest, ev: Event, r: nat, start: Time, limit: Time, i: nat)
    requires Orderly(c, d, ev, r, start, limit) && i < |c.calls| && i !in c.seated && Finished(c.calls[i])
    ensures c.calls[i] == TurnedAway(AtCapacity) && |c.seated| == ev.capacity
  {
    assert Seeks(c.calls[i], ev, r, |c.seated|, start, c.w.clock);
  }
}
