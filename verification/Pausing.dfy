/** What a pause stops, and what it does not: exactly which tokens can still be
    minted, and which leases still renewed, while an event stays closed. */
module Pausing {
  import opened KvStore
  import opened Model
  import opened Protocol
  import opened Invariants
  import opened Preservation
  import opened Fates
  import opened Runs
  import opened Tenancy
  import opened Interference

  ghost predicate NobodyOpens(w: World, run: seq<Action>, e: Id) {
    forall i :: 0 <= i < |run| ==> StaysClosed(Exec(w, run[..i]), run[i], e)
  }

  // ---------- Joins ----------

  lemma PassedBefore(u: World, v: World, w: World, e: Id)
    requires NoneNewlyPassed(u.joins, v.joins, e) && NoneNewlyPassed(v.joins, w.joins, e) && JoinsGrow(v.joins, w.joins)
    ensures NoneNewlyPassed(u.joins, w.joins, e)
  {
    forall g | g in w.joins && w.joins[g].eventId == e && Passed(w.joins[g].phase)
      ensures g in u.joins && Passed(u.joins[g].phase)
    {
      assert g in v.joins && Passed(v.joins[g].phase) && v.joins[g].eventId == e;
    }
  }

  lemma NobodyOpensFront(w: World, run: seq<Action>, e: Id)
    requires run != [] && NobodyOpens(w, run, e)
    ensures NobodyOpens(w, run[..|run| - 1], e) && StaysClosed(Exec(w, run[..|run| - 1]), run[|run| - 1], e)
  {
    var front := run[..|run| - 1];
    assert forall i :: 0 <= i < |front| ==> front[..i] == run[..i];
  }

  /** While a closed event stays closed, no join passes the recheck. */
  lemma {:induction false} PauseStopsJoins(w: World, run: seq<Action>, e: Id)
    requires Inv(w) && Closed(w.store.entries, e) && NobodyOpens(w, run, e)
    ensures Inv(Exec(w, run)) && Closed(Exec(w, run).store.entries, e)
    ensures NoneNewlyPassed(w.joins, Exec(w, run).joins, e)
  {
    InvExec(w, run);
    if run != [] {
      var front, a := run[..|run| - 1], run[|run| - 1];
      NobodyOpensFront(w, run, e);
      PauseStopsJoins(w, front, e);
      var u := Exec(w, front);
      if Enabled(u, a) {
        ClosedStep(u, a, e);
        NoPassStep(u, a, e);
        JoinsStep(u, a);
        PassedBefore(w, u, Perform(u, a).0, e);
      }
    }
  }

  /** A guest whose join had passed the recheck. */
  predicate WasPast(w: World, x: Guest) {
    && x.generation in w.joins && w.joins[x.generation].eventId == x.eventId && Passed(w.joins[x.generation].phase)
  }

  lemma OnlyPassedGuestsMint(w: World, run: seq<Action>, x: Guest)
    requires Inv(w) && Closed(w.store.entries, x.eventId) && NobodyOpens(w, run, x.eventId)
    requires x in Exec(w, run).minted
    ensures WasPast(w, x)
  {
    PauseStopsJoins(w, run, x.eventId);
    RunGrows(w, run);
    MintTyped(Exec(w, run));
    assert IsIndexed(Exec(w, run).joins, x);
  }

  /** What is left to do for a join past the recheck. */
  function Finish(g: Id): seq<Action> {
    [CreateIndex(g), Mint(g)]
  }

  lemma IndexIsCreated(w: World, g: Id)
    requires Inv(w) && g in w.joins && w.joins[g].phase == Cleared
    ensures PerformCreateIndex(w, g).0.joins == w.joins[g := w.joins[g].(phase := Indexed)]
  {
    JoinTyped(w, g);
    var k := SessionKey(w.joins[g].digest);
    if k in w.store.entries {
      LiveVersion(w, k);
    }
  }

  lemma IndexedNext(w: World, g: Id)
    requires Inv(w) && g in w.joins && Passed(w.joins[g].phase)
    ensures var u := Next(w, CreateIndex(g));
            g in u.joins && u.joins[g] == w.joins[g].(phase := Indexed)
  {
    if w.joins[g].phase == Cleared {
      IndexIsCreated(w, g);
      assert Next(w, CreateIndex(g)) == PerformCreateIndex(w, g).0;
    }
  }

  lemma PassedGuestsStillMint(w: World, g: Id)
    requires Inv(w) && g in w.joins && Passed(w.joins[g].phase)
    ensures Guest(w.joins[g].eventId, g) in Exec(w, Finish(g)).minted
  {
    IndexedNext(w, g);
    OneMore(w, [], CreateIndex(g));
    OneMore(w, [CreateIndex(g)], Mint(g));
    assert [] + [CreateIndex(g)] == [CreateIndex(g)] && [CreateIndex(g)] + [Mint(g)] == Finish(g);
    assert Exec(w, []) == w;
  }

  lemma FinishOpensNothing(w: World, g: Id, e: Id)
    ensures NobodyOpens(w, Finish(g), e)
  {
  }

  /** The guest can be given its first token though nobody opens its event. */
  ghost predicate CanStillMint(w: World, x: Guest) {
    exists run :: MintsLater(w, run, x)
  }

  ghost predicate MintsLater(w: World, run: seq<Action>, x: Guest) {
    NobodyOpens(w, run, x.eventId) && x !in w.minted && x in Exec(w, run).minted
  }

  /** What a pause stops of admissions: while an event stays closed a guest that
      has no token can still be given one if and only if its join was past the
      recheck when the event closed. */
  lemma PauseStopsExactlyLaterJoins(w: World, x: Guest)
    requires Inv(w) && Closed(w.store.entries, x.eventId)
    ensures CanStillMint(w, x) <==> WasPast(w, x) && x !in w.minted
  {
    if CanStillMint(w, x) {
      var run :| MintsLater(w, run, x);
      OnlyPassedGuestsMint(w, run, x);
    }
    if WasPast(w, x) && x !in w.minted {
      PassedGuestsStillMint(w, x.generation);
      FinishOpensNothing(w, x.generation, x.eventId);
      assert MintsLater(w, Finish(x.generation), x);
    }
  }

  /** A pause that comes after the recheck of the very first join. */
  function LatePause(start: Time): seq<Action> {
    [CreateEvent(1), UpdateEvent(1, SetState(Open)), CreateSlot(2, 1, start), Recheck(2),
      UpdateEvent(2, SetState(Paused))]
  }

  lemma OpenedEvent(cfg: Config, start: Time) returns (w: World)
    requires cfg.maxCapacity >= 1
    ensures Exec(Init(cfg, start), LatePause(start)[..2]) == w
    ensures w.store.revision == 2 && w.drawn == 2 && w.joins == map[] && w.minted == {} && w.clock == start &&
            w.cfg == cfg
    ensures EventKey(0) in w.store.entries && w.store.entries.Keys == {EventKey(0)}
    ensures IsEvent(w.store.written, 2)
    ensures w.store.entries[EventKey(0)] == Entry(EventV(EventAt(w.store.written, 2)), 2)
    ensures EventAt(w.store.written, 2) == Event(0, 1, Open, Digest(1), None, None)
  {
    var w0 := Init(cfg, start);
    var w1 := PerformCreateEvent(w0, 1).0;
    w := PerformUpdateEvent(w1, 1, SetState(Open)).0;
    OneMore(w0, [], CreateEvent(1));
    OneMore(w0, [CreateEvent(1)], UpdateEvent(1, SetState(Open)));
    assert [] + [CreateEvent(1)] == [CreateEvent(1)];
    assert [CreateEvent(1)] + [UpdateEvent(1, SetState(Open))] == LatePause(start)[..2];
    assert Exec(w0, []) == w0;
  }

  /** The guest of that run: its join, in phase `phase`, and its slot. */
  predicate FirstGuest(w: World, phase: Phase) {
    && w.joins.Keys == {2} && w.joins[2] == Join(0, 1, Digest(3), 3, 2, phase)
    && SlotKey(0, 1) in w.store.entries && w.store.entries[SlotKey(0, 1)].revision == 3
    && HasSlot(w.store.entries, 0, 1) && SlotNow(w.store.entries, 0, 1).digest == Digest(3)
    && SlotNow(w.store.entries, 0, 1).cleanup.None? && !SlotNow(w.store.entries, 0, 1).reserved
  }

  /** The event of that run, as its version `2`. */
  predicate FirstEvent(w: World) {
    && IsEvent(w.store.written, 2) && EventKey(0) in w.store.entries && w.store.entries[EventKey(0)].revision == 2
    && EventAt(w.store.written, 2) == Event(0, 1, Open, Digest(1), None, None)
  }

  lemma TakenSlot(cfg: Config, start: Time) returns (x: World)
    requires cfg.maxCapacity >= 1
    ensures Exec(Init(cfg, start), LatePause(start)[..3]) == x
    ensures x.minted == {} && x.store.revision == 3 && x.clock == start &&
            x.store.entries.Keys == {EventKey(0), SlotKey(0, 1)}
    ensures FirstEvent(x) && FirstGuest(x, Created) && HasEvent(x.store.entries, 0)
    ensures EventNow(x.store.entries, 0) == EventAt(x.store.written, 2)
  {
    var run := LatePause(start);
    var w := OpenedEvent(cfg, start);
    x := PerformCreateSlot(w, 2, 1, start).0;
    OneMore(Init(cfg, start), run[..2], run[2]);
    assert run[..2] + [run[2]] == run[..3];
  }

  lemma JoinedEvent(cfg: Config, start: Time) returns (y: World)
    requires cfg.maxCapacity >= 1
    ensures Exec(Init(cfg, start), LatePause(start)[..4]) == y
    ensures y.minted == {} && WasPast(y, Guest(0, 2)) && FirstEvent(y) && FirstGuest(y, Cleared)
    ensures y.store.revision == 3 && y.clock == start && SessionKey(Digest(3)) !in y.store.entries
  {
    var run := LatePause(start);
    var x := TakenSlot(cfg, start);
    y := PerformRecheck(x, 2).0;
    OneMore(Init(cfg, start), run[..3], run[3]);
    assert run[..3] + [run[3]] == run[..4];
  }

  lemma PausedEvent(y: World)
    requires FirstEvent(y)
    ensures var u := Next(y, UpdateEvent(2, SetState(Paused)));
            && Closed(u.store.entries, 0) && u.minted == y.minted && u.joins == y.joins
            && u.clock == y.clock && u.store.revision == y.store.revision + 1
            && (SlotKey(0, 1) in y.store.entries ==>
                  SlotKey(0, 1) in u.store.entries && u.store.entries[SlotKey(0, 1)] == y.store.entries[SlotKey(0, 1)])
  {
    assert Next(y, UpdateEvent(2, SetState(Paused))) == PerformUpdateEvent(y, 2, SetState(Paused)).0;
  }

  /** The paused event of that run: nobody was given a token yet, and the guest
      past its recheck still can be. */
  lemma LatePauseStillMints(cfg: Config, start: Time)
    requires cfg.maxCapacity >= 1
    ensures var u := Exec(Init(cfg, start), LatePause(start));
            && Closed(u.store.entries, 0) && u.minted == {}
            && Guest(0, 2) in Exec(u, Finish(2)).minted && NobodyOpens(u, Finish(2), 0)
  {
    var run := LatePause(start);
    var y := JoinedEvent(cfg, start);
    PausedEvent(y);
    OneMore(Init(cfg, start), run[..4], run[4]);
    assert run[..4] + [run[4]] == run;
    InvInit(cfg, start);
    InvExec(Init(cfg, start), run);
    PassedGuestsStillMint(Exec(Init(cfg, start), run), 2);
    FinishOpensNothing(Exec(Init(cfg, start), run), 2, 0);
  }

  // ---------- Readings ----------

  predicate OpenThen(w: World, u: World, e: Id, r: nat) {
    IsOpenEvent(u.store.written, r, e) ==> IsOpenEvent(w.store.written, r, e)
  }

  lemma NoNewOpenVersion(w: World, a: Action, e: Id, r: nat)
    requires Inv(w) && Enabled(w, a) && StaysClosed(w, a, e) && Closed(w.store.entries, e)
    ensures OpenThen(w, Perform(w, a).0, e, r)
  {
    StoreFollows(w, a);
    VersionFate(w, a, r);
    if a.UpdateEvent? && Lands(w, a.revision) {
      WriteTyped(w, a.revision);
      LiveVersion(w, EventKey(EventAt(w.store.written, a.revision).id));
    }
  }

  /** While a closed event stays closed, no version of it as open is added. */
  lemma {:induction false} PauseStopsReadings(w: World, run: seq<Action>, e: Id, r: nat)
    requires Inv(w) && Closed(w.store.entries, e) && NobodyOpens(w, run, e)
    ensures OpenThen(w, Exec(w, run), e, r)
  {
    if run != [] {
      var front, a := run[..|run| - 1], run[|run| - 1];
      NobodyOpensFront(w, run, e);
      PauseStopsReadings(w, front, e, r);
      PauseStopsJoins(w, front, e);
      if Enabled(Exec(w, front), a) {
        NoNewOpenVersion(Exec(w, front), a, e, r);
      }
    }
  }

  // ---------- What is in flight when an event closes ----------

  /** What operations begun before a moment still have in hand: the event
      versions their renewals have read, the renewals they have stored and not
      minted a token for, and their joins. */
  datatype InFlight = InFlight(readings: set<nat>, stored: set<nat>, joins: set<Id>)

  /** Version `r` is what a reading of its event gives now. */
  predicate ReadNow(u: World, r: nat) {
    IsEvent(u.store.written, r) && Lands(u, r)
  }

  ghost predicate ReadBy(w: World, run: seq<Action>, i: nat, r: nat)
    requires i <= |run|
  {
    exists j :: 0 <= j <= i && ReadNow(Exec(w, run[..j]), r)
  }

  /** Step `i` belongs to an operation that was in flight at `w`, or that began
      in the run: what it uses was in hand, or was read or stored since. */
  ghost predicate GoesOn(w: World, run: seq<Action>, i: nat, f: InFlight)
    requires i < |run|
  {
    match run[i]
    case UpdateSlot(_, Renew(_, event, _)) => event in f.readings || ReadBy(w, run, i, event)
    case MintRenewed(p) => p in f.stored || p !in w.renewals
    case Recheck(g) => g in f.joins || g !in w.joins
    case CreateIndex(g) => g in f.joins || g !in w.joins
    case Mint(g) => g in f.joins || g !in w.joins
    case _ => true
  }

  ghost predicate From(w: World, run: seq<Action>, f: InFlight) {
    forall i :: 0 <= i < |run| ==> GoesOn(w, run, i, f)
  }

  lemma GoesOnSame(w: World, run: seq<Action>, n: nat, i: nat, f: InFlight)
    requires i < n <= |run|
    ensures GoesOn(w, run[..n], i, f) <==> GoesOn(w, run, i, f)
  {
    assert forall j :: 0 <= j <= i ==> run[..n][..j] == run[..j];
  }

  lemma FromFront(w: World, run: seq<Action>, n: nat, f: InFlight)
    requires n <= |run| && From(w, run, f)
    ensures From(w, run[..n], f)
  {
    forall i | 0 <= i < n ensures GoesOn(w, run[..n], i, f) {
      GoesOnSame(w, run, n, i, f);
    }
  }

  lemma FromUpTo(w: World, run: seq<Action>, i: nat, f: InFlight)
    requires i < |run| && From(w, run, f)
    ensures From(w, run[..i] + [run[i]], f)
  {
    FromFront(w, run, i + 1, f);
    assert run[..i + 1] == run[..i] + [run[i]];
  }

  lemma FromNext(w: World, run: seq<Action>, a: Action, f: InFlight)
    requires From(w, run, f) && GoesOn(w, run + [a], |run|, f)
    ensures From(w, run + [a], f)
  {
    assert (run + [a])[..|run|] == run;
    forall i | 0 <= i < |run + [a]| ensures GoesOn(w, run + [a], i, f) {
      if i < |run| {
        GoesOnSame(w, run + [a], |run|, i, f);
      }
    }
  }

  lemma NobodyOpensPrefix(w: World, run: seq<Action>, n: nat, e: Id)
    requires n <= |run| && NobodyOpens(w, run, e)
    ensures NobodyOpens(w, run[..n], e)
  {
    assert forall j :: 0 <= j <= n ==> run[..n][..j] == run[..j];
  }

  /** While the event stays closed nobody reads it as open. */
  lemma NothingOpenIsRead(w: World, run: seq<Action>, i: nat, e: Id, r: nat)
    requires Inv(w) && Closed(w.store.entries, e) && NobodyOpens(w, run, e) && i <= |run| && ReadBy(w, run, i, r)
    ensures !IsOpenEvent(w.store.written, r, e)
  {
    var j :| 0 <= j <= i && ReadNow(Exec(w, run[..j]), r);
    NobodyOpensPrefix(w, run, j, e);
    PauseStopsJoins(w, run[..j], e);
    RunGrows(w, run[..j]);
    LiveVersion(Exec(w, run[..j]), EventKey(EventAt(Exec(w, run[..j]).store.written, r).id));
  }

  // ---------- Renewals ----------

  /** The action renews slot `n`: its compare-and-swap succeeds. */
  predicate RenewsAt(u: World, a: Action, e: Id, n: nat) {
    Enabled(u, a) && a.UpdateSlot? && a.update.Renew? && SlotKey(e, n) in u.store.entries
    && u.store.entries[SlotKey(e, n)].revision == a.revision
  }

  /** Slot `n` can be renewed though nobody opens the event. */
  ghost predicate CanStillRenew(w: World, f: InFlight, e: Id, n: nat) {
    exists run, a :: RenewsLater(w, run, a, f, e, n)
  }

  ghost predicate RenewsLater(w: World, run: seq<Action>, a: Action, f: InFlight, e: Id, n: nat) {
    NobodyOpens(w, run, e) && From(w, run + [a], f) && RenewsAt(Exec(w, run), a, e, n)
  }

  /** A renewal in flight has read the event as open. */
  ghost predicate OpenInHand(w: World, f: InFlight, e: Id) {
    exists r :: r in f.readings && IsOpenEvent(w.store.written, r, e)
  }

  lemma LastGoesOn(w: World, run: seq<Action>, a: Action, f: InFlight)
    requires From(w, run + [a], f)
    ensures From(w, run, f) && GoesOn(w, run + [a], |run|, f)
    ensures forall r :: ReadBy(w, run + [a], |run|, r) ==> ReadBy(w, run, |run|, r)
  {
    FromFront(w, run + [a], |run|, f);
    assert (run + [a])[..|run|] == run;
    assert forall j :: 0 <= j <= |run| ==> (run + [a])[..j] == run[..j];
  }

  lemma RenewalNeedsOpenInHand(w: World, run: seq<Action>, a: Action, f: InFlight, e: Id, n: nat)
    requires Inv(w) && Closed(w.store.entries, e) && RenewsLater(w, run, a, f, e, n)
    ensures OpenInHand(w, f, e)
  {
    InvExec(w, run);
    LiveVersion(Exec(w, run), SlotKey(e, n));
    var r := a.update.event;
    PauseStopsReadings(w, run, e, r);
    LastGoesOn(w, run, a, f);
    if r !in f.readings {
      NothingOpenIsRead(w, run, |run|, e, r);
    }
  }

  /** A guest in its place, unclaimed, whose secret was given out. */
  ghost predicate InPlace(w: World, e: Id, n: nat) {
    && HasSlot(w.store.entries, e, n) && SlotNow(w.store.entries, e, n).cleanup.None?
    && exists q :: q in w.store.written && IndexOf(w.store.written[q], SlotNow(w.store.entries, e, n).digest, e, n)
  }

  predicate IndexOf(x: Write<Key, Value>, d: Digest, e: Id, n: nat) {
    x == Write(SessionKey(d), SessionV(SessionIndex(e, n, false)))
  }

  /** An unclaimed slot as a pause leaves it: reserved, so never overdue. */
  lemma ReservedFirst(w: World, e: Id, n: nat)
    requires Inv(w) && HasSlot(w.store.entries, e, n)
    requires SlotNow(w.store.entries, e, n).cleanup.None? && !SlotNow(w.store.entries, e, n).reserved
    ensures var r := w.store.entries[SlotKey(e, n)].revision;
            var u := Exec(w, [UpdateSlot(r, Reserve)]);
            && HasSlot(u.store.entries, e, n)
            && SlotNow(u.store.entries, e, n) == SlotNow(w.store.entries, e, n).(reserved := true)
            && u.store.entries[SlotKey(e, n)].revision == w.store.revision + 1
            && Extends(w.store.written, u.store.written) && u.clock == w.clock
  {
    var r := w.store.entries[SlotKey(e, n)].revision;
    var a := UpdateSlot(r, Reserve);
    LiveVersion(w, SlotKey(e, n));
    OneMore(w, [], a);
    assert [] + [a] == [a] && Exec(w, []) == w;
    assert Next(w, a) == PerformUpdateSlot(w, r, Reserve).0;
    Show(w);
  }

  lemma RenewalLands(u: World, e: Id, n: nat, q: nat, r: nat)
    requires Inv(u) && HasSlot(u.store.entries, e, n) && IsOpenEvent(u.store.written, r, e)
    requires var v := SlotNow(u.store.entries, e, n);
             && v.cleanup.None? && v.reserved && q in u.store.written && IndexOf(u.store.written[q], v.digest, e, n)
    ensures RenewsAt(u, UpdateSlot(u.store.entries[SlotKey(e, n)].revision, Renew(q, r, u.clock)), e, n)
  {
    LiveVersion(u, SlotKey(e, n));
  }

  lemma InHandCanRenew(w: World, f: InFlight, e: Id, n: nat) returns (run: seq<Action>, a: Action)
    requires Inv(w) && InPlace(w, e, n) && OpenInHand(w, f, e)
    ensures RenewsLater(w, run, a, f, e, n)
    ensures HasSlot(Exec(w, run).store.entries, e, n)
    ensures SlotNow(Exec(w, run).store.entries, e, n).subject == SlotNow(w.store.entries, e, n).subject
  {
    var q :| q in w.store.written && IndexOf(w.store.written[q], SlotNow(w.store.entries, e, n).digest, e, n);
    var r :| r in f.readings && IsOpenEvent(w.store.written, r, e);
    run := if SlotNow(w.store.entries, e, n).reserved then []
           else [UpdateSlot(w.store.entries[SlotKey(e, n)].revision, Reserve)];
    if run != [] {
      ReservedFirst(w, e, n);
    }
    assert Exec(w, []) == w;
    var u := Exec(w, run);
    InvExec(w, run);
    RenewalLands(u, e, n, q, r);
    a := UpdateSlot(u.store.entries[SlotKey(e, n)].revision, Renew(q, r, u.clock));
    assert From(w, run + [a], f);
  }

  /** What a pause stops of renewals: while an event stays closed, a guest in its
      place can still be renewed if and only if a renewal is in flight that has
      read the event as open. */
  lemma PauseStopsExactlyLaterRenewals(w: World, f: InFlight, e: Id, n: nat)
    requires Inv(w) && Closed(w.store.entries, e) && InPlace(w, e, n)
    ensures CanStillRenew(w, f, e, n) <==> OpenInHand(w, f, e)
  {
    if CanStillRenew(w, f, e, n) {
      var run, a :| RenewsLater(w, run, a, f, e, n);
      RenewalNeedsOpenInHand(w, run, a, f, e, n);
    }
    if OpenInHand(w, f, e) {
      var run, a := InHandCanRenew(w, f, e, n);
    }
  }

  // ---------- A concrete input ----------

  /** A guest admitted before the pause. */
  function AdmittedThenPaused(start: Time): seq<Action> {
    LatePause(start)[..4] + [CreateIndex(2), Mint(2), UpdateEvent(2, SetState(Paused))]
  }

  lemma IndexedGuest(y: World)
    requires FirstEvent(y) && FirstGuest(y, Cleared) && SessionKey(Digest(3)) !in y.store.entries &&
             y.store.revision == 3
    ensures var x := PerformCreateIndex(y, 2).0;
            && FirstEvent(x) && FirstGuest(x, Indexed) && x.minted == y.minted
            && x.clock == y.clock && x.store.revision == 4
            && 4 in x.store.written && IndexOf(x.store.written[4], Digest(3), 0, 1)
  {
  }

  lemma AdmittedGuest(cfg: Config, start: Time) returns (z: World)
    requires cfg.maxCapacity >= 1
    ensures Exec(Init(cfg, start), AdmittedThenPaused(start)[..6]) == z
    ensures FirstEvent(z) && FirstGuest(z, Indexed) && z.minted == {Guest(0, 2)}
    ensures z.clock == start && z.store.revision == 4
    ensures 4 in z.store.written && IndexOf(z.store.written[4], Digest(3), 0, 1)
  {
    var run, w0 := AdmittedThenPaused(start), Init(cfg, start);
    var y := JoinedEvent(cfg, start);
    var x := PerformCreateIndex(y, 2).0;
    IndexedGuest(y);
    z := x.(minted := x.minted + {Guest(0, 2)});
    assert run[..4] == LatePause(start)[..4];
    OneMore(w0, run[..4], run[4]);
    OneMore(w0, run[..5], run[5]);
    assert run[..4] + [run[4]] == run[..5] && run[..5] + [run[5]] == run[..6];
  }

  lemma AdmittedThenPausedEvent(cfg: Config, start: Time) returns (u: World)
    requires cfg.maxCapacity >= 1
    ensures Exec(Init(cfg, start), AdmittedThenPaused(start)) == u && Inv(u)
    ensures Closed(u.store.entries, 0) && u.minted == {Guest(0, 2)} && u.clock == start && u.store.revision == 5
    ensures FirstGuest(u, Indexed) && IsOpenEvent(u.store.written, 2, 0)
    ensures 4 in u.store.written && IndexOf(u.store.written[4], Digest(3), 0, 1)
  {
    var run := AdmittedThenPaused(start);
    var z := AdmittedGuest(cfg, start);
    PausedEvent(z);
    OneMore(Init(cfg, start), run[..6], run[6]);
    assert run[..6] + [run[6]] == run;
    InvInit(cfg, start);
    InvExec(Init(cfg, start), run);
    InvExec(Init(cfg, start), run[..6]);
    u := Exec(Init(cfg, start), run);
    RunGrows(z, [run[6]]);
    OneMore(z, [], run[6]);
    assert [] + [run[6]] == [run[6]] && Exec(z, []) == z;
  }

  /** The paused event of that run, its slot reserved: a renewal that had read
      the event as open before still succeeds, and without one in flight none
      does. */
  lemma LatePauseStillRenews(cfg: Config, start: Time)
    requires cfg.maxCapacity >= 1
    ensures var u := Exec(Init(cfg, start), AdmittedThenPaused(start));
            && Closed(u.store.entries, 0) && u.minted == {Guest(0, 2)}
            && RenewsAt(Exec(u, [UpdateSlot(3, Reserve)]), UpdateSlot(6, Renew(4, 2, start)), 0, 1)
            && CanStillRenew(u, InFlight({2}, {}, {}), 0, 1) && !CanStillRenew(u, InFlight({}, {}, {}), 0, 1)
  {
    var u := AdmittedThenPausedEvent(cfg, start);
    ReservedFirst(u, 0, 1);
    InvExec(u, [UpdateSlot(3, Reserve)]);
    RenewalLands(Exec(u, [UpdateSlot(3, Reserve)]), 0, 1, 4, 2);
    PauseStopsExactlyLaterRenewals(u, InFlight({2}, {}, {}), 0, 1);
    PauseStopsExactlyLaterRenewals(u, InFlight({}, {}, {}), 0, 1);
  }

  // ---------- A closed event with nothing open in flight is quiet ----------

  /** If no renewal in flight has read the closed event as open and nobody opens
      it, nobody can renew its slots: a run of the others then meets what
      `rely.quiet` asks of it, and leaves no reading of it as open behind. */
  lemma NothingInFlightIsQuiet(w: World, run: seq<Action>, f: InFlight, rely: Rely)
    requires Inv(w) && rely.quiet.Some? && Closed(w.store.entries, rely.quiet.value)
    requires NobodyOpens(w, run, rely.quiet.value) && From(w, run, f) && !OpenInHand(w, f, rely.quiet.value)
    requires EnvironmentRun(w, run, rely.(quiet := None))
    ensures EnvironmentRun(w, run, rely)
    ensures forall r :: ReadBy(w, run, |run|, r) ==> !IsOpenEvent(Exec(w, run).store.written, r, rely.quiet.value)
  {
    var e := rely.quiet.value;
    forall i | 0 <= i < |run| ensures EnvironmentStep(Exec(w, run[..i]), run[i], rely) {
      assert EnvironmentStep(Exec(w, run[..i]), run[i], rely.(quiet := None));
      if Enabled(Exec(w, run[..i]), run[i]) {
        QuietStepHere(w, run, i, f, e);
      }
    }
    forall r | ReadBy(w, run, |run|, r) ensures !IsOpenEvent(Exec(w, run).store.written, r, e) {
      NothingOpenIsRead(w, run, |run|, e, r);
      PauseStopsReadings(w, run, e, r);
    }
  }

  lemma QuietStepHere(w: World, run: seq<Action>, i: nat, f: InFlight, e: Id)
    requires Inv(w) && Closed(w.store.entries, e) && i < |run|
    requires NobodyOpens(w, run, e) && From(w, run, f) && !OpenInHand(w, f, e)
    requires Enabled(Exec(w, run[..i]), run[i])
    ensures QuietStep(Exec(w, run[..i]), run[i], e)
  {
    var u, a := Exec(w, run[..i]), run[i];
    assert StaysClosed(u, a, e) && GoesOn(w, run, i, f);
    if a.UpdateSlot? && a.update.Renew? && SlotAt(u.store.written, a.revision).eventId == e {
      NobodyOpensPrefix(w, run, i, e);
      PauseStopsReadings(w, run[..i], e, a.update.event);
      if a.update.event !in f.readings {
        NothingOpenIsRead(w, run, i, e, a.update.event);
      }
      assert false;
    }
  }
}
