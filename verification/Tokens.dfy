/** Exactly who can still be given a token while an event stays closed: what a
    pause stops, of tokens, and what it leaves to finish. */
module Tokens {
  import opened KvStore
  import opened Model
  import opened Protocol
  import opened Invariants
  import opened Preservation
  import opened Fates
  import opened Frames
  import opened Runs
  import opened Guarantees
  import opened Tenancy
  import opened Interference
  import opened Pausing

  // ---------- Where stored renewals and session indexes come from ----------

  /** The renewal stored as version `p` entitles the guest to a token. */
  predicate TokenDue(w: World, p: nat, x: Guest) {
    p in w.renewals && IsSlot(w.store.written, p) && SlotAt(w.store.written, p).subject == x
  }

  predicate Renews(a: Action) {
    a.UpdateSlot? && a.update.Renew?
  }

  /** What storing a renewal records. */
  lemma RenewStores(u: World, r: nat, c: SlotChange)
    requires Inv(u) && IsSlot(u.store.written, r) && SlotChangeAllowed(u, r, c) && c.Renew?
    ensures var v, p := SlotAt(u.store.written, r), u.store.revision + 1;
            var k, u' := SlotKey(v.eventId, v.number), PerformUpdateSlot(u, r, c).0;
            if k in u.store.entries && u.store.entries[k].revision == r then
              u'.renewals == u.renewals + {p} && TokenDue(u', p, v.subject)
            else
              u'.renewals == u.renewals
  {
  }

  lemma NextRevisionUnrenewed(u: World)
    requires Inv(u)
    ensures u.store.revision + 1 !in u.renewals
  {
    Show(u);
  }

  /** A renewal is stored by a compare-and-swap on the live slot of its guest. */
  lemma NewRenewal(u: World, a: Action, p: nat)
    requires Inv(u) && Enabled(u, a) && p in Perform(u, a).0.renewals && p !in u.renewals
    ensures Renews(a) && IsSlot(u.store.written, a.revision)
    ensures var v := SlotAt(u.store.written, a.revision);
            && RenewsAt(u, a, v.eventId, v.number) && p == u.store.revision + 1
            && TokenDue(Perform(u, a).0, p, v.subject)
  {
    if Renews(a) {
      RenewStores(u, a.revision, a.update);
    } else {
      LeavesRenewals(u, a);
    }
  }

  /** A renewal that succeeds at `u`, some way into a run from `w`. */
  predicate RenewedBy(u: World, a: Action, x: Guest) {
    && Enabled(u, a) && Renews(a) && IsSlot(u.store.written, a.revision)
    && var v := SlotAt(u.store.written, a.revision);
       v.subject == x && RenewsAt(u, a, v.eventId, v.number)
  }

  lemma TokenDueBefore(u: World, a: Action, p: nat, x: Guest)
    requires Inv(u) && TokenDue(Next(u, a), p, x) && p in u.renewals
    ensures TokenDue(u, p, x)
  {
    MintTyped(u);
    if Enabled(u, a) {
      PerformGrows(u, a);
    }
  }

  lemma {:induction false} RenewalStored(w: World, run: seq<Action>, p: nat, x: Guest) returns (i: nat)
    requires Inv(w) && TokenDue(Exec(w, run), p, x) && p !in w.renewals
    ensures i < |run| && RenewedBy(Exec(w, run[..i]), run[i], x)
  {
    var front, a := run[..|run| - 1], run[|run| - 1];
    InvExec(w, front);
    var u := Exec(w, front);
    if p in u.renewals {
      TokenDueBefore(u, a, p, x);
      i := RenewalStored(w, front, p, x);
      assert front[..i] == run[..i];
    } else {
      i := |front|;
      NewRenewal(u, a, p);
    }
  }

  /** A session index comes into the history by the join of its guest. */
  lemma NewIndex(u: World, a: Action, q: nat, g: Id, x: SessionIndex)
    requires Inv(u) && Enabled(u, a) && !x.deleted && q !in u.store.written
    requires q in Perform(u, a).0.store.written
    requires Perform(u, a).0.store.written[q] == Write(SessionKey(Digest(g + 1)), SessionV(x))
    ensures a == CreateIndex(g)
  {
    Show(u);
    StoreFollows(u, a);
    if OpOf(u, a).Some? {
      CallVersion(u.store, OpOf(u, a).value, q);
    }
    if a.CreateIndex? {
      JoinTyped(u, a.generation);
    }
  }

  lemma {:induction false} IndexStored(w: World, run: seq<Action>, q: nat, g: Id, x: SessionIndex) returns (i: nat)
    requires Inv(w) && !x.deleted && q !in w.store.written && q in Exec(w, run).store.written
    requires Exec(w, run).store.written[q] == Write(SessionKey(Digest(g + 1)), SessionV(x))
    ensures i < |run| && run[i] == CreateIndex(g)
  {
    var front, a := run[..|run| - 1], run[|run| - 1];
    InvExec(w, front);
    var u := Exec(w, front);
    if q in u.store.written {
      if Enabled(u, a) {
        PerformGrows(u, a);
      }
      i := IndexStored(w, front, q, g, x);
    } else {
      i := |front|;
      NewIndex(u, a, q, g, x);
    }
  }

  // ---------- Places over a run ----------

  lemma {:induction false} HeldBefore(w: World, run: seq<Action>, g: Id)
    requires Inv(w) && g in w.joins && Holds(Exec(w, run).store.entries, w.joins[g], g)
    ensures Holds(w.store.entries, w.joins[g], g)
  {
    if run != [] {
      var front, a := run[..|run| - 1], run[|run| - 1];
      RunGrows(w, front);
      var u := Exec(w, front);
      SamePlace(w, u, g);
      if Enabled(u, a) {
        NoneReturnsStep(u, a, g);
      }
      HeldBefore(w, front, g);
    }
  }

  /** A place held unclaimed after a run was held unclaimed before it. */
  lemma UnclaimedBefore(w: World, run: seq<Action>, g: Id)
    requires Inv(w) && Sticky(w.store) && g in w.joins && Holds(Exec(w, run).store.entries, w.joins[g], g)
    requires SlotNow(Exec(w, run).store.entries, w.joins[g].eventId, w.joins[g].number).cleanup.None?
    ensures Holds(w.store.entries, w.joins[g], g)
    ensures SlotNow(w.store.entries, w.joins[g].eventId, w.joins[g].number).cleanup.None?
  {
    HeldBefore(w, run, g);
    StickyExec(w, run);
    RunGrows(w, run);
    var k := SlotKey(w.joins[g].eventId, w.joins[g].number);
    LiveVersion(w, k);
    var u := Exec(w, run);
    assert StickyAt(u.store.written[w.store.entries[k].revision], u.store.entries);
  }

  // ---------- Tokens ----------

  /** The action gives the guest a token. */
  predicate GivesToken(u: World, a: Action, x: Guest) {
    && Enabled(u, a)
    && ((a.Mint? && Guest(u.joins[a.generation].eventId, a.generation) == x)
        || (a.MintRenewed? && SlotAt(u.store.written, a.revision).subject == x))
  }

  /** The guest can be given a token though nobody opens its event. */
  ghost predicate CanStillGetToken(w: World, f: InFlight, x: Guest) {
    exists run, a :: GivenLater(w, run, a, f, x)
  }

  ghost predicate GivenLater(w: World, run: seq<Action>, a: Action, f: InFlight, x: Guest) {
    NobodyOpens(w, run, x.eventId) && From(w, run + [a], f) && GivesToken(Exec(w, run), a, x)
  }

  /** Its join is in flight, and past the recheck. */
  predicate JoinInFlight(w: World, f: InFlight, x: Guest) {
    x.generation in f.joins && WasPast(w, x)
  }

  /** A renewal of it is stored, and its token not minted yet. */
  ghost predicate RenewalInFlight(w: World, f: InFlight, x: Guest) {
    exists p :: p in f.stored && TokenDue(w, p, x)
  }

  /** It is in its place, and a renewal in flight has read its event as open. */
  ghost predicate ReadingInFlight(w: World, f: InFlight, x: Guest) {
    && x.generation in w.joins && w.joins[x.generation].eventId == x.eventId
    && Holds(w.store.entries, w.joins[x.generation], x.generation)
    && InPlace(w, x.eventId, w.joins[x.generation].number)
    && OpenInHand(w, f, x.eventId)
  }

  lemma JoinTokenNeedsJoin(w: World, run: seq<Action>, a: Action, f: InFlight, x: Guest)
    requires Inv(w) && Closed(w.store.entries, x.eventId) && GivenLater(w, run, a, f, x) && a.Mint?
    ensures JoinInFlight(w, f, x)
  {
    PauseStopsJoins(w, run, x.eventId);
    RunGrows(w, run);
    LastGoesOn(w, run, a, f);
  }

  lemma RenewedSlot(u: World, a: Action, x: Guest)
    requires Inv(u) && RenewedBy(u, a, x)
    ensures var v, q := SlotAt(u.store.written, a.revision), a.update.index;
            && v.eventId == x.eventId && v.generation == x.generation && v.digest == Digest(x.generation + 1)
            && HasSlot(u.store.entries, v.eventId, v.number) && SlotNow(u.store.entries, v.eventId, v.number) == v
            && v.cleanup.None? && x.generation in u.joins && Holds(u.store.entries, u.joins[x.generation], x.generation)
            && u.joins[x.generation].eventId == x.eventId && u.joins[x.generation].number == v.number
            && u.joins[x.generation].phase == Indexed
            && q in u.store.written && IndexOf(u.store.written[q], v.digest, v.eventId, v.number)
  {
    WriteTyped(u, a.revision);
    WriteTyped(u, a.update.index);
    LiveVersion(u, SlotKey(SlotAt(u.store.written, a.revision).eventId, SlotAt(u.store.written, a.revision).number));
  }

  /** Of a guest renewed in the run: its join was past the recheck before, and it
      was in its place, unclaimed. */
  lemma RenewedWasThere(w: World, run: seq<Action>, a: Action, x: Guest)
    requires Inv(w) && Sticky(w.store) && Closed(w.store.entries, x.eventId) && NobodyOpens(w, run, x.eventId)
    requires RenewedBy(Exec(w, run), a, x)
    ensures WasPast(w, x) && Holds(w.store.entries, w.joins[x.generation], x.generation)
    ensures SlotNow(w.store.entries, x.eventId, w.joins[x.generation].number).cleanup.None?
    ensures SlotNow(w.store.entries, x.eventId, w.joins[x.generation].number).digest == Digest(x.generation + 1)
    ensures SlotAt(Exec(w, run).store.written, a.revision).number == w.joins[x.generation].number
  {
    PauseStopsJoins(w, run, x.eventId);
    RunGrows(w, run);
    RenewedSlot(Exec(w, run), a, x);
    UnclaimedBefore(w, run, x.generation);
    LiveVersion(w, SlotKey(x.eventId, w.joins[x.generation].number));
  }

  lemma RenewedFromHand(w: World, run: seq<Action>, a: Action, f: InFlight, x: Guest)
    requires Inv(w) && Closed(w.store.entries, x.eventId) && NobodyOpens(w, run, x.eventId)
    requires From(w, run + [a], f) && RenewedBy(Exec(w, run), a, x)
    ensures OpenInHand(w, f, x.eventId)
  {
    InvExec(w, run);
    RenewedSlot(Exec(w, run), a, x);
    var n := SlotAt(Exec(w, run).store.written, a.revision).number;
    assert RenewsLater(w, run, a, f, x.eventId, n);
    RenewalNeedsOpenInHand(w, run, a, f, x.eventId, n);
  }

  /** The index a renewal presents was stored before, or by its join since. */
  lemma IndexInHand(w: World, run: seq<Action>, a: Action, f: InFlight, x: Guest)
    requires Inv(w) && From(w, run, f) && RenewedBy(Exec(w, run), a, x) && x.generation in w.joins
    ensures var q, n := a.update.index, SlotAt(Exec(w, run).store.written, a.revision).number;
            || x.generation in f.joins
            || (q in w.store.written && IndexOf(w.store.written[q], Digest(x.generation + 1), x.eventId, n))
  {
    var q, n := a.update.index, SlotAt(Exec(w, run).store.written, a.revision).number;
    RunGrows(w, run);
    RenewedSlot(Exec(w, run), a, x);
    if q !in w.store.written {
      var j := IndexStored(w, run, q, x.generation, SessionIndex(x.eventId, n, false));
      assert GoesOn(w, run, j, f);
    }
  }

  /** ... and the renewal was in flight, or else its join. */
  lemma StoredRenewalNeedsReading(w: World, run: seq<Action>, a: Action, f: InFlight, x: Guest)
    requires Inv(w) && Sticky(w.store) && Closed(w.store.entries, x.eventId) && NobodyOpens(w, run, x.eventId)
    requires From(w, run + [a], f) && RenewedBy(Exec(w, run), a, x)
    ensures JoinInFlight(w, f, x) || ReadingInFlight(w, f, x)
  {
    RenewedWasThere(w, run, a, x);
    RenewedFromHand(w, run, a, f, x);
    LastGoesOn(w, run, a, f);
    IndexInHand(w, run, a, f, x);
  }

  lemma StoredSinceNeedsReading(w: World, run: seq<Action>, p: nat, f: InFlight, x: Guest)
    requires Inv(w) && Sticky(w.store) && Closed(w.store.entries, x.eventId) && NobodyOpens(w, run, x.eventId)
    requires From(w, run, f) && p !in w.renewals && TokenDue(Exec(w, run), p, x)
    ensures JoinInFlight(w, f, x) || ReadingInFlight(w, f, x)
  {
    var i := RenewalStored(w, run, p, x);
    NobodyOpensPrefix(w, run, i, x.eventId);
    FromUpTo(w, run, i, f);
    StoredRenewalNeedsReading(w, run[..i], run[i], f, x);
  }

  lemma RenewedTokenNeedsFlight(w: World, run: seq<Action>, a: Action, f: InFlight, x: Guest)
    requires Inv(w) && Sticky(w.store) && Closed(w.store.entries, x.eventId)
    requires GivenLater(w, run, a, f, x) && a.MintRenewed?
    ensures JoinInFlight(w, f, x) || RenewalInFlight(w, f, x) || ReadingInFlight(w, f, x)
  {
    var p := a.revision;
    LastGoesOn(w, run, a, f);
    RunGrows(w, run);
    if p in w.renewals {
      MintTyped(w);
      assert TokenDue(w, p, x);
    } else {
      StoredSinceNeedsReading(w, run, p, f, x);
    }
  }

  lemma JoinInFlightGetsToken(w: World, f: InFlight, x: Guest)
    requires Inv(w) && JoinInFlight(w, f, x)
    ensures GivenLater(w, [CreateIndex(x.generation)], Mint(x.generation), f, x)
  {
    var g := x.generation;
    IndexedNext(w, g);
    OneMore(w, [], CreateIndex(g));
    assert [] + [CreateIndex(g)] == [CreateIndex(g)] && Exec(w, []) == w;
  }

  lemma RenewalInFlightGetsToken(w: World, f: InFlight, x: Guest, p: nat)
    requires p in f.stored && TokenDue(w, p, x)
    ensures GivenLater(w, [], MintRenewed(p), f, x)
  {
    assert Exec(w, []) == w;
  }

  lemma RenewedGetsToken(u: World, a: Action, e: Id, n: nat)
    requires Inv(u) && RenewsAt(u, a, e, n) && HasSlot(u.store.entries, e, n)
    ensures u.store.revision + 1 !in u.renewals
    ensures TokenDue(Next(u, a), u.store.revision + 1, SlotNow(u.store.entries, e, n).subject)
  {
    LiveVersion(u, SlotKey(e, n));
    RenewStores(u, a.revision, a.update);
    NextRevisionUnrenewed(u);
    assert Next(u, a) == PerformUpdateSlot(u, a.revision, a.update).0;
  }

  lemma TokenNext(w: World, run: seq<Action>, f: InFlight, p: nat, x: Guest)
    requires NobodyOpens(w, run, x.eventId) && From(w, run, f)
    requires p !in w.renewals && TokenDue(Exec(w, run), p, x)
    ensures GivenLater(w, run, MintRenewed(p), f, x)
  {
    FromNext(w, run, MintRenewed(p), f);
  }

  lemma NobodyOpensNext(w: World, run: seq<Action>, a: Action, e: Id)
    requires NobodyOpens(w, run, e) && !a.UpdateEvent?
    ensures NobodyOpens(w, run + [a], e)
  {
    assert forall j :: 0 <= j <= |run| ==> (run + [a])[..j] == run[..j];
  }

  lemma PlaceIsHers(w: World, x: Guest)
    requires Inv(w) && x.generation in w.joins && w.joins[x.generation].eventId == x.eventId
    requires Holds(w.store.entries, w.joins[x.generation], x.generation)
    ensures SlotNow(w.store.entries, x.eventId, w.joins[x.generation].number).subject == x
  {
    LiveVersion(w, SlotKey(x.eventId, w.joins[x.generation].number));
  }

  lemma ReadingInFlightGetsToken(w: World, f: InFlight, x: Guest) returns (run: seq<Action>, a: Action)
    requires Inv(w) && ReadingInFlight(w, f, x)
    ensures GivenLater(w, run, a, f, x)
  {
    var e, n := x.eventId, w.joins[x.generation].number;
    var before, b := InHandCanRenew(w, f, e, n);
    var u := Exec(w, before);
    RunGrows(w, before);
    PlaceIsHers(w, x);
    RenewedGetsToken(u, b, e, n);
    OneMore(w, before, b);
    NobodyOpensNext(w, before, b, e);
    run, a := before + [b], MintRenewed(u.store.revision + 1);
    TokenNext(w, run, f, u.store.revision + 1, x);
  }

  /** What a pause stops of tokens: while an event stays closed, a guest can still
      be given one if and only if its join is in flight past the recheck, or a
      renewal of it is stored and in flight, or it is in its place and a renewal
      in flight has read the event as open. */
  lemma PauseStopsExactlyLaterTokens(w: World, f: InFlight, x: Guest)
    requires Inv(w) && Sticky(w.store) && Closed(w.store.entries, x.eventId)
    ensures CanStillGetToken(w, f, x) <==>
            JoinInFlight(w, f, x) || RenewalInFlight(w, f, x) || ReadingInFlight(w, f, x)
  {
    if CanStillGetToken(w, f, x) {
      var run, a :| GivenLater(w, run, a, f, x);
      if a.Mint? {
        JoinTokenNeedsJoin(w, run, a, f, x);
      } else {
        RenewedTokenNeedsFlight(w, run, a, f, x);
      }
    }
    if JoinInFlight(w, f, x) {
      JoinInFlightGetsToken(w, f, x);
    } else if RenewalInFlight(w, f, x) {
      var p :| p in f.stored && TokenDue(w, p, x);
      RenewalInFlightGetsToken(w, f, x, p);
    } else if ReadingInFlight(w, f, x) {
      var run, a := ReadingInFlightGetsToken(w, f, x);
    }
  }
}
