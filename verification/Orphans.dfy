/** Guests of an event that its own creation removed again: they keep their
    places, and no operation that begins afterwards finds them
    (internal/access/service.go:109-111). */
module Orphans {
  import opened KvStore
  import opened Model
  import opened Protocol
  import opened Invariants
  import opened Preservation
  import opened Fates
  import opened Runs
  import opened Guarantees
  import opened Tenancy
  import Recovery

  /** The event was there once, is gone, and was never deleted. */
  predicate Undone(w: World, e: Id) {
    e < w.drawn && EventKey(e) !in w.store.entries && e !in w.doomed
  }

  lemma DoomNeedsEvent(w: World, a: Action, e: Id)
    requires Inv(w) && Enabled(w, a) && Undone(w, e)
    ensures e !in Perform(w, a).0.doomed
  {
    if a.UpdateEvent? {
      assert Perform(w, a).0 == PerformUpdateEvent(w, a.revision, a.change).0;
      WriteTyped(w, a.revision);
    } else if TouchesSlots(a) {
      SlotStepsDoomNone(w, a);
    } else if OnInvitations(a) {
      EventStepsDoomNone(w, a);
    } else {
      OtherStepsDoomNone(w, a);
    }
  }

  lemma UndoneStep(w: World, a: Action, e: Id)
    requires Inv(w) && Enabled(w, a) && Undone(w, e)
    ensures Undone(Perform(w, a).0, e)
  {
    StoreFollows(w, a);
    PerformGrows(w, a);
    EventBirth(w, a, e);
    DoomNeedsEvent(w, a, e);
  }

  lemma {:induction false} UndoneForGood(w: World, run: seq<Action>, e: Id)
    requires Inv(w) && Undone(w, e)
    ensures Inv(Exec(w, run)) && Undone(Exec(w, run), e)
  {
    InvExec(w, run);
    if run != [] {
      var front, a := run[..|run| - 1], run[|run| - 1];
      UndoneForGood(w, front, e);
      if Enabled(Exec(w, front), a) {
        UndoneStep(Exec(w, front), a, e);
      }
    }
  }

  /** Nothing of an undone event is an intent any recovery pass lists, at any
      later time, and no receipt will ever stand for it. */
  lemma UndoneIsNeverListed(w: World, run: seq<Action>, e: Id, k: Key, t: Time)
    requires Inv(w) && Undone(w, e) && (k.EventKey? || k.SlotKey?) && k.eventId == e
    ensures Recovery.IntentAt(Exec(w, run).store.entries, t, k).None?
    ensures !HasReceipt(Exec(w, run).store.entries, e)
  {
    UndoneForGood(w, run, e);
    if HasReceipt(Exec(w, run).store.entries, e) {
      ReceiptTyped(Exec(w, run), e);
    }
  }

  /** No claim on slot `n` succeeds in the run. */
  ghost predicate NobodyClaims(w: World, run: seq<Action>, e: Id, n: nat) {
    forall i :: 0 <= i < |run| ==> !(Hits(Exec(w, run[..i]), run[i], e, n) && run[i].update.Claim?)
  }

  /** A guest of an undone event stays in its place in every run, unless a worker
      claims its slot, for which it must have read the event before. */
  lemma {:induction false} OrphanStays(w: World, run: seq<Action>, e: Id, n: nat, g: Id)
    requires Reachable(w) && Undone(w, e) && Tenant(w, e, n, g) && NobodyClaims(w, run, e, n)
    ensures Tenant(Exec(w, run), e, n, g)
  {
    if run != [] {
      var front, a := run[..|run| - 1], run[|run| - 1];
      assert forall i :: 0 <= i < |front| ==> front[..i] == run[..i];
      OrphanStays(w, front, e, n, g);
      ReachableExec(w, front);
      InvHolds(w);
      UndoneForGood(w, front, e);
      var u := Exec(w, front);
      assert !(Hits(u, a, e, n) && a.update.Claim?) by { assert run[..|run| - 1] == front; }
      if Enabled(u, a) {
        NoEarlyReclaim(u, a, e, n, g);
        if HasReceipt(u.store.entries, e) {
          ReceiptTyped(u, e);
        }
      }
    }
  }

  /** From every world in which a creation is unfinished and its event not being
      deleted, the undo leaves each guest admitted by then in its place, with the
      event undone. */
  lemma UndoOrphansItsGuests(w: World, e: Id, n: nat, g: Id)
    requires Reachable(w) && e in w.opening && Tenant(w, e, n, g)
    requires HasEvent(w.store.entries, e) && EventNow(w.store.entries, e).state != Deleting
    ensures var u := Exec(w, [UndoCreateEvent(e)]);
            Reachable(u) && Undone(u, e) && Tenant(u, e, n, g) && u.minted == w.minted && u.acked == w.acked
  {
    InvHolds(w);
    DoomedTyped(w, e);
    LiveVersion(w, EventKey(e));
    ReachableExec(w, [UndoCreateEvent(e)]);
    OneMore(w, [], UndoCreateEvent(e));
    assert [] + [UndoCreateEvent(e)] == [UndoCreateEvent(e)] && Exec(w, []) == w;
    assert Exec(w, [UndoCreateEvent(e)]) == PerformUndoCreate(w, e).0;
  }

  // ---------- A concrete input ----------

  /** Before the very first event's creation has stored its invitation, another
      process opens the event and rotates its invitation, and a guest joins. */
  function JoinedEarly(start: Time): seq<Action> {
    [CreateEvent(1), UpdateEvent(1, SetState(Open)), OfferInvitation(2), UpdateEvent(2, Rotate(Digest(2))),
     WithdrawInvitation(Digest(1)), CreateSlot(4, 1, start), Recheck(3), CreateIndex(3), Mint(3)]
  }

  lemma Extend(w0: World, run: seq<Action>, i: nat)
    requires i < |run|
    ensures Exec(w0, run[..i + 1]) == Next(Exec(w0, run[..i]), run[i])
  {
    OneMore(w0, run[..i], run[i]);
    assert run[..i] + [run[i]] == run[..i + 1];
  }

  lemma ExtendTwice(w0: World, run: seq<Action>, i: nat)
    requires i + 1 < |run|
    ensures Exec(w0, run[..i + 2]) == Next(Next(Exec(w0, run[..i]), run[i]), run[i + 1])
  {
    Extend(w0, run, i);
    Extend(w0, run, i + 1);
  }

  lemma ExtendThrice(w0: World, run: seq<Action>, i: nat)
    requires i + 2 < |run|
    ensures Exec(w0, run[..i + 3]) == Next(Next(Next(Exec(w0, run[..i]), run[i]), run[i + 1]), run[i + 2])
  {
    Extend(w0, run, i);
    Extend(w0, run, i + 1);
    Extend(w0, run, i + 2);
  }

  predicate OpenedEarly(w: World) {
    && w.store.entries.Keys == {EventKey(0)} && w.store.entries[EventKey(0)].revision == 2 && w.store.revision == 2
    && IsEvent(w.store.written, 2) && EventAt(w.store.written, 2) == Event(0, 1, Open, Digest(1), None, None)
    && w.drawn == 2 && w.opening == map[0 := Digest(1)] && w.offers == map[]
    && w.joins == map[] && w.minted == {} && w.acked == {}
  }

  lemma OpensEarly(cfg: Config, start: Time) returns (w: World)
    requires cfg.maxCapacity >= 1
    ensures w == Exec(Init(cfg, start), JoinedEarly(start)[..2]) && OpenedEarly(w) && w.clock == start
  {
    var w0, run := Init(cfg, start), JoinedEarly(start);
    var w1 := PerformCreateEvent(w0, 1).0;
    w := PerformUpdateEvent(w1, 1, SetState(Open)).0;
    Extend(w0, run, 0);
    Extend(w0, run, 1);
    assert run[..0] == [] && Exec(w0, []) == w0;
  }

  /** The event under its second invitation, its creation still unfinished. */
  predicate RotatedEarly(w: World) {
    && w.store.entries.Keys == {EventKey(0), InvitationKey(Digest(2))} && w.store.revision == 4
    && w.store.entries[EventKey(0)].revision == 4
    && w.store.entries[EventKey(0)].value == EventV(Event(0, 1, Open, Digest(2), None, None))
    && IsEvent(w.store.written, 4) && EventAt(w.store.written, 4) == Event(0, 1, Open, Digest(2), None, None)
    && w.drawn == 3 && w.opening == map[0 := Digest(1)]
    && w.joins == map[] && w.minted == {} && w.acked == {}
  }

  predicate OfferedEarly(w: World) {
    && w.store.entries.Keys == {EventKey(0), InvitationKey(Digest(2))}
    && w.store.entries[EventKey(0)].revision == 2 && w.store.revision == 3
    && IsEvent(w.store.written, 2) && EventAt(w.store.written, 2) == Event(0, 1, Open, Digest(1), None, None)
    && w.drawn == 3 && w.opening == map[0 := Digest(1)] && w.offers == map[Digest(2) := Offered(2)]
    && w.joins == map[] && w.minted == {} && w.acked == {}
  }

  lemma Offers(w: World)
    requires OpenedEarly(w)
    ensures var v := Next(w, OfferInvitation(2));
            OfferedEarly(v) && v.clock == w.clock
  {
    assert Next(w, OfferInvitation(2)) == PerformOffer(w, 2).0;
  }

  lemma Rotates(w: World)
    requires OfferedEarly(w)
    ensures var v := Next(Next(w, UpdateEvent(2, Rotate(Digest(2)))), WithdrawInvitation(Digest(1)));
            RotatedEarly(v) && v.clock == w.clock
  {
    var v := PerformUpdateEvent(w, 2, Rotate(Digest(2))).0;
    assert Next(w, UpdateEvent(2, Rotate(Digest(2)))) == v;
    assert Next(v, WithdrawInvitation(Digest(1))) == PerformWithdraw(v, Digest(1)).0;
  }

  predicate SeatedEarly(w: World, phase: Phase) {
    && HasEvent(w.store.entries, 0) && EventNow(w.store.entries, 0) == Event(0, 1, Open, Digest(2), None, None)
    && w.opening == map[0 := Digest(1)] && w.acked == {}
    && w.joins.Keys == {3} && w.joins[3] == Join(0, 1, Digest(4), 5, 4, phase)
    && HasSlot(w.store.entries, 0, 1) && SlotNow(w.store.entries, 0, 1).generation == 3
    && SlotNow(w.store.entries, 0, 1).cleanup.None?
    && (phase != Indexed ==> SessionKey(Digest(4)) !in w.store.entries)
  }

  lemma Seats(w: World)
    requires RotatedEarly(w)
    ensures SeatedEarly(Next(w, CreateSlot(4, 1, w.clock)), Created)
    ensures Next(w, CreateSlot(4, 1, w.clock)).minted == {}
  {
    assert Next(w, CreateSlot(4, 1, w.clock)) == PerformCreateSlot(w, 4, 1, w.clock).0;
  }

  lemma RechecksEarly(w: World)
    requires SeatedEarly(w, Created)
    ensures SeatedEarly(Next(w, Recheck(3)), Cleared) && Next(w, Recheck(3)).minted == w.minted
  {
    assert Next(w, Recheck(3)) == PerformRecheck(w, 3).0;
  }

  lemma Admits(w: World)
    requires SeatedEarly(w, Created) && w.minted == {}
    ensures var u := Next(Next(Next(w, Recheck(3)), CreateIndex(3)), Mint(3));
            SeatedEarly(u, Indexed) && u.minted == {Guest(0, 3)}
  {
    RechecksEarly(w);
    var u := Next(w, Recheck(3));
    var v := PerformCreateIndex(u, 3).0;
    assert Next(u, CreateIndex(3)) == v && SeatedEarly(v, Indexed);
    assert Next(v, Mint(3)) == v.(minted := v.minted + {Guest(0, 3)});
  }

  lemma EarlyOffer(cfg: Config, start: Time) returns (w: World)
    requires cfg.maxCapacity >= 1
    ensures w == Exec(Init(cfg, start), JoinedEarly(start)[..3]) && OfferedEarly(w) && w.clock == start
  {
    var v := OpensEarly(cfg, start);
    Offers(v);
    Extend(Init(cfg, start), JoinedEarly(start), 2);
    w := Next(v, OfferInvitation(2));
  }

  lemma EarlyRotation(cfg: Config, start: Time) returns (w: World)
    requires cfg.maxCapacity >= 1
    ensures w == Exec(Init(cfg, start), JoinedEarly(start)[..5]) && RotatedEarly(w) && w.clock == start
  {
    var v := EarlyOffer(cfg, start);
    Rotates(v);
    ExtendTwice(Init(cfg, start), JoinedEarly(start), 3);
    w := Next(Next(v, UpdateEvent(2, Rotate(Digest(2)))), WithdrawInvitation(Digest(1)));
  }

  lemma GuestJoinsEarly(cfg: Config, start: Time) returns (x: World)
    requires cfg.maxCapacity >= 1
    ensures x == Exec(Init(cfg, start), JoinedEarly(start)[..6]) && SeatedEarly(x, Created) && x.minted == {}
  {
    var w := EarlyRotation(cfg, start);
    Extend(Init(cfg, start), JoinedEarly(start), 5);
    Seats(w);
    x := Next(w, CreateSlot(4, 1, start));
  }

  lemma GuestIsAdmittedEarly(cfg: Config, start: Time) returns (v: World)
    requires cfg.maxCapacity >= 1
    ensures v == Exec(Init(cfg, start), JoinedEarly(start)) && SeatedEarly(v, Indexed) && v.minted == {Guest(0, 3)}
  {
    var w0, run := Init(cfg, start), JoinedEarly(start);
    var x := GuestJoinsEarly(cfg, start);
    Admits(x);
    ExtendThrice(w0, run, 6);
    assert run[..9] == run;
    v := Exec(w0, run);
  }

  /** That run, and then the undo: the guest has a token and its place, nobody
      erased it, and its event is gone without a receipt; no recovery pass will
      ever list it. */
  lemma UndoOrphansAGuest(cfg: Config, start: Time, more: seq<Action>, t: Time)
    requires cfg.maxCapacity >= 1
    ensures var u := Exec(Init(cfg, start), JoinedEarly(start) + [UndoCreateEvent(0)]);
            && Reachable(u) && u.minted == {Guest(0, 3)} && u.acked == {} && Tenant(u, 0, 1, 3) && Undone(u, 0)
            && !HasReceipt(Exec(u, more).store.entries, 0)
            && Recovery.IntentAt(Exec(u, more).store.entries, t, SlotKey(0, 1)).None?
  {
    var v := GuestIsAdmittedEarly(cfg, start);
    assert Reachable(v);
    UndoOrphansItsGuests(v, 0, 1, 3);
    OneMore(Init(cfg, start), JoinedEarly(start), UndoCreateEvent(0));
    OneMore(v, [], UndoCreateEvent(0));
    assert [] + [UndoCreateEvent(0)] == [UndoCreateEvent(0)] && Exec(v, []) == v;
    var u := Exec(v, [UndoCreateEvent(0)]);
    InvHolds(u);
    UndoneIsNeverListed(u, more, 0, SlotKey(0, 1), t);
  }
}
