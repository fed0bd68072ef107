/** Each action keeps the invariant. */
module Preservation {
  import opened KvStore
  import opened Model
  import opened Protocol
  import opened Invariants

  // ---------- Events and invitations ----------

  lemma CreateEventKeeps(w: World, capacity: nat)
    requires Inv(w)
    ensures Inv(PerformCreateEvent(w, capacity).0)
  {
    var ev := Event(w.drawn, capacity, Draft, Digest(w.drawn + 1), None, None);
    var k := EventKey(ev.id);
    if k !in w.store.entries {
      DoomedTyped(w, ev.id);
      PutKeeps(w, k, EventV(ev), w.doomed, w.drawn + 2);
      var u := w.(store := Put(w.store, k, EventV(ev)).0, doomed := w.doomed, drawn := w.drawn + 2);
      MintTyped(w);
      HeldKeeps(u, w.opening[ev.id := ev.invitation], w.offers);
      assert PerformCreateEvent(w, capacity).0 == u.(opening := w.opening[ev.id := ev.invitation], offers := w.offers);
    }
  }

  lemma CreateInvitationKeeps(w: World, e: Id)
    requires Inv(w) && e in w.opening
    ensures Inv(PerformCreateInvitation(w, e).0)
  {
    MintTyped(w);
    var k := InvitationKey(w.opening[e]);
    if k !in w.store.entries {
      PutKeeps(w, k, InvitationV(e), w.doomed, w.drawn);
      var u := w.(store := Put(w.store, k, InvitationV(e)).0, doomed := w.doomed, drawn := w.drawn);
      HeldKeeps(u, w.opening - {e}, w.offers);
      assert PerformCreateInvitation(w, e).0 == u.(opening := w.opening - {e}, offers := w.offers);
    }
  }

  lemma UndoCreateKeeps(w: World, e: Id)
    requires Inv(w) && e in w.opening
    ensures Inv(PerformUndoCreate(w, e).0)
  {
    MintTyped(w);
    var u := w;
    if EventKey(e) in w.store.entries {
      RemoveKeeps(w, EventKey(e));
      u := w.(store := Remove(w.store, EventKey(e)).0);
    }
    HeldKeeps(u, w.opening - {e}, w.offers);
    assert PerformUndoCreate(w, e).0 == u.(opening := w.opening - {e}, offers := w.offers);
  }

  lemma OfferKeeps(w: World, r: nat)
    requires Inv(w) && IsEvent(w.store.written, r)
    ensures Inv(PerformOffer(w, r).0)
  {
    var d := Digest(w.drawn);
    var k := InvitationKey(d);
    if k !in w.store.entries {
      var v := InvitationV(EventAt(w.store.written, r).id);
      PutKeeps(w, k, v, w.doomed, w.drawn + 1);
      var u := w.(store := Put(w.store, k, v).0, doomed := w.doomed, drawn := w.drawn + 1);
      MintTyped(w);
      HeldKeeps(u, w.opening, w.offers[d := Offered(r)]);
      assert PerformOffer(w, r).0 == u.(opening := w.opening, offers := w.offers[d := Offered(r)]);
    }
  }

  lemma WithdrawKeeps(w: World, d: Digest)
    requires Inv(w)
    ensures Inv(PerformWithdraw(w, d).0)
  {
    var u := w;
    if InvitationKey(d) in w.store.entries {
      RemoveKeeps(w, InvitationKey(d));
      u := w.(store := Remove(w.store, InvitationKey(d)).0);
    }
    MintTyped(w);
    HeldKeeps(u, w.opening, w.offers - {d});
    assert PerformWithdraw(w, d).0 == u.(opening := w.opening, offers := w.offers - {d});
  }

  lemma DropInvitationKeeps(w: World, r: nat)
    requires Inv(w) && IsEvent(w.store.written, r)
    ensures Inv(PerformDropInvitation(w, r).0)
  {
    var d := EventAt(w.store.written, r).invitation;
    var u := w;
    if InvitationKey(d) in w.store.entries {
      RemoveKeeps(w, InvitationKey(d));
      u := w.(store := Remove(w.store, InvitationKey(d)).0);
    }
    OthersKeep(u, w.clock, w.dropped[d := r]);
    assert PerformDropInvitation(w, r).0 == u.(clock := w.clock, dropped := w.dropped[d := r]);
  }

  lemma DropEventKeeps(w: World, r: nat)
    requires Inv(w) && IsEvent(w.store.written, r)
    ensures Inv(PerformDropEvent(w, r).0)
  {
    var k := EventKey(EventAt(w.store.written, r).id);
    if k in w.store.entries {
      RemoveKeeps(w, k);
    }
    assert PerformDropEvent(w, r).0 == w || PerformDropEvent(w, r).0 == w.(store := Remove(w.store, k).0);
  }

  lemma ChangedEventOk(w: World, r: nat, c: EventChange)
    requires Inv(w) && IsEvent(w.store.written, r) && EventChangeAllowed(w, r, c)
    ensures var ev := EventAt(w.store.written, r);
            var ev' := ChangedEvent(w, r, c);
            var doomed' := if c.StartDeletion? then w.doomed[ev.id := w.drawn] else w.doomed;
            && EventOk(doomed', if c.StartDeletion? then w.drawn + 1 else w.drawn, ev.id, ev')
            && (ev.state == Deleting ==> ev'.state == Deleting)
            && (c.StartDeletion? || c.ClaimEvent? ==> ev'.state == Deleting)
            && ev'.id == ev.id && ev.invitation.secret < w.drawn
  {
    WriteTyped(w, r);
    MintTyped(w);
  }

  /** The event version a successful change replaces, and what it becomes. */
  lemma EventWriteKeeps(w: World, was: Event, ev': Event, c: EventChange)
    requires Inv(w) && HasEvent(w.store.entries, ev'.id) && EventNow(w.store.entries, ev'.id) == was
    requires was.id == ev'.id && was.invitation.secret < w.drawn
    requires var doomed' := if c.StartDeletion? then w.doomed[ev'.id := w.drawn] else w.doomed;
             EventOk(doomed', if c.StartDeletion? then w.drawn + 1 else w.drawn, ev'.id, ev')
    requires was.state == Deleting ==> ev'.state == Deleting
    requires c.StartDeletion? || c.ClaimEvent? ==> ev'.state == Deleting
    requires c.StartDeletion? ==> ev'.id !in w.doomed
    ensures var s' := Put(w.store, EventKey(ev'.id), EventV(ev')).0;
            Inv(AfterEventWrite(w.(store := s'), was, s'.revision, c))
  {
    var k := EventKey(ev'.id);
    var s' := Put(w.store, k, EventV(ev')).0;
    DoomedTyped(w, ev'.id);
    if c.StartDeletion? {
      PutKeeps(w, k, EventV(ev'), w.doomed[ev'.id := w.drawn], w.drawn + 1);
    } else {
      PutKeeps(w, k, EventV(ev'), w.doomed, w.drawn);
      var u := w.(store := s', doomed := w.doomed, drawn := w.drawn);
      assert u == w.(store := s');
      if c.ClaimEvent? {
        WorkKeeps(u, s'.revision, Claimed);
      } else if c.Rotate? {
        MintTyped(w);
        var offers' := (w.offers - {c.digest})[was.invitation := Stale];
        HeldKeeps(u, w.opening, offers');
        assert AfterEventWrite(u, was, s'.revision, c) == u.(opening := w.opening, offers := offers');
      }
    }
  }

  lemma UpdateEventKeeps(w: World, r: nat, c: EventChange)
    requires Inv(w) && IsEvent(w.store.written, r) && EventChangeAllowed(w, r, c)
    ensures Inv(PerformUpdateEvent(w, r, c).0)
  {
    var ev := EventAt(w.store.written, r);
    var k := EventKey(ev.id);
    if k in w.store.entries && w.store.entries[k].revision == r {
      LiveVersion(w, k);
      DoomedTyped(w, ev.id);
      ChangedEventOk(w, r, c);
      EventWriteKeeps(w, ev, ChangedEvent(w, r, c), c);
    } else if c.Rotate? {
      MintTyped(w);
      HeldKeeps(w, w.opening, w.offers[c.digest := Stale]);
    }
  }

  // ---------- Slots ----------

  lemma SlotWriteKeeps(w: World, v: Slot, v': Slot, c: SlotChange)
    requires Inv(w) && HasSlot(w.store.entries, v.eventId, v.number)
    requires SlotNow(w.store.entries, v.eventId, v.number) == v && SlotOk(w.joins, v.eventId, v.number, v)
    requires v' == v.(reserved := v'.reserved, leaseExpiresAt := v'.leaseExpiresAt, graceExpiresAt := v'.graceExpiresAt,
                      lastSeenAt := v'.lastSeenAt, cleanup := v'.cleanup)
    requires c.Claim? ==> v'.cleanup.Some?
    requires c.Renew? ==> IsIndexed(w.joins, v.subject)
    ensures var s' := Put(w.store, SlotKey(v.eventId, v.number), SlotV(v')).0;
            Inv(AfterSlotWrite(w.(store := s'), s'.revision, c))
  {
    var k := SlotKey(v.eventId, v.number);
    var s' := Put(w.store, k, SlotV(v')).0;
    var drawn' := if c.Claim? then w.drawn + 1 else w.drawn;
    PutKeeps(w, k, SlotV(v'), w.doomed, drawn');
    var u := w.(store := s', doomed := w.doomed, drawn := drawn');
    if c.Claim? {
      WorkKeeps(u, s'.revision, Claimed);
      assert AfterSlotWrite(w.(store := s'), s'.revision, c) == u.(work := u.work[s'.revision := Claimed]);
    } else {
      assert u == w.(store := s');
      if c.Renew? {
        RenewalKeeps(u, s'.revision);
      }
    }
  }

  lemma UpdateSlotKeeps(w: World, r: nat, c: SlotChange)
    requires Inv(w) && IsSlot(w.store.written, r) && SlotChangeAllowed(w, r, c)
    ensures Inv(PerformUpdateSlot(w, r, c).0)
  {
    var v := SlotAt(w.store.written, r);
    var k := SlotKey(v.eventId, v.number);
    if k in w.store.entries && w.store.entries[k].revision == r {
      LiveVersion(w, k);
      if c.Renew? {
        WriteTyped(w, c.index);
      }
      SlotWriteKeeps(w, v, ChangedSlot(w, r, c), c);
    }
  }

  lemma CreateSlotKeeps(w: World, r: nat, n: nat, now: Time)
    requires Inv(w) && IsEvent(w.store.written, r) && 1 <= n <= EventAt(w.store.written, r).capacity
    ensures Inv(PerformCreateSlot(w, r, n, now).0)
  {
    var v := NewSlot(w, EventAt(w.store.written, r).id, n, now);
    if SlotKey(v.eventId, n) !in w.store.entries {
      NewJoinKeeps(w, v, r);
    }
  }

  lemma RecheckKeeps(w: World, g: Id)
    requires Inv(w) && g in w.joins && w.joins[g].phase == Created
    ensures Inv(PerformRecheck(w, g).0)
  {
    DoomedTyped(w, w.joins[g].eventId);
    if PerformRecheck(w, g).1.Ok? {
      PhaseKeeps(w, g, Cleared);
    } else {
      PhaseKeeps(w, g, Refused);
    }
  }

  lemma CreateIndexKeeps(w: World, g: Id)
    requires Inv(w) && g in w.joins && w.joins[g].phase == Cleared
    ensures Inv(PerformCreateIndex(w, g).0)
  {
    var j := w.joins[g];
    var k := SessionKey(j.digest);
    if k in w.store.entries {
      PhaseKeeps(w, g, Refused);
      assert PerformCreateIndex(w, g).0 == InPhase(w, g, Refused);
    } else {
      var u := InPhase(w, g, Indexed);
      PhaseKeeps(w, g, Indexed);
      JoinTyped(w, g);
      var v := SessionV(SessionIndex(j.eventId, j.number, false));
      PutKeeps(u, k, v, u.doomed, u.drawn);
      assert PerformCreateIndex(w, g).0 == u.(store := Put(u.store, k, v).0, doomed := u.doomed, drawn := u.drawn);
    }
  }

  lemma RollbackKeeps(w: World, g: Id)
    requires Inv(w) && g in w.joins && w.joins[g].phase == Refused
    ensures Inv(PerformRollback(w, g).0)
  {
    var j := w.joins[g];
    var k := SlotKey(j.eventId, j.number);
    if k in w.store.entries && w.store.entries[k].revision == j.revision {
      LiveVersion(w, k);
      JoinTyped(w, g);
      RemoveKeeps(w, k);
    }
  }

  // ---------- Cleanup ----------

  lemma BeginListKeeps(w: World, rc: nat)
    requires Inv(w) && rc in w.work && IsEvent(w.store.written, rc)
    ensures Inv(w.(work := w.work[rc := Listing(SlotNumbers(w.store.entries, EventAt(w.store.written, rc).id), {})]))
  {
    WorkTyped(w, rc);
    var e := EventAt(w.store.written, rc).id;
    AllPlacesListed(w, e);
    WorkKeeps(w, rc, Listing(SlotNumbers(w.store.entries, e), {}));
  }

  lemma AllPlacesListed(w: World, e: Id)
    requires Inv(w)
    ensures Found(w.joins, w.store.entries, w.acked, e, {}, SlotNumbers(w.store.entries, e))
  {
    forall g | g in w.joins && w.joins[g].eventId == e && Passed(w.joins[g].phase)
      ensures Guest(e, g) in w.acked ||
              (Holds(w.store.entries, w.joins[g], g) && w.joins[g].number in SlotNumbers(w.store.entries, e))
    {
      JoinTyped(w, g);
      var k := SlotKey(e, w.joins[g].number);
      assert k in w.store.entries ==> k.number in SlotNumbers(w.store.entries, e);
    }
  }

  lemma ListSlotKeeps(w: World, rc: nat, n: nat)
    requires Inv(w) && rc in w.work && w.work[rc].Listing? && IsEvent(w.store.written, rc)
    ensures Inv(w.(work := w.work[rc := ListedSlot(w, rc, n)]))
  {
    WorkTyped(w, rc);
    var e := EventAt(w.store.written, rc).id;
    if HasSlot(w.store.entries, e, n) {
      LiveVersion(w, SlotKey(e, n));
    }
    WorkKeeps(w, rc, ListedSlot(w, rc, n));
  }

  lemma StartCallKeeps(w: World, rc: nat)
    requires Inv(w) && rc in w.work
    requires (w.work[rc] == Claimed && IsSlot(w.store.written, rc)) || (w.work[rc].Listing? && w.work[rc].todo == {})
    ensures Inv(w.(work := w.work[rc := CallOf(w, rc)]))
  {
    WorkTyped(w, rc);
    WorkKeeps(w, rc, CallOf(w, rc));
  }

  lemma EndCallKeeps(w: World, rc: nat, answer: Answer)
    requires Inv(w) && rc in w.work && w.work[rc].Calling?
    ensures Inv(PerformEndCall(w, rc, answer).0)
  {
    WorkTyped(w, rc);
    var subjects := w.work[rc].subjects;
    if answer == Count(|subjects|) {
      var u := w.(acked := w.acked + subjects);
      AckKeeps(w, u.acked);
      WorkTyped(u, rc);
      WorkKeeps(u, rc, Complete(subjects));
      assert PerformEndCall(w, rc, answer).0 == u.(work := u.work[rc := Complete(subjects)]);
    } else {
      WorkKeeps(w, rc, Incomplete(w.clock));
    }
  }

  lemma DropIndexKeeps(w: World, rc: nat)
    requires Inv(w) && IsSlot(w.store.written, rc)
    ensures Inv(PerformDropIndex(w, rc).0)
  {
    var k := SessionKey(SlotAt(w.store.written, rc).digest);
    if k in w.store.entries {
      RemoveKeeps(w, k);
    }
  }

  lemma DeleteSlotKeeps(w: World, r: nat)
    requires Inv(w) && IsSlot(w.store.written, r)
    requires (r in w.work && w.work[r].Complete?) || HasReceipt(w.store.entries, SlotAt(w.store.written, r).eventId)
    ensures Inv(PerformDeleteSlot(w, r).0)
  {
    var v := SlotAt(w.store.written, r);
    var k := SlotKey(v.eventId, v.number);
    if k in w.store.entries && w.store.entries[k].revision == r {
      LiveVersion(w, k);
      if HasReceipt(w.store.entries, v.eventId) {
        ReceiptTyped(w, v.eventId);
      } else {
        WorkTyped(w, r);
      }
      RemoveKeeps(w, k);
    }
  }

  lemma CreateReceiptKeeps(w: World, rc: nat, now: Time)
    requires Inv(w) && rc in w.work && w.work[rc].Complete? && IsEvent(w.store.written, rc)
    requires EventAt(w.store.written, rc).deletionId.Some?
    ensures Inv(PerformCreateReceipt(w, rc, now).0)
  {
    var ev := EventAt(w.store.written, rc);
    if !HasReceipt(w.store.entries, ev.id) {
      WorkTyped(w, rc);
      WriteTyped(w, rc);
      var x := Receipt(ev.deletionId.value, ev.id, now, |w.work[rc].subjects|);
      PutKeeps(w, ReceiptKey(ev.id), ReceiptV(x), w.doomed, w.drawn);
      assert PerformCreateReceipt(w, rc, now).0
          == w.(store := Put(w.store, ReceiptKey(ev.id), ReceiptV(x)).0, doomed := w.doomed, drawn := w.drawn);
    }
  }

  lemma TombstoneKeeps(w: World, r: nat, q: nat)
    requires Inv(w) && IsSlot(w.store.written, r)
    ensures Inv(PerformTombstone(w, r, q).0)
  {
    var v := SlotAt(w.store.written, r);
    var k := SessionKey(v.digest);
    if k in w.store.entries && w.store.entries[k].revision == q {
      WriteTyped(w, r);
      LiveVersion(w, k);
      var x := SessionV(SessionIndex(v.eventId, v.number, true));
      PutKeeps(w, k, x, w.doomed, w.drawn);
      assert PerformTombstone(w, r, q).0 == w.(store := Put(w.store, k, x).0, doomed := w.doomed, drawn := w.drawn);
    }
  }

  // ---------- Every action, every run ----------

  lemma InvPerform(w: World, a: Action)
    requires Inv(w) && Enabled(w, a)
    ensures Inv(Perform(w, a).0)
  {
    match a
    case Tick(to) => OthersKeep(w, to, w.dropped);
    case CreateEvent(capacity) => CreateEventKeeps(w, capacity);
    case CreateInvitation(e) => CreateInvitationKeeps(w, e);
    case UndoCreateEvent(e) => UndoCreateKeeps(w, e);
    case OfferInvitation(r) => OfferKeeps(w, r);
    case WithdrawInvitation(d) => WithdrawKeeps(w, d);
    case UpdateEvent(r, c) => UpdateEventKeeps(w, r, c);
    case CreateSlot(r, n, now) => CreateSlotKeeps(w, r, n, now);
    case Recheck(g) => RecheckKeeps(w, g);
    case CreateIndex(g) => CreateIndexKeeps(w, g);
    case Rollback(g) => RollbackKeeps(w, g);
    case Mint(g) => MintKeeps(w, Guest(w.joins[g].eventId, g));
    case UpdateSlot(r, c) => UpdateSlotKeeps(w, r, c);
    case MintRenewed(r) =>
      MintTyped(w);
      MintKeeps(w, SlotAt(w.store.written, r).subject);
    case BeginList(rc) => BeginListKeeps(w, rc);
    case ListSlot(rc, n) => ListSlotKeeps(w, rc, n);
    case StartCall(rc) => StartCallKeeps(w, rc);
    case EndCall(rc, answer) => EndCallKeeps(w, rc, answer);
    case DropIndex(rc) => DropIndexKeeps(w, rc);
    case DropSlot(rc) => DeleteSlotKeeps(w, rc);
    case CreateReceipt(rc, now) => CreateReceiptKeeps(w, rc, now);
    case Tombstone(r, q) => TombstoneKeeps(w, r, q);
    case PurgeSlot(r) => DeleteSlotKeeps(w, r);
    case DropInvitation(r) => DropInvitationKeeps(w, r);
    case DropEvent(r) => DropEventKeeps(w, r);
  }

  lemma {:induction false} InvExec(w: World, run: seq<Action>)
    requires Inv(w)
    ensures Inv(Exec(w, run))
  {
    if run != [] {
      var u := Exec(w, run[..|run| - 1]);
      InvExec(w, run[..|run| - 1]);
      if Enabled(u, run[|run| - 1]) {
        InvPerform(u, run[|run| - 1]);
      }
    }
  }

  lemma InvHolds(w: World)
    requires Reachable(w)
    ensures Inv(w)
  {
    var cfg: Config, start: Time, run: seq<Action> :| Exec(Init(cfg, start), run) == w;
    InvInit(cfg, start);
    InvExec(Init(cfg, start), run);
  }
}
