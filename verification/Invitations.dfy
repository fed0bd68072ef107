/** Invitation keys: what is left when creations, rotations and deletions have
    raced, and exactly when a key is left behind for good. */
module Invitations {
  import opened KvStore
  import opened Model
  import opened Protocol
  import opened Invariants
  import opened Preservation
  import opened Fates
  import opened Frames
  import opened Runs

  type Offers = map<Digest, Offer>

  /** The key of digest `d` is live and names event `e`. */
  predicate Names(entries: Entries, d: Digest, e: Id) {
    InvitationKey(d) in entries && entries[InvitationKey(d)].value == InvitationV(e)
  }

  predicate IsCurrent(entries: Entries, d: Digest, e: Id) {
    HasEvent(entries, e) && EventNow(entries, e).invitation == d
  }

  // ---------- What holds in every run ----------

  /** No two events ever carry the same digest. */
  predicate DigestHasOneEvent(written: Written, r: nat, q: nat) {
    IsEvent(written, r) && IsEvent(written, q) && EventAt(written, r).invitation == EventAt(written, q).invitation ==>
      EventAt(written, r).id == EventAt(written, q).id
  }

  /** A key names no event but the one its digest was made for. */
  predicate KeyHasOneEvent(s: Store<Key, Value>, d: Digest, r: nat) {
    InvitationKey(d) in s.entries && IsEvent(s.written, r) && EventAt(s.written, r).invitation == d ==>
      s.entries[InvitationKey(d)].value == InvitationV(EventAt(s.written, r).id)
  }

  /** A digest on offer has its key, which names the event it is offered to. */
  predicate OfferOk(s: Store<Key, Value>, offers: Offers, d: Digest) {
    d in offers && offers[d].Offered? ==>
      IsEvent(s.written, offers[d].revision) && Names(s.entries, d, EventAt(s.written, offers[d].revision).id)
  }

  /** No version of any event carries a digest that is still on offer. */
  predicate OfferUnused(written: Written, offers: Offers, d: Digest, r: nat) {
    d in offers && offers[d].Offered? && IsEvent(written, r) ==> EventAt(written, r).invitation != d
  }

  /** A stale digest is no live event's. */
  predicate StaleUnused(entries: Entries, offers: Offers, d: Digest, e: Id) {
    d in offers && offers[d].Stale? ==> !IsCurrent(entries, d, e)
  }

  /** The current digest of an event not being deleted has its key, but for the
      first digest while the creation has not stored it yet. */
  predicate LiveOk(entries: Entries, opening: map<Id, Digest>, e: Id) {
    HasEvent(entries, e) && EventNow(entries, e).state != Deleting ==>
      || Names(entries, EventNow(entries, e).invitation, e)
      || (e in opening && opening[e] == EventNow(entries, e).invitation)
  }

  /** The first digest of an unfinished creation has no key. */
  predicate OpeningOk(entries: Entries, opening: map<Id, Digest>, e: Id) {
    e in opening ==> opening[e] == Digest(e + 1) && InvitationKey(opening[e]) !in entries
  }

  /** ... and is no other event's. */
  predicate OpeningOwn(written: Written, opening: map<Id, Digest>, e: Id, r: nat) {
    e in opening && IsEvent(written, r) && EventAt(written, r).invitation == opening[e] ==> EventAt(written, r).id == e
  }

  /** A finalizer drops the digest of a deleting version. */
  predicate DroppedOk(written: Written, dropped: map<Digest, nat>, d: Digest) {
    d in dropped ==>
      && IsEvent(written, dropped[d]) && EventAt(written, dropped[d]).invitation == d
      && EventAt(written, dropped[d]).state == Deleting
  }

  ghost predicate VersionsTidy(w: World) {
    && (forall r, q :: DigestHasOneEvent(w.store.written, r, q))
    && (forall d, r :: KeyHasOneEvent(w.store, d, r))
    && (forall d, r :: OfferUnused(w.store.written, w.offers, d, r))
    && (forall e, r :: OpeningOwn(w.store.written, w.opening, e, r))
  }

  ghost predicate KeysTidy(w: World) {
    && (forall d :: OfferOk(w.store, w.offers, d))
    && (forall d, e :: StaleUnused(w.store.entries, w.offers, d, e))
    && (forall e :: LiveOk(w.store.entries, w.opening, e))
    && (forall e :: OpeningOk(w.store.entries, w.opening, e))
    && (forall d :: DroppedOk(w.store.written, w.dropped, d))
  }

  /** Both, kept folded until asked for with `ShowTidy`. */
  ghost predicate Tidy(w: World) {
    forall b: bool :: Shown(w, b) ==> VersionsTidy(w) && KeysTidy(w)
  }

  lemma ShowTidy(w: World)
    requires Tidy(w)
    ensures VersionsTidy(w) && KeysTidy(w)
  {
    assert Shown(w, true);
  }

  // ---------- What an action does to what processes hold ----------

  lemma RotateOffers(w: World, r: nat, c: EventChange, d: Digest)
    requires IsEvent(w.store.written, r) && EventChangeAllowed(w, r, c)
    ensures var offers := PerformUpdateEvent(w, r, c).0.offers;
            var was := EventAt(w.store.written, r);
            if !c.Rotate? then offers == w.offers
            else if !Lands(w, r) then offers == w.offers[c.digest := Stale]
            else offers == (w.offers - {c.digest})[was.invitation := Stale]
  {
  }

  /** The offers after an action. */
  function OffersAfter(w: World, a: Action): Offers
    requires Enabled(w, a)
  {
    match a
    case OfferInvitation(r) =>
      if InvitationKey(Digest(w.drawn)) in w.store.entries then w.offers else w.offers[Digest(w.drawn) := Offered(r)]
    case WithdrawInvitation(d) => w.offers - {d}
    case UpdateEvent(r, c) =>
      if !c.Rotate? then w.offers
      else if !Lands(w, r) then w.offers[c.digest := Stale]
      else (w.offers - {c.digest})[EventAt(w.store.written, r).invitation := Stale]
    case _ => w.offers
  }

  lemma OffersFollow(w: World, a: Action)
    requires Enabled(w, a)
    ensures Perform(w, a).0.offers == OffersAfter(w, a)
  {
    if a.UpdateEvent? {
      RotateOffers(w, a.revision, a.change, Digest(0));
    } else if a.OfferInvitation? {
      assert Perform(w, a).0 == PerformOffer(w, a.revision).0;
    } else if a.WithdrawInvitation? {
      assert Perform(w, a).0 == PerformWithdraw(w, a.digest).0;
    } else if a.CreateEvent? {
      assert Perform(w, a).0 == PerformCreateEvent(w, a.capacity).0;
    } else if a.CreateInvitation? {
      assert Perform(w, a).0 == PerformCreateInvitation(w, a.eventId).0;
    } else if a.UndoCreateEvent? {
      assert Perform(w, a).0 == PerformUndoCreate(w, a.eventId).0;
    } else {
      LeavesHeld(w, a);
    }
  }

  /** The unfinished creations after an action. */
  function OpeningAfter(w: World, a: Action): map<Id, Digest>
    requires Enabled(w, a)
  {
    match a
    case CreateEvent(_) =>
      if EventKey(w.drawn) in w.store.entries then w.opening else w.opening[w.drawn := Digest(w.drawn + 1)]
    case CreateInvitation(e) => if InvitationKey(w.opening[e]) in w.store.entries then w.opening else w.opening - {e}
    case UndoCreateEvent(e) => w.opening - {e}
    case _ => w.opening
  }

  lemma OpeningFollows(w: World, a: Action)
    requires Enabled(w, a)
    ensures Perform(w, a).0.opening == OpeningAfter(w, a)
  {
    if a.UpdateEvent? {
      UpdateEventLeavesOpening(w, a.revision, a.change);
    } else if a.OfferInvitation? {
      assert Perform(w, a).0 == PerformOffer(w, a.revision).0;
    } else if a.WithdrawInvitation? {
      assert Perform(w, a).0 == PerformWithdraw(w, a.digest).0;
    } else if a.CreateEvent? {
      assert Perform(w, a).0 == PerformCreateEvent(w, a.capacity).0;
    } else if a.CreateInvitation? {
      assert Perform(w, a).0 == PerformCreateInvitation(w, a.eventId).0;
    } else if a.UndoCreateEvent? {
      assert Perform(w, a).0 == PerformUndoCreate(w, a.eventId).0;
    } else {
      LeavesHeld(w, a);
    }
  }

  function DroppedAfter(w: World, a: Action): map<Digest, nat>
    requires Enabled(w, a)
  {
    if a.DropInvitation? then w.dropped[EventAt(w.store.written, a.revision).invitation := a.revision] else w.dropped
  }

  lemma DroppedFollows(w: World, a: Action)
    requires Enabled(w, a)
    ensures Perform(w, a).0.dropped == DroppedAfter(w, a)
  {
    if a.DropInvitation? {
      assert Perform(w, a).0 == PerformDropInvitation(w, a.revision).0;
    } else {
      OthersDropNothing(w, a);
    }
  }

  lemma OthersDropNothing(w: World, a: Action)
    requires Enabled(w, a) && !a.DropInvitation?
    ensures Perform(w, a).0.dropped == w.dropped
  {
  }

  // ---------- Small facts ----------

  lemma LiveEvent(w: World, e: Id)
    requires Inv(w) && HasEvent(w.store.entries, e)
    ensures var r := w.store.entries[EventKey(e)].revision;
            && IsEvent(w.store.written, r) && EventAt(w.store.written, r) == EventNow(w.store.entries, e)
            && EventOk(w.doomed, w.drawn, e, EventNow(w.store.entries, e))
            && (e in w.doomed ==> EventNow(w.store.entries, e).state == Deleting)
  {
    LiveVersion(w, EventKey(e));
    DoomedTyped(w, e);
  }

  lemma OldDigest(w: World, r: nat)
    requires Inv(w) && IsEvent(w.store.written, r)
    ensures EventAt(w.store.written, r).invitation.secret < w.drawn
    ensures EventAt(w.store.written, r).state == Deleting ==> EventAt(w.store.written, r).id in w.doomed
  {
    WriteTyped(w, r);
  }

  lemma OldKey(w: World, d: Digest)
    requires Inv(w) && InvitationKey(d) in w.store.entries
    ensures d.secret < w.drawn && w.store.entries[InvitationKey(d)].value.InvitationV?
  {
    LiveVersion(w, InvitationKey(d));
  }

  lemma HeldDigestsDrawn(w: World)
    requires Inv(w)
    ensures HeldDrawn(w.opening, w.offers, w.drawn)
  {
    Show(w);
  }

  /** How a digest becomes current, and how it stops being so. */
  lemma CurrentFate(w: World, a: Action, d: Digest, e: Id)
    requires Inv(w) && Enabled(w, a)
    ensures var s' := StoreAfter(w, a);
            && (IsCurrent(s'.entries, d, e) ==>
                  || IsCurrent(w.store.entries, d, e)
                  || (a.CreateEvent? && e == w.drawn && d == Digest(w.drawn + 1))
                  || (a.UpdateEvent? && a.change == Rotate(d) && Lands(w, a.revision) &&
                      EventAt(w.store.written, a.revision).id == e))
            && (IsCurrent(w.store.entries, d, e) && !IsCurrent(s'.entries, d, e) ==>
                  || EventKey(e) !in s'.entries
                  || (a.UpdateEvent? && a.change.Rotate? && Lands(w, a.revision) &&
                      EventAt(w.store.written, a.revision).id == e && a.change.digest != d))
  {
    if HasEvent(w.store.entries, e) {
      LiveEvent(w, e);
      EventFate(w, a, e);
    } else if EventKey(e) in w.store.entries {
      LiveVersion(w, EventKey(e));
    } else {
      BornCurrent(w, a, e);
    }
  }

  lemma BornCurrent(w: World, a: Action, e: Id)
    requires Inv(w) && Enabled(w, a) && EventKey(e) !in w.store.entries
    ensures var s' := StoreAfter(w, a);
            HasEvent(s'.entries, e) ==>
              && a.CreateEvent? && e == w.drawn
              && EventNow(s'.entries, e) == Event(w.drawn, a.capacity, Draft, Digest(w.drawn + 1), None, None)
  {
    EventBirth(w, a, e);
  }

  /** The version a landing update is made from is the live one. */
  lemma Landed(w: World, r: nat)
    requires Inv(w) && IsEvent(w.store.written, r) && Lands(w, r)
    ensures var ev := EventAt(w.store.written, r);
            HasEvent(w.store.entries, ev.id) && EventNow(w.store.entries, ev.id) == ev
  {
    WriteTyped(w, r);
    LiveVersion(w, EventKey(EventAt(w.store.written, r).id));
  }

  // ---------- Each part is kept ----------

  lemma OneEventStep(w: World, a: Action, r: nat, q: nat)
    requires Inv(w) && Tidy(w) && Enabled(w, a) && IsEvent(w.store.written, q)
    ensures DigestHasOneEvent(StoreAfter(w, a).written, r, q) && DigestHasOneEvent(StoreAfter(w, a).written, q, r)
  {
    ShowTidy(w);
    VersionFate(w, a, r);
    VersionFate(w, a, q);
    OldDigest(w, q);
    assert DigestHasOneEvent(w.store.written, r, q);
    if a.UpdateEvent? {
      assert DigestHasOneEvent(w.store.written, a.revision, q);
      if a.change.Rotate? {
        assert OfferUnused(w.store.written, w.offers, a.change.digest, q);
      }
    }
  }

  lemma TwoNewVersions(w: World, a: Action, r: nat, q: nat)
    requires Inv(w) && Enabled(w, a) && !IsEvent(w.store.written, r) && !IsEvent(w.store.written, q)
    ensures DigestHasOneEvent(StoreAfter(w, a).written, r, q)
  {
    VersionFate(w, a, r);
    VersionFate(w, a, q);
  }

  lemma KeyStep(w: World, a: Action, d: Digest, r: nat)
    requires Inv(w) && Tidy(w) && Enabled(w, a)
    ensures KeyHasOneEvent(StoreAfter(w, a), d, r)
  {
    ShowTidy(w);
    InvitationFate(w, a, d);
    VersionFate(w, a, r);
    assert KeyHasOneEvent(w.store, d, r);
    if InvitationKey(d) in w.store.entries {
      OldKey(w, d);
    }
    if IsEvent(w.store.written, r) {
      OldDigest(w, r);
    }
    if a.UpdateEvent? {
      assert KeyHasOneEvent(w.store, d, a.revision);
      assert OfferOk(w.store, w.offers, d);
    } else if a.CreateInvitation? {
      assert OpeningOwn(w.store.written, w.opening, a.eventId, r);
    }
  }

  lemma UnusedStep(w: World, a: Action, d: Digest, r: nat)
    requires Inv(w) && Tidy(w) && Enabled(w, a)
    ensures OfferUnused(StoreAfter(w, a).written, OffersAfter(w, a), d, r)
  {
    ShowTidy(w);
    VersionFate(w, a, r);
    HeldDigestsDrawn(w);
    assert OfferUnused(w.store.written, w.offers, d, r);
    if IsEvent(w.store.written, r) {
      OldDigest(w, r);
    }
    if a.UpdateEvent? {
      assert OfferUnused(w.store.written, w.offers, d, a.revision);
    }
  }

  lemma OpeningOwnStep(w: World, a: Action, e: Id, r: nat)
    requires Inv(w) && Tidy(w) && Enabled(w, a)
    ensures OpeningOwn(StoreAfter(w, a).written, OpeningAfter(w, a), e, r)
  {
    ShowTidy(w);
    VersionFate(w, a, r);
    HeldDigestsDrawn(w);
    assert OpeningOwn(w.store.written, w.opening, e, r);
    if IsEvent(w.store.written, r) {
      OldDigest(w, r);
    }
    if a.UpdateEvent? {
      assert OpeningOwn(w.store.written, w.opening, e, a.revision);
      assert OpeningOk(w.store.entries, w.opening, e);
      if a.change.Rotate? {
        assert OfferOk(w.store, w.offers, a.change.digest);
      }
    }
  }

  lemma OfferStep(w: World, a: Action, d: Digest)
    requires Inv(w) && Tidy(w) && Enabled(w, a)
    ensures OfferOk(StoreAfter(w, a), OffersAfter(w, a), d)
  {
    ShowTidy(w);
    InvitationFate(w, a, d);
    assert OfferOk(w.store, w.offers, d);
    if d in w.offers && w.offers[d].Offered? {
      VersionFate(w, a, w.offers[d].revision);
      if a.DropInvitation? {
        assert OfferUnused(w.store.written, w.offers, d, a.revision);
      }
    } else if a.OfferInvitation? {
      VersionFate(w, a, a.revision);
    }
  }

  lemma StaleStep(w: World, a: Action, d: Digest, e: Id)
    requires Inv(w) && Tidy(w) && Enabled(w, a)
    ensures StaleUnused(StoreAfter(w, a).entries, OffersAfter(w, a), d, e)
  {
    ShowTidy(w);
    CurrentFate(w, a, d, e);
    HeldDigestsDrawn(w);
    assert StaleUnused(w.store.entries, w.offers, d, e);
    if IsCurrent(w.store.entries, d, e) {
      LiveEvent(w, e);
      assert OfferUnused(w.store.written, w.offers, d, w.store.entries[EventKey(e)].revision);
    }
    if a.UpdateEvent? && a.change.Rotate? {
      RotateLeavesStale(w, a.revision, a.change.digest, d, e);
    }
  }

  /** After a rotation the digest it replaced is no event's current one. */
  lemma RotateLeavesStale(w: World, r: nat, c: Digest, d: Digest, e: Id)
    requires Inv(w) && Tidy(w) && IsEvent(w.store.written, r) && EventChangeAllowed(w, r, Rotate(c))
    ensures Lands(w, r) && EventAt(w.store.written, r).invitation == d ==>
              d != c && (IsCurrent(w.store.entries, d, e) ==> e == EventAt(w.store.written, r).id)
  {
    ShowTidy(w);
    assert OfferUnused(w.store.written, w.offers, c, r);
    if IsCurrent(w.store.entries, d, e) {
      LiveEvent(w, e);
      assert DigestHasOneEvent(w.store.written, r, w.store.entries[EventKey(e)].revision);
    }
  }

  lemma OpeningStep(w: World, a: Action, e: Id)
    requires Inv(w) && Tidy(w) && Enabled(w, a)
    ensures OpeningOk(StoreAfter(w, a).entries, OpeningAfter(w, a), e)
  {
    ShowTidy(w);
    HeldDigestsDrawn(w);
    assert OpeningOk(w.store.entries, w.opening, e);
    var d := if e in w.opening then w.opening[e] else Digest(w.drawn + 1);
    InvitationFate(w, a, d);
    if InvitationKey(d) in w.store.entries {
      OldKey(w, d);
    }
    if a.CreateInvitation? {
      assert OpeningOk(w.store.entries, w.opening, a.eventId);
    }
  }

  lemma DroppedStep(w: World, a: Action, d: Digest)
    requires Inv(w) && Tidy(w) && Enabled(w, a)
    ensures DroppedOk(StoreAfter(w, a).written, DroppedAfter(w, a), d)
  {
    ShowTidy(w);
    assert DroppedOk(w.store.written, w.dropped, d);
    if d in w.dropped {
      VersionFate(w, a, w.dropped[d]);
    }
    if a.DropInvitation? {
      VersionFate(w, a, a.revision);
    }
  }

  /** The key of a live event's current digest is never taken away. */
  lemma CurrentKeyStays(w: World, a: Action, e: Id)
    requires Inv(w) && Tidy(w) && Enabled(w, a)
    requires HasEvent(w.store.entries, e) && EventNow(w.store.entries, e).state != Deleting
    requires Names(w.store.entries, EventNow(w.store.entries, e).invitation, e)
    ensures Names(StoreAfter(w, a).entries, EventNow(w.store.entries, e).invitation, e)
  {
    ShowTidy(w);
    var d := EventNow(w.store.entries, e).invitation;
    InvitationFate(w, a, d);
    LiveEvent(w, e);
    if a.WithdrawInvitation? {
      assert StaleUnused(w.store.entries, w.offers, d, e);
    } else if a.DropInvitation? {
      assert KeyHasOneEvent(w.store, d, a.revision);
      OldDigest(w, a.revision);
    }
  }

  lemma LiveStep(w: World, a: Action, e: Id)
    requires Inv(w) && Tidy(w) && Enabled(w, a)
    ensures LiveOk(StoreAfter(w, a).entries, OpeningAfter(w, a), e)
  {
    ShowTidy(w);
    assert LiveOk(w.store.entries, w.opening, e);
    if HasEvent(w.store.entries, e) {
      EventFate(w, a, e);
      LiveEvent(w, e);
      if a.UpdateEvent? {
        UpdatedLive(w, a, e);
      } else if EventNow(w.store.entries, e).state != Deleting {
        UnchangedLive(w, a, e);
      }
    } else if EventKey(e) in w.store.entries {
      LiveVersion(w, EventKey(e));
    } else {
      BornCurrent(w, a, e);
    }
  }

  lemma UnchangedLive(w: World, a: Action, e: Id)
    requires Inv(w) && Tidy(w) && Enabled(w, a) && !a.UpdateEvent?
    requires HasEvent(w.store.entries, e) && EventNow(w.store.entries, e).state != Deleting
    ensures LiveOk(StoreAfter(w, a).entries, OpeningAfter(w, a), e)
  {
    ShowTidy(w);
    assert LiveOk(w.store.entries, w.opening, e);
    EventFate(w, a, e);
    if Names(w.store.entries, EventNow(w.store.entries, e).invitation, e) {
      CurrentKeyStays(w, a, e);
    } else if a == CreateInvitation(e) {
      assert OpeningOk(w.store.entries, w.opening, e);
    } else {
      HeldDigestsDrawn(w);
    }
  }

  lemma UpdatedLive(w: World, a: Action, e: Id)
    requires Inv(w) && Tidy(w) && Enabled(w, a) && a.UpdateEvent? && HasEvent(w.store.entries, e)
    ensures LiveOk(StoreAfter(w, a).entries, OpeningAfter(w, a), e)
  {
    ShowTidy(w);
    assert LiveOk(w.store.entries, w.opening, e);
    EventFate(w, a, e);
    var d := EventNow(w.store.entries, e).invitation;
    OtherKeysStay(w, a, InvitationKey(d));
    ChangedEventOk(w, a.revision, a.change);
    if a.change.Rotate? {
      OtherKeysStay(w, a, InvitationKey(a.change.digest));
      assert OfferOk(w.store, w.offers, a.change.digest);
    }
  }

  lemma VersionsStep(w: World, a: Action)
    requires Inv(w) && Tidy(w) && Enabled(w, a)
    ensures VersionsTidy(Perform(w, a).0)
  {
    var w' := Perform(w, a).0;
    StoreFollows(w, a);
    OffersFollow(w, a);
    OpeningFollows(w, a);
    forall r, q ensures DigestHasOneEvent(w'.store.written, r, q) {
      if IsEvent(w.store.written, q) {
        OneEventStep(w, a, r, q);
      } else if IsEvent(w.store.written, r) {
        OneEventStep(w, a, q, r);
      } else {
        TwoNewVersions(w, a, r, q);
      }
    }
    forall d, r ensures KeyHasOneEvent(w'.store, d, r) {
      KeyStep(w, a, d, r);
    }
    forall d, r ensures OfferUnused(w'.store.written, w'.offers, d, r) {
      UnusedStep(w, a, d, r);
    }
    forall e, r ensures OpeningOwn(w'.store.written, w'.opening, e, r) {
      OpeningOwnStep(w, a, e, r);
    }
  }

  lemma KeysStep(w: World, a: Action)
    requires Inv(w) && Tidy(w) && Enabled(w, a)
    ensures KeysTidy(Perform(w, a).0)
  {
    var w' := Perform(w, a).0;
    StoreFollows(w, a);
    OffersFollow(w, a);
    OpeningFollows(w, a);
    DroppedFollows(w, a);
    forall d ensures OfferOk(w'.store, w'.offers, d) {
      OfferStep(w, a, d);
    }
    forall d, e ensures StaleUnused(w'.store.entries, w'.offers, d, e) {
      StaleStep(w, a, d, e);
    }
    forall e ensures LiveOk(w'.store.entries, w'.opening, e) {
      LiveStep(w, a, e);
    }
    forall e ensures OpeningOk(w'.store.entries, w'.opening, e) {
      OpeningStep(w, a, e);
    }
    forall d ensures DroppedOk(w'.store.written, w'.dropped, d) {
      DroppedStep(w, a, d);
    }
  }

  lemma TidyPerform(w: World, a: Action)
    requires Inv(w) && Tidy(w) && Enabled(w, a)
    ensures Tidy(Perform(w, a).0)
  {
    VersionsStep(w, a);
    KeysStep(w, a);
  }

  lemma {:induction false} TidyExec(w: World, run: seq<Action>)
    requires Inv(w) && Tidy(w)
    ensures Inv(Exec(w, run)) && Tidy(Exec(w, run))
  {
    InvExec(w, run);
    if run != [] {
      var front, a := run[..|run| - 1], run[|run| - 1];
      TidyExec(w, front);
      if Enabled(Exec(w, front), a) {
        TidyPerform(Exec(w, front), a);
      }
    }
  }

  lemma TidyInit(cfg: Config, start: Time)
    ensures Inv(Init(cfg, start)) && Tidy(Init(cfg, start))
  {
    InvInit(cfg, start);
  }

  /** In every reachable world, whoever raced: digests, keys and offers belong
      to one event each, and a live event's digest has its key. */
  lemma TidyHolds(w: World)
    requires Reachable(w)
    ensures Inv(w) && Tidy(w)
  {
    var cfg: Config, start: Time, run: seq<Action> :| Exec(Init(cfg, start), run) == w;
    TidyInit(cfg, start);
    TidyExec(Init(cfg, start), run);
  }

  /** An invitation held by one rotation is changed by no action but its own: no
      rival can make it current, stale or gone. */
  lemma OfferIsMine(w: World, a: Action, d: Digest)
    requires Inv(w) && Tidy(w) && Enabled(w, a) && d in w.offers
    requires a != WithdrawInvitation(d) && !(a.UpdateEvent? && a.change == Rotate(d))
    ensures d in Perform(w, a).0.offers && Perform(w, a).0.offers[d] == w.offers[d]
  {
    OffersFollow(w, a);
    ShowTidy(w);
    HeldDigestsDrawn(w);
    if a.UpdateEvent? {
      assert OfferUnused(w.store.written, w.offers, d, a.revision);
    }
  }

  // ---------- An event whose invitations are in order ----------

  /** While its creation is unfinished the event is as it was created. */
  predicate FirstCurrent(entries: Entries, opening: map<Id, Digest>, e: Id) {
    e in opening ==> IsCurrent(entries, opening[e], e) && EventNow(entries, e).state != Deleting
  }

  /** A key that names the event is current, or still held by a rotation. */
  predicate KeyHeld(entries: Entries, offers: Offers, d: Digest, e: Id) {
    Names(entries, d, e) ==> d in offers || IsCurrent(entries, d, e)
  }

  /** A digest dropped by the event's finalizer has no key. */
  predicate DroppedGone(s: Store<Key, Value>, dropped: map<Digest, nat>, d: Digest, e: Id) {
    d in dropped && IsEvent(s.written, dropped[d]) && EventAt(s.written, dropped[d]).id == e ==>
      InvitationKey(d) !in s.entries
  }

  ghost predicate Sound(w: World, e: Id) {
    && FirstCurrent(w.store.entries, w.opening, e)
    && (forall d :: KeyHeld(w.store.entries, w.offers, d, e))
    && (forall d :: DroppedGone(w.store, w.dropped, d, e))
  }

  /** Rotating or deleting the event before its creation has returned, from the
      version that is live: the one thing that can put its invitations out of
      order. */
  predicate Premature(w: World, a: Action, e: Id) {
    && Enabled(w, a) && a.UpdateEvent? && (a.change.Rotate? || a.change.StartDeletion?)
    && EventAt(w.store.written, a.revision).id == e && Lands(w, a.revision) && e in w.opening
  }

  lemma FirstStep(w: World, a: Action, e: Id)
    requires Inv(w) && Tidy(w) && Enabled(w, a) && Sound(w, e) && !Premature(w, a, e)
    ensures FirstCurrent(StoreAfter(w, a).entries, OpeningAfter(w, a), e)
  {
    HeldDigestsDrawn(w);
    if e in w.opening {
      LiveEvent(w, e);
      EventFate(w, a, e);
      if a.UpdateEvent? {
        ChangedEventOk(w, a.revision, a.change);
        DoomedTyped(w, e);
      }
    } else if EventKey(e) !in w.store.entries {
      BornCurrent(w, a, e);
    }
  }

  lemma HeldStep(w: World, a: Action, d: Digest, e: Id)
    requires Inv(w) && Tidy(w) && Enabled(w, a) && Sound(w, e)
    ensures KeyHeld(StoreAfter(w, a).entries, OffersAfter(w, a), d, e)
  {
    InvitationFate(w, a, d);
    CurrentFate(w, a, d, e);
    assert KeyHeld(w.store.entries, w.offers, d, e);
    if Names(w.store.entries, d, e) && Names(StoreAfter(w, a).entries, d, e) {
      if d in w.offers {
        OfferedKeyStays(w, a, d, e);
      } else {
        CurrentKeyHeld(w, a, d, e);
      }
    } else if a.CreateInvitation? {
      OtherKeysStay(w, a, EventKey(e));
    }
  }

  lemma OfferedKeyStays(w: World, a: Action, d: Digest, e: Id)
    requires Inv(w) && Tidy(w) && Enabled(w, a) && Names(w.store.entries, d, e) && d in w.offers
    requires Names(StoreAfter(w, a).entries, d, e)
    ensures d in OffersAfter(w, a) || IsCurrent(StoreAfter(w, a).entries, d, e)
  {
    ShowTidy(w);
    assert OfferOk(w.store, w.offers, d);
    if a.UpdateEvent? && a.change == Rotate(d) && Lands(w, a.revision) {
      Landed(w, a.revision);
      EventFate(w, a, e);
    } else if a == WithdrawInvitation(d) {
      InvitationFate(w, a, d);
    }
  }

  lemma CurrentKeyHeld(w: World, a: Action, d: Digest, e: Id)
    requires Inv(w) && Tidy(w) && Enabled(w, a) && Sound(w, e) && Names(w.store.entries, d, e)
    requires IsCurrent(w.store.entries, d, e)
    ensures d in OffersAfter(w, a) || IsCurrent(StoreAfter(w, a).entries, d, e)
  {
    ShowTidy(w);
    LiveEvent(w, e);
    var r := w.store.entries[EventKey(e)].revision;
    assert DroppedGone(w.store, w.dropped, d, e) && DroppedOk(w.store.written, w.dropped, d);
    assert d in w.dropped ==> DigestHasOneEvent(w.store.written, r, w.dropped[d]);
    assert OpeningOk(w.store.entries, w.opening, e);
    EventFate(w, a, e);
  }

  lemma DroppedGoneStep(w: World, a: Action, d: Digest, e: Id)
    requires Inv(w) && Tidy(w) && Enabled(w, a) && Sound(w, e)
    ensures DroppedGone(StoreAfter(w, a), DroppedAfter(w, a), d, e)
  {
    ShowTidy(w);
    InvitationFate(w, a, d);
    assert DroppedGone(w.store, w.dropped, d, e) && DroppedOk(w.store.written, w.dropped, d);
    if d in w.dropped {
      VersionFate(w, a, w.dropped[d]);
      OldDigest(w, w.dropped[d]);
      DoomedTyped(w, EventAt(w.store.written, w.dropped[d]).id);
      if a.CreateInvitation? {
        assert OpeningOwn(w.store.written, w.opening, a.eventId, w.dropped[d]);
      }
    }
    if a.DropInvitation? {
      VersionFate(w, a, a.revision);
    }
  }

  lemma SoundPerform(w: World, a: Action, e: Id)
    requires Inv(w) && Tidy(w) && Enabled(w, a) && Sound(w, e) && !Premature(w, a, e)
    ensures Sound(Perform(w, a).0, e)
  {
    var w' := Perform(w, a).0;
    StoreFollows(w, a);
    OffersFollow(w, a);
    OpeningFollows(w, a);
    DroppedFollows(w, a);
    FirstStep(w, a, e);
    forall d ensures KeyHeld(w'.store.entries, w'.offers, d, e) {
      HeldStep(w, a, d, e);
    }
    forall d ensures DroppedGone(w'.store, w'.dropped, d, e) {
      DroppedGoneStep(w, a, d, e);
    }
  }

  /** Nobody rotates or deletes the event before its creation has returned. */
  ghost predicate InOrder(w: World, run: seq<Action>, e: Id) {
    forall i :: 0 <= i < |run| ==> !Premature(Exec(w, run[..i]), run[i], e)
  }

  lemma {:induction false} SoundExec(w: World, run: seq<Action>, e: Id)
    requires Inv(w) && Tidy(w) && Sound(w, e) && InOrder(w, run, e)
    ensures Sound(Exec(w, run), e)
  {
    if run != [] {
      var front, a := run[..|run| - 1], run[|run| - 1];
      assert forall i :: 0 <= i < |front| ==> front[..i] == run[..i];
      SoundExec(w, front, e);
      TidyExec(w, front);
      assert !Premature(Exec(w, run[..|run| - 1]), a, e);
      if Enabled(Exec(w, front), a) {
        SoundPerform(Exec(w, front), a, e);
      }
    }
  }

  // ---------- The guarantee ----------

  /** No rotation holds a key of the event, and its creation is not under way. */
  ghost predicate Quiescent(w: World, e: Id) {
    e !in w.opening && forall d :: d in w.offers ==> !Names(w.store.entries, d, e)
  }

  /** Whatever rotations and deletions raced, once those of the event have
      settled the keys naming it are: exactly its current digest while it is
      live and not deleting, at most that one while it is deleting, and none once
      it is gone; in runs where nobody rotates or deletes it before its creation
      returned. */
  lemma InvitationsAreConserved(cfg: Config, start: Time, run: seq<Action>, e: Id, d: Digest)
    requires InOrder(Init(cfg, start), run, e) && Quiescent(Exec(Init(cfg, start), run), e)
    ensures var s := Exec(Init(cfg, start), run).store.entries;
            && (Names(s, d, e) ==> IsCurrent(s, d, e))
            && (HasEvent(s, e) && EventNow(s, e).state != Deleting ==> (Names(s, d, e) <==> IsCurrent(s, d, e)))
  {
    TidyInit(cfg, start);
    TidyExec(Init(cfg, start), run);
    SoundExec(Init(cfg, start), run, e);
    var w := Exec(Init(cfg, start), run);
    ShowTidy(w);
    assert KeyHeld(w.store.entries, w.offers, d, e);
    assert LiveOk(w.store.entries, w.opening, e);
  }
}
