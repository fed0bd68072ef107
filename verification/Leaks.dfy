/** Invitation keys left behind: the one way a key comes to outlive its use, that
    nothing takes it away again, and that every unfinished creation is open to
    it, and no finished one. */
module Leaks {
  import opened KvStore
  import opened Model
  import opened Protocol
  import opened Invariants
  import opened Preservation
  import opened Fates
  import opened Runs
  import opened Lifecycle
  import opened Invitations

  /** The key of `d` admits to event `e`, or to nothing any more, though it is
      not the event's invitation, and no rotation will take it away. */
  predicate Leaked(w: World, d: Digest, e: Id) {
    Names(w.store.entries, d, e) && !IsCurrent(w.store.entries, d, e) && d !in w.offers
  }

  /** The first invitation is stored after the event was given another. */
  predicate StoresTooLate(w: World, a: Action, d: Digest, e: Id) {
    && a == CreateInvitation(e) && e in w.opening && w.opening[e] == d
    && !IsCurrent(w.store.entries, d, e) && d !in w.offers
  }

  /** The event goes while the key of its current digest is there. */
  predicate GoesBeforeItsKey(w: World, a: Action, d: Digest, e: Id) {
    && Names(w.store.entries, d, e) && IsCurrent(w.store.entries, d, e) && d !in w.offers
    && ((a.DropEvent? && a.revision == w.store.entries[EventKey(e)].revision) || a == UndoCreateEvent(e))
  }

  lemma CreatedKeyLeaks(w: World, d: Digest, e: Id)
    requires Inv(w) && Tidy(w) && e in w.opening && w.opening[e] == d
    ensures Leaked(PerformCreateInvitation(w, e).0, d, e) <==> !IsCurrent(w.store.entries, d, e) && d !in w.offers
  {
    ShowTidy(w);
    assert OpeningOk(w.store.entries, w.opening, e);
  }

  lemma OtherStepLeaks(w: World, a: Action, d: Digest, e: Id)
    requires Inv(w) && Tidy(w) && Enabled(w, a) && !Leaked(w, d, e)
    requires !(a == CreateInvitation(e) && w.opening[e] == d)
    ensures Leaked(Perform(w, a).0, d, e) ==> GoesBeforeItsKey(w, a, d, e)
  {
    StoreFollows(w, a);
    OffersFollow(w, a);
    InvitationFate(w, a, d);
    CurrentFate(w, a, d, e);
    if Names(w.store.entries, d, e) && Names(StoreAfter(w, a).entries, d, e) {
      if d in w.offers {
        OfferedKeyStays(w, a, d, e);
      } else {
        LiveEvent(w, e);
        EventFate(w, a, e);
      }
    }
  }

  lemma GoneKeyLeaks(w: World, a: Action, d: Digest, e: Id)
    requires Inv(w) && Enabled(w, a) && GoesBeforeItsKey(w, a, d, e)
    ensures Leaked(Perform(w, a).0, d, e)
  {
    StoreFollows(w, a);
    OffersFollow(w, a);
    LiveEvent(w, e);
    OtherKeysStay(w, a, InvitationKey(d));
  }

  /** A key is leaked at exactly two steps, whatever else races: the create of
      the first invitation, if that digest is by then neither the event's own nor
      waiting to be withdrawn; and the removal of the event while its key is
      still there. */
  lemma LeaksExactlyHere(w: World, a: Action, d: Digest, e: Id)
    requires Inv(w) && Tidy(w) && Enabled(w, a) && !Leaked(w, d, e)
    ensures Leaked(Perform(w, a).0, d, e) <==> StoresTooLate(w, a, d, e) || GoesBeforeItsKey(w, a, d, e)
  {
    if a == CreateInvitation(e) && w.opening[e] == d {
      CreatedKeyLeaks(w, d, e);
      assert Perform(w, a).0 == PerformCreateInvitation(w, e).0;
    } else if GoesBeforeItsKey(w, a, d, e) {
      GoneKeyLeaks(w, a, d, e);
    } else {
      OtherStepLeaks(w, a, d, e);
    }
  }

  /** A finalizer of a version that carried the digest takes its key away. */
  predicate Finalizes(w: World, a: Action, d: Digest) {
    a.DropInvitation? && IsEvent(w.store.written, a.revision) && EventAt(w.store.written, a.revision).invitation == d
  }

  /** A leaked key stays at every step but a finalizer's of that digest. */
  lemma LeakStays(w: World, a: Action, d: Digest, e: Id)
    requires Inv(w) && Tidy(w) && Enabled(w, a) && Leaked(w, d, e)
    ensures Leaked(Perform(w, a).0, d, e) <==> !Finalizes(w, a, d)
  {
    ShowTidy(w);
    StoreFollows(w, a);
    OffersFollow(w, a);
    InvitationFate(w, a, d);
    CurrentFate(w, a, d, e);
    OldKey(w, d);
    if a.UpdateEvent? {
      assert KeyHasOneEvent(w.store, d, a.revision);
      if Lands(w, a.revision) {
        Landed(w, a.revision);
      }
    } else if a.DropInvitation? && Finalizes(w, a, d) {
      assert InvitationKey(d) !in StoreAfter(w, a).entries;
    }
  }

  /** No version that carried the digest was ever deleting, so no finalizer
      will come for its key. */
  ghost predicate NeverDeleting(w: World, d: Digest) {
    forall r :: NotDeleting(w, d, r)
  }

  predicate NotDeleting(w: World, d: Digest, r: nat) {
    IsEvent(w.store.written, r) && EventAt(w.store.written, r).invitation == d ==>
      EventAt(w.store.written, r).state != Deleting
  }

  lemma NeverDeletingStep(w: World, a: Action, d: Digest, e: Id, r: nat)
    requires Inv(w) && Tidy(w) && Enabled(w, a) && Leaked(w, d, e) && NeverDeleting(w, d)
    ensures NotDeleting(Perform(w, a).0, d, r)
  {
    ShowTidy(w);
    StoreFollows(w, a);
    VersionFate(w, a, r);
    OldKey(w, d);
    assert NotDeleting(w, d, r);
    if a.UpdateEvent? && Lands(w, a.revision) {
      assert KeyHasOneEvent(w.store, d, a.revision);
      Landed(w, a.revision);
    }
  }

  /** Such a key stays for good: in every continuation it is live, admits to the
      event, and is not its invitation. */
  lemma {:induction false} LeakIsForGood(w: World, run: seq<Action>, d: Digest, e: Id)
    requires Inv(w) && Tidy(w) && Leaked(w, d, e) && NeverDeleting(w, d)
    ensures Leaked(Exec(w, run), d, e) && NeverDeleting(Exec(w, run), d)
  {
    if run != [] {
      var front, a := run[..|run| - 1], run[|run| - 1];
      LeakIsForGood(w, front, d, e);
      TidyExec(w, front);
      var u := Exec(w, front);
      if Enabled(u, a) {
        assert NotDeleting(u, d, if a.DropInvitation? then a.revision else 0);
        LeakStays(u, a, d, e);
        forall r ensures NotDeleting(Perform(u, a).0, d, r) {
          NeverDeletingStep(u, a, d, e, r);
        }
      }
    }
  }

  // ---------- Every unfinished creation can leak ----------

  /** `w'` comes about from `w` by some actions. */
  ghost predicate Leads(w: World, w': World) {
    exists run :: Exec(w, run) == w'
  }

  lemma LeadsNowhere(w: World)
    ensures Leads(w, w)
  {
    assert Exec(w, []) == w;
  }

  lemma LeadsOn(w: World, u: World, a: Action)
    requires Leads(w, u) && Enabled(u, a)
    ensures Leads(w, Perform(u, a).0)
  {
    var run :| Exec(w, run) == u;
    OneMore(w, run, a);
    assert Exec(w, run + [a]) == Perform(u, a).0;
  }

  /** An event whose first invitation is not stored yet, as it was created. */
  predicate Unfinished(w: World, e: Id) {
    && e in w.opening && HasEvent(w.store.entries, e)
    && EventNow(w.store.entries, e).invitation == w.opening[e] && EventNow(w.store.entries, e).state != Deleting
  }

  function LiveRevision(w: World, e: Id): nat
    requires HasEvent(w.store.entries, e)
  {
    w.store.entries[EventKey(e)].revision
  }

  /** A rotation that is over before the creation stores its invitation. */
  function EarlyRotation(w: World, e: Id): seq<Action>
    requires Unfinished(w, e)
  {
    [OfferInvitation(LiveRevision(w, e)), UpdateEvent(LiveRevision(w, e), Rotate(Digest(w.drawn))),
     WithdrawInvitation(w.opening[e]), CreateInvitation(e)]
  }

  lemma NoVersionDeletes(w: World, e: Id, r: nat)
    requires Inv(w) && Tidy(w) && Unfinished(w, e)
    ensures NotDeleting(w, w.opening[e], r)
  {
    ShowTidy(w);
    assert OpeningOwn(w.store.written, w.opening, e, r);
    LiveEvent(w, e);
    if IsEvent(w.store.written, r) {
      OldDigest(w, r);
    }
  }

  lemma RotationOffers(w: World, e: Id)
    requires Inv(w) && Tidy(w) && Unfinished(w, e)
    ensures var r, d := LiveRevision(w, e), Digest(w.drawn);
            && IsEvent(w.store.written, r) && EventAt(w.store.written, r) == EventNow(w.store.entries, e)
            && EventAt(w.store.written, r).id == e
            && var u := PerformOffer(w, r).0;
               && u.offers == w.offers[d := Offered(r)] && d != w.opening[e]
               && u.opening == w.opening && EventKey(e) in u.store.entries
               && u.store.entries[EventKey(e)] == w.store.entries[EventKey(e)]
               && InvitationKey(w.opening[e]) !in u.store.entries && IsEvent(u.store.written, r)
               && EventAt(u.store.written, r) == EventAt(w.store.written, r)
  {
    ShowTidy(w);
    assert OpeningOk(w.store.entries, w.opening, e);
    LiveEvent(w, e);
    HeldDigestsDrawn(w);
    if InvitationKey(Digest(w.drawn)) in w.store.entries {
      OldKey(w, Digest(w.drawn));
    }
    Show(w);
  }

  lemma RotationCommits(u: World, e: Id, r: nat, d: Digest)
    requires IsEvent(u.store.written, r) && EventChangeAllowed(u, r, Rotate(d)) && EventAt(u.store.written, r).id == e
    requires EventKey(e) in u.store.entries &&
             u.store.entries[EventKey(e)] == Entry(EventV(EventAt(u.store.written, r)), r)
    requires d != EventAt(u.store.written, r).invitation
    ensures var v := PerformUpdateEvent(u, r, Rotate(d)).0;
            var d0 := EventAt(u.store.written, r).invitation;
            && v.offers == (u.offers - {d})[d0 := Stale] && v.opening == u.opening
            && HasEvent(v.store.entries, e) && EventNow(v.store.entries, e).invitation == d
            && (InvitationKey(d0) in v.store.entries <==> InvitationKey(d0) in u.store.entries)
  {
  }

  lemma WithdrawnThenStored(v: World, e: Id, d: Digest)
    requires e in v.opening && v.opening[e] in v.offers && v.offers[v.opening[e]] == Stale
    requires HasEvent(v.store.entries, e) && EventNow(v.store.entries, e).invitation == d && d != v.opening[e]
    requires InvitationKey(v.opening[e]) !in v.store.entries
    ensures var x := PerformWithdraw(v, v.opening[e]).0;
            && e in x.opening && x.opening[e] == v.opening[e]
            && var y := PerformCreateInvitation(x, e).0;
               && Leaked(y, v.opening[e], e) && y.opening == v.opening - {e} && y.offers == v.offers - {v.opening[e]}
  {
  }

  lemma EarlyRotationLeaks(w: World, e: Id)
    requires Inv(w) && Tidy(w) && Unfinished(w, e)
    ensures Leaked(Exec(w, EarlyRotation(w, e)), w.opening[e], e) && Digest(w.drawn) != w.opening[e]
    ensures Exec(w, EarlyRotation(w, e)).opening == w.opening - {e}
    ensures Exec(w, EarlyRotation(w, e)).offers.Keys <= w.offers.Keys
  {
    var r, d, d0 := LiveRevision(w, e), Digest(w.drawn), w.opening[e];
    RotationOffers(w, e);
    var u := PerformOffer(w, r).0;
    RotationCommits(u, e, r, d);
    var v := PerformUpdateEvent(u, r, Rotate(d)).0;
    WithdrawnThenStored(v, e, d);
    RunOfFour(w, OfferInvitation(r), UpdateEvent(r, Rotate(d)), WithdrawInvitation(d0), CreateInvitation(e),
              u, v, PerformWithdraw(v, d0).0);
  }

  /** From any world with an unfinished creation, a rotation that is over first
      leaves the first invitation behind, for good. */
  lemma EveryUnfinishedCreationCanLeak(w: World, e: Id, more: seq<Action>)
    requires Inv(w) && Tidy(w) && Unfinished(w, e)
    ensures Leaked(Exec(w, EarlyRotation(w, e)), w.opening[e], e)
    ensures Leaked(Exec(Exec(w, EarlyRotation(w, e)), more), w.opening[e], e)
  {
    EarlyRotationLeaks(w, e);
    TidyExec(w, EarlyRotation(w, e));
    forall q ensures NotDeleting(w, w.opening[e], q) {
      NoVersionDeletes(w, e, q);
    }
    HarmlessRun(w, EarlyRotation(w, e), w.opening[e]);
    LeakIsForGood(Exec(w, EarlyRotation(w, e)), more, w.opening[e], e);
  }

  /** An action that brings no version with digest `d` into deletion. */
  predicate Harmless(a: Action, d: Digest) {
    !a.CreateEvent? && (a.UpdateEvent? ==> a.change.Rotate? && a.change.digest != d)
  }

  lemma HarmlessStep(w: World, a: Action, d: Digest)
    requires Inv(w) && Enabled(w, a) && Harmless(a, d) && NeverDeleting(w, d)
    ensures NeverDeleting(Perform(w, a).0, d)
  {
    StoreFollows(w, a);
    forall r ensures NotDeleting(Perform(w, a).0, d, r) {
      VersionFate(w, a, r);
      assert NotDeleting(w, d, r);
    }
  }

  lemma {:induction false} HarmlessRun(w: World, run: seq<Action>, d: Digest)
    requires Inv(w) && NeverDeleting(w, d) && forall i :: 0 <= i < |run| ==> Harmless(run[i], d)
    ensures NeverDeleting(Exec(w, run), d)
  {
    if run != [] {
      var front, a := run[..|run| - 1], run[|run| - 1];
      HarmlessRun(w, front, d);
      InvExec(w, front);
      if Enabled(Exec(w, front), a) {
        HarmlessStep(Exec(w, front), a, d);
      }
    }
  }

  lemma FourSteps(w: World, a1: Action, a2: Action, a3: Action, a4: Action)
    ensures Exec(w, [a1, a2, a3, a4]) == Next(Next(Next(Next(w, a1), a2), a3), a4)
  {
    OneMore(w, [], a1);
    OneMore(w, [a1], a2);
    OneMore(w, [a1, a2], a3);
    OneMore(w, [a1, a2, a3], a4);
    assert [] + [a1] == [a1] && [a1] + [a2] == [a1, a2] && [a1, a2] + [a3] == [a1, a2, a3];
    assert [a1, a2, a3] + [a4] == [a1, a2, a3, a4];
    assert Exec(w, []) == w;
  }

  lemma RunOfFour(w: World, a1: Action, a2: Action, a3: Action, a4: Action, u: World, v: World, x: World)
    requires a1.OfferInvitation? && Enabled(w, a1) && u == PerformOffer(w, a1.revision).0
    requires a2.UpdateEvent? && Enabled(u, a2) && v == PerformUpdateEvent(u, a2.revision, a2.change).0
    requires a3.WithdrawInvitation? && Enabled(v, a3) && x == PerformWithdraw(v, a3.digest).0
    requires a4.CreateInvitation? && Enabled(x, a4)
    ensures Exec(w, [a1, a2, a3, a4]) == PerformCreateInvitation(x, a4.eventId).0
  {
    FourSteps(w, a1, a2, a3, a4);
  }

  // ---------- ... by a deletion, too ----------

  /** The event is being deleted under version `rc`, its creation unfinished. */
  predicate Doomed(u: World, e: Id, d: Digest, rc: nat) {
    && e in u.opening && u.opening[e] == d && InvitationKey(d) !in u.store.entries
    && rc <= u.store.revision && IsEvent(u.store.written, rc) && EventAt(u.store.written, rc).id == e
    && EventAt(u.store.written, rc).invitation == d && EventAt(u.store.written, rc).state == Deleting
    && EventAt(u.store.written, rc).deletionId.Some? && EventAt(u.store.written, rc).cleanup.Some?
    && EventKey(e) in u.store.entries && u.store.entries[EventKey(e)].revision == rc
  }

  predicate Claims(u: World, e: Id, d: Digest, rc: nat) {
    Doomed(u, e, d, rc) && rc in u.work
  }

  lemma DeletionStarts(w: World, e: Id)
    requires Inv(w) && Tidy(w) && Unfinished(w, e)
    ensures var a := UpdateEvent(LiveRevision(w, e), StartDeletion(w.clock));
            && Enabled(w, a)
            && var u := PerformUpdateEvent(w, a.revision, a.change).0;
               && Doomed(u, e, w.opening[e], w.store.revision + 1)
               && EventAt(u.store.written, w.store.revision + 1).cleanup.value.nextAttemptAt == 0
  {
    ShowTidy(w);
    assert OpeningOk(w.store.entries, w.opening, e);
    LiveEvent(w, e);
  }

  lemma DeletionIsClaimed(u: World, e: Id, d: Digest, r: nat)
    requires Doomed(u, e, d, r) && EventAt(u.store.written, r).cleanup.value.nextAttemptAt == 0
    ensures EventChangeAllowed(u, r, ClaimEvent(u.clock))
    ensures var v := PerformUpdateEvent(u, r, ClaimEvent(u.clock)).0;
            Claims(v, e, d, u.store.revision + 1) && v.work[u.store.revision + 1] == Claimed
  {
  }

  lemma DeletionBegins(w: World, e: Id) returns (u: World)
    requires Inv(w) && Tidy(w) && Unfinished(w, e)
    ensures Leads(w, u) && Doomed(u, e, w.opening[e], w.store.revision + 1)
    ensures EventAt(u.store.written, w.store.revision + 1).cleanup.value.nextAttemptAt == 0
  {
    var a := UpdateEvent(LiveRevision(w, e), StartDeletion(w.clock));
    LeadsNowhere(w);
    DeletionStarts(w, e);
    LeadsOn(w, w, a);
    u := PerformUpdateEvent(w, a.revision, a.change).0;
  }

  lemma DeletionGoesOn(w: World, u: World, e: Id, d: Digest, r: nat) returns (v: World, rc: nat)
    requires Leads(w, u) && Doomed(u, e, d, r) && EventAt(u.store.written, r).cleanup.value.nextAttemptAt == 0
    ensures Leads(w, v) && Claims(v, e, d, rc) && v.work[rc] == Claimed
  {
    DeletionIsClaimed(u, e, d, r);
    LeadsOn(w, u, UpdateEvent(r, ClaimEvent(u.clock)));
    v, rc := PerformUpdateEvent(u, r, ClaimEvent(u.clock)).0, u.store.revision + 1;
  }

  /** Any listing that has begun can be brought to an end. */
  lemma {:induction false} ListingEnds(w: World, u: World, e: Id, d: Digest, rc: nat) returns (v: World)
    requires Leads(w, u) && Claims(u, e, d, rc) && u.work[rc].Listing?
    ensures Leads(w, v) && Claims(v, e, d, rc) && v.work[rc].Listing? && v.work[rc].todo == {}
    decreases |u.work[rc].todo|
  {
    if u.work[rc].todo == {} {
      v := u;
    } else {
      var n :| n in u.work[rc].todo;
      LeadsOn(w, u, ListSlot(rc, n));
      v := ListingEnds(w, u.(work := u.work[rc := ListedSlot(u, rc, n)]), e, d, rc);
    }
  }

  lemma GuestsAreErased(w: World, u: World, e: Id, d: Digest, rc: nat) returns (v: World)
    requires Leads(w, u) && Claims(u, e, d, rc) && u.work[rc] == Claimed
    ensures Leads(w, v) && Claims(v, e, d, rc) && v.work[rc].Complete?
  {
    LeadsOn(w, u, BeginList(rc));
    var l := u.(work := u.work[rc := Listing(SlotNumbers(u.store.entries, e), {})]);
    l := ListingEnds(w, l, e, d, rc);
    LeadsOn(w, l, StartCall(rc));
    var c := l.(work := l.work[rc := CallOf(l, rc)]);
    var all := Count(|c.work[rc].subjects|);
    LeadsOn(w, c, EndCall(rc, all));
    v := PerformEndCall(c, rc, all).0;
  }

  lemma ReceiptIsWritten(u: World, e: Id, d: Digest, rc: nat)
    requires Claims(u, e, d, rc) && u.work[rc].Complete?
    ensures var v := PerformCreateReceipt(u, rc, u.clock).0;
            Claims(v, e, d, rc) && HasReceipt(v.store.entries, e)
  {
  }

  lemma EventIsDropped(u: World, e: Id, d: Digest, rc: nat)
    requires Claims(u, e, d, rc)
    ensures var v := PerformDropInvitation(u, rc).0;
            var x := PerformDropEvent(v, rc).0;
            && Claims(v, e, d, rc) && d in v.dropped
            && (HasReceipt(u.store.entries, e) ==> HasReceipt(v.store.entries, e))
            && e in x.opening && x.opening[e] == d && InvitationKey(d) !in x.store.entries
            && EventKey(e) !in x.store.entries
  {
  }

  lemma StoredAfterTheEnd(x: World, e: Id, d: Digest)
    requires e in x.opening && x.opening[e] == d && InvitationKey(d) !in x.store.entries &&
             EventKey(e) !in x.store.entries
    ensures var y := PerformCreateInvitation(x, e).0;
            Names(y.store.entries, d, e) && EventKey(e) !in y.store.entries
  {
  }

  /** From any world with an unfinished creation, a deletion can run to its end
      and the first invitation be stored after it, for an event that is gone. */
  lemma UnfinishedCreationCanOutliveItsEvent(w: World, e: Id) returns (y: World)
    requires Inv(w) && Tidy(w) && Unfinished(w, e)
    ensures Leads(w, y) && Names(y.store.entries, w.opening[e], e) && EventKey(e) !in y.store.entries
  {
    var d := w.opening[e];
    var u := DeletionBegins(w, e);
    var v, rc := DeletionGoesOn(w, u, e, d, w.store.revision + 1);
    v := GuestsAreErased(w, v, e, d, rc);
    y := FinalizedTooEarly(w, v, e, d, rc);
  }

  lemma FinalizedTooEarly(w: World, v: World, e: Id, d: Digest, rc: nat) returns (y: World)
    requires Leads(w, v) && Claims(v, e, d, rc) && v.work[rc].Complete?
    ensures Leads(w, y) && Names(y.store.entries, d, e) && EventKey(e) !in y.store.entries
  {
    ReceiptIsWritten(v, e, d, rc);
    LeadsOn(w, v, CreateReceipt(rc, v.clock));
    var x := PerformCreateReceipt(v, rc, v.clock).0;
    EventIsDropped(x, e, d, rc);
    LeadsOn(w, x, DropInvitation(rc));
    x := PerformDropInvitation(x, rc).0;
    LeadsOn(w, x, DropEvent(rc));
    x := PerformDropEvent(x, rc).0;
    StoredAfterTheEnd(x, e, d);
    LeadsOn(w, x, CreateInvitation(e));
    y := PerformCreateInvitation(x, e).0;
  }

  // ---------- Safe exactly once the creation has returned ----------

  /** Once its creation has returned, no interleaving puts an event's invitations
      out of order any more. */
  lemma {:induction false} CreatedStaysSound(w: World, run: seq<Action>, e: Id)
    requires Inv(w) && Tidy(w) && Sound(w, e) && e < w.drawn && e !in w.opening
    ensures var u := Exec(w, run);
            Inv(u) && Tidy(u) && Sound(u, e) && e < u.drawn && e !in u.opening
  {
    TidyExec(w, run);
    RunGrows(w, run);
    if run != [] {
      var front, a := run[..|run| - 1], run[|run| - 1];
      CreatedStaysSound(w, front, e);
      if Enabled(Exec(w, front), a) {
        SoundPerform(Exec(w, front), a, e);
        CreationBeginsOnce(Exec(w, front), a, e);
      }
    }
  }

  ghost predicate LeakedAfter(w: World, run: seq<Action>, d: Digest, e: Id) {
    Leaked(Exec(w, run), d, e)
  }

  /** For an event whose invitations are in order: no interleaving whatever can
      leave a key of it behind if and only if its creation has returned. */
  lemma SafeExactlyOnceCreated(w: World, e: Id)
    requires Inv(w) && Tidy(w) && Sound(w, e) && HasEvent(w.store.entries, e)
    ensures (forall run, d :: !LeakedAfter(w, run, d, e)) <==> e !in w.opening
  {
    if e in w.opening {
      EveryUnfinishedCreationCanLeak(w, e, []);
      assert LeakedAfter(w, EarlyRotation(w, e), w.opening[e], e);
    } else {
      LiveEvent(w, e);
      forall run, d ensures !LeakedAfter(w, run, d, e) {
        CreatedStaysSound(w, run, e);
        assert KeyHeld(Exec(w, run).store.entries, Exec(w, run).offers, d, e);
      }
    }
  }

  // ---------- A concrete input ----------

  lemma FirstEvent(cfg: Config, start: Time, capacity: nat) returns (w: World)
    requires capacity <= cfg.maxCapacity
    ensures w == Exec(Init(cfg, start), [CreateEvent(capacity)]) && Inv(w) && Tidy(w)
    ensures Unfinished(w, 0) && w.opening == map[0 := Digest(1)] && w.offers == map[]
  {
    w := PerformCreateEvent(Init(cfg, start), capacity).0;
    TidyInit(cfg, start);
    TidyExec(Init(cfg, start), [CreateEvent(capacity)]);
    OneMore(Init(cfg, start), [], CreateEvent(capacity));
    assert [] + [CreateEvent(capacity)] == [CreateEvent(capacity)];
  }

  /** The very first event of a service: its owner lists it, rotates it and has
      the old invitation withdrawn before its creation stores that invitation. */
  lemma RotatingTooEarlyLeaksAnInvitation(cfg: Config, start: Time, capacity: nat, more: seq<Action>)
    requires capacity <= cfg.maxCapacity
    ensures var w := Exec(Init(cfg, start), [CreateEvent(capacity)]);
            && Unfinished(w, 0)
            && var u := Exec(w, EarlyRotation(w, 0));
               && Leaked(u, Digest(1), 0) && u.offers == map[] && u.opening == map[]
               && Leaked(Exec(u, more), Digest(1), 0)
  {
    var w := FirstEvent(cfg, start, capacity);
    EveryUnfinishedCreationCanLeak(w, 0, more);
    EarlyRotationLeaks(w, 0);
  }
}
