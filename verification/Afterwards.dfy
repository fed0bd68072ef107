/** What one operation leaves to the next while nobody else acts: a pause to the
    reopening (internal/access/service.go:143-170, 513-534), a join to the guest's
    first renewal (265-401), a deletion to the cookies of its guests (593-613). */
module Afterwards {
  import opened KvStore
  import opened Model
  import opened Protocol
  import opened Invariants
  import opened Tenancy
  import opened Interference
  import opened ClusterApi
  import opened Cleanup
  import Control
  import Deletion
  import Joining
  import opened Renewal

  /** What a pause that reserved everything leaves of a renewable guest: her place,
      reserved, however much time has passed. */
  ghost predicate KeptThroughPause(w: World, w': World, e: Id, d: Digest) {
    Renewable(w, e, d) ==> Renewable(w', e, d) && SlotNow(w'.store.entries, e, NumberOf(w', e, d)).reserved
  }

  lemma PauseKeeps(w: World, u: World, w': World, e: Id, d: Digest)
    requires SameExcept(w.store, u.store, {EventKey(e)}) && Control.ReservedAlone(u, w', e)
    ensures KeptThroughPause(w, w', e, d)
  {
    assert SameAt(w.store, u.store, SessionKey(d)) && SameAt(u.store, w'.store, SessionKey(d));
    if Renewable(w, e, d) {
      assert SameAt(w.store, u.store, SlotKey(e, NumberOf(w, e, d)));
    }
  }

  lemma ReopeningKeeps(w: World, u: World, w': World, e: Id, d: Digest)
    requires u.store == w.store && SameExcept(u.store, w'.store, {EventKey(e)})
    requires Renewable(w, e, d) && SlotNow(w.store.entries, e, NumberOf(w, e, d)).reserved
    ensures Renewable(w', e, d)
  {
    assert SameAt(u.store, w'.store, SessionKey(d));
    assert SameAt(u.store, w'.store, SlotKey(e, NumberOf(w, e, d)));
  }

  /** With nobody else acting, an open event can be paused and, after any time at
      all, reopened; it is then as it was, and every guest that could renew before
      the pause can renew now. */
  method PauseAndReopen(c: Cluster, ghost rely: Rely, e: Id, passes: nat)
    returns (paused: Result<Event>, reopened: Result<Event>)
    requires c.Valid() && rely.alone && OpenNow(c.w.store.entries, e)
    modifies c
    ensures c.Valid() && Since(old(c.w), c.w)
    ensures paused.Success? && paused.value == EventNow(old(c.w).store.entries, e).(state := Paused)
    ensures reopened == Success(EventNow(old(c.w).store.entries, e))
    ensures HasEvent(c.w.store.entries, e) && EventNow(c.w.store.entries, e) == EventNow(old(c.w).store.entries, e)
    ensures forall d :: Renewable(old(c.w), e, d) ==> CanRenew(c.w, d) && Renewable(c.w, e, d)
  {
    ghost var w0 := c.w;
    ghost var stored, races;
    paused, stored, races := Control.SetState(c, rely, e, Paused, passes);
    ghost var w1 := c.w;
    assert SameAt(stored.store, w1.store, EventKey(e));
    c.Wait(rely);
    SinceChain(w0, w1, c.w);
    ghost var w2 := c.w;
    ghost var again;
    reopened, again, races := Control.SetState(c, rely, e, Open, passes);
    SinceChain(w0, w2, c.w);
    forall d | Renewable(w0, e, d) ensures Renewable(c.w, e, d) {
      PauseKeeps(w0, stored, w1, e, d);
      ReopeningKeeps(w1, w2, c.w, e, d);
    }
  }

  lemma JoinedCanRenew(w: World, u: World, w': World, ev: Event, v: Slot)
    requires Joining.AdmittedAlone(w, u, ev, v) && w'.store == u.store
    requires HasEvent(w.store.entries, ev.id) && EventNow(w.store.entries, ev.id) == ev && ev.state == Open
    ensures CanRenew(w', v.digest) <==> w'.clock < v.graceExpiresAt
    ensures !CanRenew(w', v.digest) ==> Refusal(w', v.digest) == SessionExpired
  {
    assert SameAt(w.store, u.store, EventKey(ev.id));
  }

  lemma OnePlacePerGuest(w: World, e: Id, n: nat, f: Id, m: nat)
    requires Inv(w) && HasSlot(w.store.entries, e, n) && HasSlot(w.store.entries, f, m)
    requires SlotNow(w.store.entries, e, n).subject.generation == SlotNow(w.store.entries, f, m).subject.generation
    ensures e == f && n == m
  {
    LiveVersion(w, SlotKey(e, n));
    LiveVersion(w, SlotKey(f, m));
  }

  /** A guest that got in can renew, in the same place and as the same subject,
      until its grace is over and no longer. */
  method JoinAndRenew(c: Cluster, ghost rely: Rely, d: Digest)
    returns (joined: Result<Slot>, renewed: Option<Result<Lease>>)
    requires c.Valid() && rely.alone
    modifies c
    ensures c.Valid() && Since(old(c.w), c.w)
    ensures joined.Success? ==>
              && renewed.Some? && (renewed.value.Success? <==> c.w.clock < joined.value.graceExpiresAt)
              && joined.value.graceExpiresAt == old(c.w).clock + c.w.cfg.leaseTTL + c.w.cfg.gracePeriod
              && (renewed.value.Failure? ==> renewed.value.problem == SessionExpired)
    ensures joined.Success? && renewed.Some? && renewed.value.Success? ==>
              && renewed.value.value.slot.subject == joined.value.subject
              && renewed.value.value.slot.number == joined.value.number
  {
    ghost var w0 := c.w;
    ghost var seen, invited, trace;
    joined, seen, invited, trace := Joining.StartSession(c, rely, d);
    renewed := None;
    if joined.Success? {
      var v := joined.value;
      ghost var w1 := c.w;
      c.Wait(rely);
      SinceChain(w0, w1, c.w);
      ghost var w2 := c.w;
      LiveVersion(w0, EventKey(w0.store.entries[InvitationKey(d)].value.eventId));
      JoinedCanRenew(w0, w1, w2, Joining.InvitedTo(w0, d), v);
      var renewal := RenewSession(c, rely, v.digest);
      renewed := Some(renewal);
      if renewal.Success? {
        LiveVersion(w2, SlotKey(v.eventId, v.number));
        OnePlacePerGuest(w2, v.eventId, v.number, renewal.value.slot.eventId, renewal.value.slot.number);
      }
      SinceChain(w0, w2, c.w);
      SinceFacts(w0, c.w);
    }
  }

  /** Either the session says so itself, or its event is being deleted. */
  lemma DeletionIsTold(w: World, w': World, e: Id, d: Digest, answer: Option<Answer>, result: Result<Receipt>)
    requires Inv(w) && HasEvent(w.store.entries, e) && Deletion.SeatedAt(w.store.entries, e, d)
    requires SessionKey(d) in w.store.entries && Deletion.DeletedAlone(w, w', e, answer, result)
    ensures !CanRenew(w', d) && Refusal(w', d) == EventDeleted
  {
    var n :| HasSlot(w.store.entries, e, n) && SlotNow(w.store.entries, e, n).digest == d;
    LiveVersion(w, SlotKey(e, n));
    LiveVersion(w, SessionKey(d));
    LiveVersion(w, EventKey(e));
    if result.Failure? && w' != w {
      assert SameAt(w.store, w'.store, SessionKey(d));
    }
  }

  /** Whatever the cleaner answers to a deletion, a guest seated at the event, with
      a session, is told that the event was deleted. */
  method DeleteAndReturn(c: Cluster, ghost rely: Rely, e: Id, d: Digest)
    returns (deleted: Result<Receipt>, renewed: Result<Lease>)
    requires c.Valid() && rely.alone && HasEvent(c.w.store.entries, e) && Deletion.SeatedAt(c.w.store.entries, e, d)
    requires SessionKey(d) in c.w.store.entries
    modifies c
    ensures c.Valid() && Since(old(c.w), c.w)
    ensures renewed == Failure(EventDeleted)
  {
    ghost var w0 := c.w;
    ghost var answer;
    deleted, answer := Deletion.DeleteEvent(c, rely, e);
    ghost var w1 := c.w;
    DeletionIsTold(w0, w1, e, d, answer, deleted);
    renewed := RenewSession(c, rely, d);
    SinceChain(w0, w1, c.w);
  }
}
