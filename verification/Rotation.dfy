/** Creating an event and rotating its invitation
    (internal/access/service.go:88-114, 199-227), modelled as methods, while
    other processes interfere. */
module Rotation {
  import opened KvStore
  import opened Model
  import opened Protocol
  import opened Invariants
  import opened Preservation
  import opened Fates
  import opened Frames
  import opened Runs
  import opened Invitations
  import opened Interference
  import opened ClusterApi
  import opened Cleanup

  lemma CreateEventOutcome(at: World, capacity: nat, w: World, reply: Reply)
    requires Inv(at) && (w, reply) == PerformCreateEvent(at, capacity)
    ensures var ev := Event(at.drawn, capacity, Draft, Digest(at.drawn + 1), None, None);
            && EventKey(ev.id) !in at.store.entries && reply.Ok?
            && ev.id in w.opening && w.opening[ev.id] == ev.invitation
            && InvitationKey(ev.invitation) !in w.store.entries
            && HasEvent(w.store.entries, ev.id) && EventNow(w.store.entries, ev.id) == ev
            && SameExcept(at.store, w.store, {EventKey(ev.id)})
  {
    if EventKey(at.drawn) in at.store.entries {
      LiveVersion(at, EventKey(at.drawn));
      assert false;
    }
    if InvitationKey(Digest(at.drawn + 1)) in at.store.entries {
      LiveVersion(at, InvitationKey(Digest(at.drawn + 1)));
      assert false;
    }
  }

  lemma InvitationOutcome(at: World, e: Id, w: World, reply: Reply)
    requires e in at.opening && (w, reply) == PerformCreateInvitation(at, e)
    ensures reply.Ok? ==> Names(w.store.entries, at.opening[e], e) && e !in w.opening
    ensures reply.Failed? ==> w == at
    ensures reply.Ok? <==> InvitationKey(at.opening[e]) !in at.store.entries
    ensures SameExcept(at.store, w.store, {InvitationKey(at.opening[e])})
  {
  }

  lemma UndoOutcome(at: World, e: Id, w: World, reply: Reply)
    requires e in at.opening && (w, reply) == PerformUndoCreate(at, e)
    ensures EventKey(e) !in w.store.entries && e !in w.opening && SameExcept(at.store, w.store, {EventKey(e)})
  {
  }

  /** What a creation comes to when no other process runs: it succeeds exactly
      when the store takes the invitation. */
  ghost predicate CreatedAlone(w: World, w': World, capacity: int, result: Result<Event>, refused: bool) {
    if !(0 <= capacity <= w.cfg.maxCapacity) then result == Failure(Conflicting) && w' == w
    else
      && result.Failure? == refused
      && match result
         case Success(ev) =>
           && EventKey(ev.id) !in w.store.entries && ev.state == Draft && ev.capacity == capacity
           && HasEvent(w'.store.entries, ev.id) && EventNow(w'.store.entries, ev.id) == ev
           && Names(w'.store.entries, ev.invitation, ev.id)
           && SameExcept(w.store, w'.store, {EventKey(ev.id), InvitationKey(ev.invitation)})
         case Failure(problem) => problem == StoreUnavailable && SameExcept(w.store, w'.store, {})
  }

  /** A new draft under an identifier never used, with its invitation. When the
      store does not take the invitation, the event is deleted again, by its key
      and in whatever state rivals have brought it to. `refused` says that the
      store answered the second write with an error. */
  method CreateEvent(c: Cluster, ghost rely: Rely, capacity: int)
    returns (result: Result<Event>, ghost created: Id, ghost refused: bool)
    requires c.Valid()
    modifies c
    ensures c.Valid() && Since(old(c.w), c.w)
    ensures result.Success? ==>
              var ev := result.value;
              && ev.id == created && ev.state == Draft && ev.capacity == capacity <= c.w.cfg.maxCapacity
              && Names(c.w.store.entries, ev.invitation, ev.id)
    ensures result != Failure(Conflicting) ==>
              created >= old(c.w).drawn && created !in c.w.opening
    ensures result.Failure? ==>
              || (result.problem == Conflicting && c.w == old(c.w))
              || (result.problem == StoreUnavailable && EventKey(created) !in c.w.store.entries)
    ensures rely.alone ==> CreatedAlone(old(c.w), c.w, capacity, result, refused)
    ensures result.Success? ==> !refused
  {
    ghost var w0 := c.w;
    SinceSelf(w0);
    if capacity < 0 || capacity > c.w.cfg.maxCapacity {
      return Failure(Conflicting), 0, false;
    }
    var stored, ev, at := c.CreateEvent(rely, capacity);
    CreateEventOutcome(at, capacity, c.w, stored);
    created := ev.id;
    ghost var w1 := c.w;
    SinceFacts(w0, w1);
    CreatedLater(w0, at, rely);
    ghost var mine := rely.(mine := rely.mine + {OpeningToken(ev.id)});
    var unavailable: bool := *;
    refused := unavailable;
    if !unavailable {
      var invited, at' := c.CreateInvitation(mine, ev.id);
      InvitationOutcome(at', ev.id, c.w, invited);
      SinceChain(w0, w1, c.w);
      SinceFacts(w1, c.w);
      if invited.Ok? {
        return Success(ev), created, refused;
      }
    } else {
      SinceSelf(w1);
    }
    ghost var w2 := c.w;
    var _, at'' := c.UndoCreateEvent(mine, ev.id);
    UndoOutcome(at'', ev.id, c.w, PerformUndoCreate(at'', ev.id).1);
    SinceChain(w0, w2, c.w);
    if rely.alone {
      UndoneLeavesNothing(w0, w2, c.w, ev.id);
    }
    return Failure(StoreUnavailable), created, refused;
  }

  lemma UndoneLeavesNothing(w: World, u: World, w': World, e: Id)
    requires SameExcept(w.store, u.store, {EventKey(e)}) && SameExcept(u.store, w'.store, {EventKey(e)})
    requires EventKey(e) !in w.store.entries && EventKey(e) !in w'.store.entries
    ensures SameExcept(w.store, w'.store, {})
  {
    forall k: Key | k !in {} ensures SameAt(w.store, w'.store, k) {
      if k != EventKey(e) {
        assert SameAt(w.store, u.store, k) && SameAt(u.store, w'.store, k);
      }
    }
  }

  lemma CreatedLater(w: World, at: World, rely: Rely)
    requires Meanwhile(w, at, rely)
    ensures w.drawn <= at.drawn
  {
    ShowMeanwhile(w, at, rely);
  }

  lemma OfferOutcome(at: World, r: nat, w: World, reply: Reply)
    requires Inv(at) && IsEvent(at.store.written, r) && (w, reply) == PerformOffer(at, r)
    ensures var d := Digest(at.drawn);
            && reply.Ok? && d !in at.offers && w.offers == at.offers[d := Offered(r)]
            && Names(w.store.entries, d, EventAt(at.store.written, r).id)
            && SameExcept(at.store, w.store, {InvitationKey(d)})
            && InvitationKey(d) !in at.store.entries && EventAt(at.store.written, r).invitation != d
  {
    HeldDigestsDrawn(at);
    OldDigest(at, r);
    if InvitationKey(Digest(at.drawn)) in at.store.entries {
      LiveVersion(at, InvitationKey(Digest(at.drawn)));
      assert false;
    }
  }

  lemma RotateOutcome(at: World, r: nat, d: Digest, w: World, reply: Reply)
    requires IsEvent(at.store.written, r) && EventChangeAllowed(at, r, Rotate(d))
    requires (w, reply) == PerformUpdateEvent(at, r, Rotate(d))
    ensures var ev := EventAt(at.store.written, r);
            && (reply.Ok? <==> IsLive(at.store.entries, EventKey(ev.id), r))
            && (reply.Failed? ==> w.store == at.store && w.offers == at.offers[d := Stale])
            && (reply.Ok? ==>
                  && w.offers == (at.offers - {d})[ev.invitation := Stale]
                  && HasEvent(w.store.entries, ev.id) && EventNow(w.store.entries, ev.id) == ev.(invitation := d))
            && SameExcept(at.store, w.store, {EventKey(ev.id)})
  {
  }

  lemma WithdrawOutcome(at: World, d: Digest, w: World, reply: Reply)
    requires (w, reply) == PerformWithdraw(at, d)
    ensures w.offers == at.offers - {d} && InvitationKey(d) !in w.store.entries
    ensures SameExcept(at.store, w.store, {InvitationKey(d)})
  {
  }

  /** The event's invitation is replaced, and nothing else. */
  ghost predicate RotatedAlone(w: World, w': World, e: Id, d: Digest) {
    && HasEvent(w.store.entries, e) && HasEvent(w'.store.entries, e)
    && EventNow(w'.store.entries, e) == EventNow(w.store.entries, e).(invitation := d)
    && InvitationKey(d) !in w.store.entries && Names(w'.store.entries, d, e)
    && InvitationKey(EventNow(w.store.entries, e).invitation) !in w'.store.entries
    && SameExcept(w.store, w'.store,
                  {EventKey(e), InvitationKey(d), InvitationKey(EventNow(w.store.entries, e).invitation)})
  }

  /** Replace the invitation: store a new one, make it current, drop the old; or
      take the new one back if another writer changed the event. `decided` is
      the moment just after the event was, or was not, written. */
  method RotateInvitation(c: Cluster, ghost rely: Rely, e: Id)
    returns (result: Result<Digest>, ghost decided: World, ghost dropped: Option<Digest>)
    requires c.Valid()
    modifies c
    ensures c.Valid() && Since(old(c.w), c.w)
    ensures result.Success? ==> IsCurrent(decided.store.entries, result.value, e) && Since(decided, c.w)
    ensures result.Success? ==> dropped.Some? && dropped.value != result.value
    ensures dropped.Some? ==> InvitationKey(dropped.value) !in c.w.store.entries && dropped.value !in c.w.offers
    ensures Since(old(c.w), decided)
    ensures result.Failure? && dropped.None? ==>
              if result.problem == Missing then EventKey(e) !in decided.store.entries
              else
                && result.problem == Conflicting && HasEvent(decided.store.entries, e)
                && EventNow(decided.store.entries, e).state == Deleting
    ensures result.Failure? && dropped.Some? ==>
              && dropped.value.secret >= old(c.w).drawn
              && result.problem == StoreError(if EventKey(e) in decided.store.entries then Conflict else NotFound)
    ensures rely.alone ==>
              (result.Success? <==>
                 HasEvent(old(c.w).store.entries, e) && EventNow(old(c.w).store.entries, e).state != Deleting)
    ensures rely.alone && result.Success? ==> RotatedAlone(old(c.w), c.w, e, result.value)
    ensures rely.alone && result.Failure? ==>
              && result.problem == (if HasEvent(old(c.w).store.entries, e) then Conflicting else Missing)
              && c.w == old(c.w)
  {
    ghost var w0 := c.w;
    dropped := None;
    var found := c.LoadEvent(rely, e);
    decided := c.w;
    if found.None? {
      return Failure(Missing), decided, dropped;
    }
    var ev, r := found.value.value, found.value.revision;
    if ev.state == Deleting {
      return Failure(Conflicting), decided, dropped;
    }
    ghost var w1 := c.w;
    var offered, d, at := c.OfferInvitation(rely, r);
    OfferOutcome(at, r, c.w, offered);
    CreatedLater(w1, at, rely);
    SinceFacts(w0, w1);
    ghost var w2 := c.w;
    SinceChain(w0, w1, w2);
    SinceEvent(w1, w2, r);
    var reply, at' := c.Rotate(rely.(mine := rely.mine + {OfferToken(d)}), r, d);
    RotateOutcome(at', r, d, c.w, reply);
    decided := c.w;
    SinceChain(w0, w2, decided);
    ghost var mine := rely.(mine := rely.mine + {OfferToken(d), OfferToken(ev.invitation)});
    if reply.Failed? {
      var _, at'' := c.WithdrawInvitation(mine, d);
      WithdrawOutcome(at'', d, c.w, PerformWithdraw(at'', d).1);
      SinceChain(w0, decided, c.w);
      return Failure(StoreError(reply.error)), decided, Some(d);
    }
    var withdrawn, at'' := c.WithdrawInvitation(mine, ev.invitation);
    WithdrawOutcome(at'', ev.invitation, c.w, withdrawn);
    SinceChain(w0, decided, c.w);
    if rely.alone {
      RotatedStepByStep(w0, w2, decided, c.w, ev, d);
    }
    return Success(d), decided, Some(ev.invitation);
  }

  lemma RotatedStepByStep(w: World, u: World, v: World, w': World, ev: Event, d: Digest)
    requires HasEvent(w.store.entries, ev.id) && EventNow(w.store.entries, ev.id) == ev && ev.invitation != d
    requires InvitationKey(d) !in w.store.entries && Names(u.store.entries, d, ev.id)
    requires SameExcept(w.store, u.store, {InvitationKey(d)}) && SameExcept(u.store, v.store, {EventKey(ev.id)})
    requires HasEvent(v.store.entries, ev.id) && EventNow(v.store.entries, ev.id) == ev.(invitation := d)
    requires SameExcept(v.store, w'.store, {InvitationKey(ev.invitation)}) &&
             InvitationKey(ev.invitation) !in w'.store.entries
    ensures RotatedAlone(w, w', ev.id, d)
  {
    assert SameAt(u.store, v.store, InvitationKey(d)) && SameAt(v.store, w'.store, InvitationKey(d));
    assert SameAt(v.store, w'.store, EventKey(ev.id));
    forall k | k !in {EventKey(ev.id), InvitationKey(d), InvitationKey(ev.invitation)}
      ensures SameAt(w.store, w'.store, k)
    {
      assert SameAt(w.store, u.store, k) && SameAt(u.store, v.store, k) && SameAt(v.store, w'.store, k);
    }
  }
}
