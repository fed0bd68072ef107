/** Deleting an event (internal/access/recovery.go:82-193,
    internal/access/service.go:444-469, 593-613), modelled as methods, while
    other processes interfere. */
module Deletion {
  import opened KvStore
  import opened Model
  import opened Protocol
  import opened Invariants
  import opened Interference
  import opened ClusterApi
  import opened Backoff
  import opened Cleanup
  import opened Listing

  /** The session index of `d` is gone, or says the event was deleted. */
  predicate Tombstoned(entries: Entries, d: Digest) {
    SessionKey(d) in entries ==> entries[SessionKey(d)].value.SessionV? && entries[SessionKey(d)].value.index.deleted
  }

  /** If it was there, it is there still and says so. */
  predicate Marked(w: World, w': World, d: Digest) {
    Tombstoned(w'.store.entries, d) && (SessionKey(d) in w.store.entries ==> SessionKey(d) in w'.store.entries)
  }

  /** Every guest of the event that was ever minted is acknowledged. */
  ghost predicate GuestsErased(w: World, e: Id) {
    forall x :: x in w.minted && x.eventId == e ==> x in w.acked
  }

  lemma ReceiptErases(w: World, e: Id)
    requires Inv(w) && HasReceipt(w.store.entries, e)
    ensures GuestsErased(w, e) && e in w.doomed
    ensures w.store.entries[ReceiptKey(e)].value.ReceiptV?
    ensures w.store.entries[ReceiptKey(e)].value.receipt.deletionId == w.doomed[e]
  {
    ReceiptTyped(w, e);
    MintTyped(w);
    LiveVersion(w, ReceiptKey(e));
    forall x | x in w.minted && x.eventId == e ensures x in w.acked {
      assert IsIndexed(w.joins, x);
    }
  }

  lemma TombstoneOutcome(at: World, r: nat, q: nat, w: World, reply: Reply)
    requires IsSlot(at.store.written, r) && (w, reply) == PerformTombstone(at, r, q)
    ensures var k := SessionKey(SlotAt(at.store.written, r).digest);
            && w == at.(store := w.store) && SameExcept(at.store, w.store, {k})
            && (reply.Ok? <==> IsLive(at.store.entries, k, q))
            && (reply == Failed(NotFound) <==> k !in at.store.entries) && reply != Failed(Exists)
            && (reply.Ok? ==> k in w.store.entries && Tombstoned(w.store.entries, k.digest))
  {
  }

  lemma PurgeOutcome(at: World, r: nat, w: World, reply: Reply)
    requires IsSlot(at.store.written, r) && (w, reply) == PerformDeleteSlot(at, r)
    ensures var v := SlotAt(at.store.written, r);
            var k := SlotKey(v.eventId, v.number);
            && w == at.(store := w.store) && SameExcept(at.store, w.store, {k})
            && (reply == Failed(Conflict) <==> k in at.store.entries && !IsLive(at.store.entries, k, r))
            && (reply != Failed(Conflict) ==> k !in w.store.entries)
  {
  }

  /** Only the index of `d` may differ. */
  ghost predicate OnlyIndex(w: World, w': World, d: Digest) {
    w' == w.(store := w'.store) && SameExcept(w.store, w'.store, {SessionKey(d)})
  }

  /** The cookie of a slot's guest is answered "deleted" from now on. */
  method MarkSessionDeleted(c: Cluster, ghost rely: Rely, x: Versioned<Slot>)
    returns (problem: Option<Problem>, ghost races: seq<Race>, ghost last: World)
    requires c.Valid() && SlotRead(c.w, x.value.eventId, x) && HasReceipt(c.w.store.entries, x.value.eventId)
    modifies c
    ensures c.Valid() && Since(old(c.w), c.w)
    ensures problem.None? ==> Tombstoned(c.w.store.entries, x.value.digest)
    ensures AllLost(old(c.w), races, SessionKey(x.value.digest)) && (problem == Some(Conflicting) ==> |races| == 5)
    ensures problem.Some? ==> Since(old(c.w), last) && GuestProblem(last.store.entries, x, problem.value)
    ensures problem != Some(StoreError(Conflict))
    ensures rely.alone ==>
              problem.None? && OnlyIndex(old(c.w), c.w, x.value.digest) && Marked(old(c.w), c.w, x.value.digest)
  {
    ghost var w0 := c.w;
    SinceSelf(w0);
    races, last := [], w0;
    var attempt := 0;
    while attempt < 5
      invariant c.Valid() && Since(w0, c.w)
      invariant attempt == |races| <= 5 && AllLost(w0, races, SessionKey(x.value.digest))
      invariant rely.alone ==> attempt == 0 && c.w == w0
    {
      ghost var w1 := c.w;
      var entry := c.LoadIndex(rely, x.value.digest);
      SinceChain(w0, w1, c.w);
      if entry.None? {
        return None, races, last;
      }
      ghost var w2 := c.w;
      SinceSlot(w0, w2, x.revision);
      SinceReceipt(w0, w2, x.value.eventId);
      var reply, at := c.Tombstone(rely, x.revision, entry.value.revision);
      SinceSlot(w2, c.w, x.revision);
      SinceChain(w0, w2, c.w);
      TombstoneOutcome(at, x.revision, entry.value.revision, c.w, reply);
      if reply.Ok? {
        return None, races, last;
      }
      SinceChain(w0, w2, at);
      if reply.error != Conflict {
        return Some(StoreError(reply.error)), races, at;
      }
      RaceLost(w0, w2, at, entry.value.revision, SessionKey(x.value.digest), races);
      races := races + [Race(at, entry.value.revision)];
      attempt := attempt + 1;
    }
    return Some(Conflicting), races, last;
  }

  /** The first `i` listed slots are purged and their sessions marked; nothing
      else differs. */
  ghost predicate Purged(w: World, w': World, e: Id, slots: seq<Versioned<Slot>>, i: nat)
    requires i <= |slots|
  {
    && w' == w.(store := w'.store)
    && (forall j :: 0 <= j < i ==>
          SlotKey(e, slots[j].value.number) !in w'.store.entries && Marked(w, w', slots[j].value.digest))
    && (forall k: Key :: !AmongFirst(e, slots, i, k) ==> SameAt(w.store, w'.store, k))
  }

  predicate AmongFirst(e: Id, slots: seq<Versioned<Slot>>, i: nat, k: Key)
    requires i <= |slots|
  {
    match k
    case SlotKey(e', n) => e' == e && exists j :: 0 <= j < i && slots[j].value.number == n
    case SessionKey(d) => exists j :: 0 <= j < i && slots[j].value.digest == d
    case _ => false
  }

  lemma PurgedNext(w0: World, w: World, u: World, w': World, e: Id, slots: seq<Versioned<Slot>>, i: nat)
    requires i < |slots| && Purged(w0, w, e, slots, i)
    requires OnlyIndex(w, u, slots[i].value.digest) && Marked(w, u, slots[i].value.digest)
    requires w' == u.(store := w'.store) && SameExcept(u.store, w'.store, {SlotKey(e, slots[i].value.number)})
    requires SlotKey(e, slots[i].value.number) !in w'.store.entries
    ensures Purged(w0, w', e, slots, i + 1)
  {
    forall j | 0 <= j < i + 1
      ensures SlotKey(e, slots[j].value.number) !in w'.store.entries && Marked(w0, w', slots[j].value.digest)
    {
      var k, d := SlotKey(e, slots[j].value.number), slots[j].value.digest;
      assert SameAt(u.store, w'.store, SessionKey(d));
      if j < i {
        assert SameAt(w.store, u.store, k);
        assert k != SlotKey(e, slots[i].value.number) ==> SameAt(u.store, w'.store, k);
        assert d != slots[i].value.digest ==> SameAt(w.store, u.store, SessionKey(d));
      } else if !AmongFirst(e, slots, i, SessionKey(d)) {
        assert SameAt(w0.store, w.store, SessionKey(d));
      }
    }
    assert AmongFirst(e, slots, i + 1, SlotKey(e, slots[i].value.number));
    assert AmongFirst(e, slots, i + 1, SessionKey(slots[i].value.digest));
    forall k: Key | !AmongFirst(e, slots, i + 1, k) ensures SameAt(w0.store, w'.store, k) {
      assert !AmongFirst(e, slots, i, k);
      assert SameAt(w0.store, w.store, k) && SameAt(w.store, u.store, k) && SameAt(u.store, w'.store, k);
    }
  }

  /** No event and no slot but those of `e` changed, and no time has passed. */
  ghost predicate OnlyOf(w: World, w': World, e: Id) {
    && w'.clock == w.clock && w'.cfg == w.cfg
    && (forall k: Key :: (k.EventKey? || k.SlotKey?) && k.eventId != e ==> SameAt(w.store, w'.store, k))
  }

  /** The digest is that of a guest in a slot of the event. */
  ghost predicate SeatedAt(entries: Entries, e: Id, d: Digest) {
    exists n :: HasSlot(entries, e, n) && SlotNow(entries, e, n).digest == d
  }

  /** Nobody else's session changed, no other invitation, and no other receipt. */
  ghost predicate OnlyMarks(w: World, w': World, ev: Event) {
    && (forall d :: !SeatedAt(w.store.entries, ev.id, d) ==> SameAt(w.store, w'.store, SessionKey(d)))
    && (forall d :: d != ev.invitation ==> SameAt(w.store, w'.store, InvitationKey(d)))
    && (forall e :: e != ev.id ==> SameAt(w.store, w'.store, ReceiptKey(e)))
  }

  /** Nothing of the event is left but its receipt and tombstones. */
  ghost predicate FinalizedAlone(w: World, w': World, ev: Event) {
    && OnlyOf(w, w', ev.id) && OnlyMarks(w, w', ev)
    && EventKey(ev.id) !in w'.store.entries && InvitationKey(ev.invitation) !in w'.store.entries
    && (forall n :: SlotKey(ev.id, n) !in w'.store.entries)
    && (forall n :: HasSlot(w.store.entries, ev.id, n) ==>
          Marked(w, w', SlotNow(w.store.entries, ev.id, n).digest))
  }

  /** Every slot of the event is gone and its sessions marked; nothing else
      differs. */
  ghost predicate Cleared(w: World, w': World, e: Id) {
    && w'.clock == w.clock && w'.cfg == w.cfg && w'.acked == w.acked
    && (forall n :: SlotKey(e, n) !in w'.store.entries)
    && (forall n :: HasSlot(w.store.entries, e, n) ==> Marked(w, w', SlotNow(w.store.entries, e, n).digest))
    && (forall k: Key :: !(k.SlotKey? && k.eventId == e) && !IsSessionAt(w.store.entries, e, k) ==>
          SameAt(w.store, w'.store, k))
  }

  /** The key is that of a session of a guest in a slot of the event. */
  ghost predicate IsSessionAt(entries: Entries, e: Id, k: Key) {
    k.SessionKey? && SeatedAt(entries, e, k.digest)
  }

  /** The slots cleared, then the invitation dropped, then the event. */
  lemma ClearedThenDropped(w: World, u: World, v: World, w': World, ev: Event)
    requires Cleared(w, u, ev.id) && SameExcept(u.store, v.store, {InvitationKey(ev.invitation)})
    requires InvitationKey(ev.invitation) !in v.store.entries && v.clock == u.clock && v.cfg == u.cfg
    requires SameExcept(v.store, w'.store, {EventKey(ev.id)}) && EventKey(ev.id) !in w'.store.entries
    requires w'.clock == v.clock && w'.cfg == v.cfg
    ensures FinalizedAlone(w, w', ev)
  {
    forall k: Key | k != InvitationKey(ev.invitation) && k != EventKey(ev.id) ensures SameAt(u.store, w'.store, k) {
      assert SameAt(u.store, v.store, k) && SameAt(v.store, w'.store, k);
    }
    assert SameAt(v.store, w'.store, InvitationKey(ev.invitation));
    forall n ensures SlotKey(ev.id, n) !in w'.store.entries {
      assert SameAt(u.store, w'.store, SlotKey(ev.id, n));
    }
    forall n | HasSlot(w.store.entries, ev.id, n) ensures Marked(w, w', SlotNow(w.store.entries, ev.id, n).digest) {
      assert SameAt(u.store, w'.store, SessionKey(SlotNow(w.store.entries, ev.id, n).digest));
    }
    forall k: Key | k != InvitationKey(ev.invitation) && k != EventKey(ev.id) && !(k.SlotKey? && k.eventId == ev.id)
                    && !IsSessionAt(w.store.entries, ev.id, k)
      ensures SameAt(w.store, w'.store, k)
    {
      assert SameAt(w.store, u.store, k) && SameAt(u.store, w'.store, k);
    }
  }

  lemma AllPurged(w: World, w': World, e: Id, slots: seq<Versioned<Slot>>)
    requires ListsExactly(w, e, {}, slots) && Purged(w, w', e, slots, |slots|)
    ensures Cleared(w, w', e)
  {
    forall n ensures SlotKey(e, n) !in w'.store.entries {
      if SlotKey(e, n) in w.store.entries {
        var i :| 0 <= i < |slots| && slots[i].value.number == n;
      } else if !AmongFirst(e, slots, |slots|, SlotKey(e, n)) {
        assert SameAt(w.store, w'.store, SlotKey(e, n));
      }
    }
    forall n | HasSlot(w.store.entries, e, n)
      ensures Marked(w, w', SlotNow(w.store.entries, e, n).digest)
    {
      var i :| 0 <= i < |slots| && slots[i].value.number == n;
    }
    forall k: Key | !(k.SlotKey? && k.eventId == e) && !IsSessionAt(w.store.entries, e, k)
      ensures SameAt(w.store, w'.store, k)
    {
      if AmongFirst(e, slots, |slots|, k) {
        var j :| 0 <= j < |slots| && slots[j].value.digest == k.digest;
        assert HasSlot(w.store.entries, e, slots[j].value.number);
      }
    }
  }

  lemma DropOutcome(at: World, r: nat, u: World, reply: Reply)
    requires IsEvent(at.store.written, r) && (u, reply) == PerformDropInvitation(at, r)
    ensures var d := EventAt(at.store.written, r).invitation;
            && InvitationKey(d) !in u.store.entries && d in u.dropped
            && SameExcept(at.store, u.store, {InvitationKey(d)}) && u.acked == at.acked && u.minted == at.minted
            && u.clock == at.clock && u.cfg == at.cfg
  {
  }

  lemma DropEventOutcome(at: World, r: nat, w: World, reply: Reply)
    requires IsEvent(at.store.written, r) && (w, reply) == PerformDropEvent(at, r)
    ensures var k := EventKey(EventAt(at.store.written, r).id);
            && (reply == Failed(Conflict) <==> k in at.store.entries && !IsLive(at.store.entries, k, r))
            && (reply != Failed(Conflict) ==> k !in w.store.entries)
            && SameExcept(at.store, w.store, {k}) && w.acked == at.acked && w.minted == at.minted
            && w.clock == at.clock && w.cfg == at.cfg
  {
  }

  /** Every guest that had a place at `w` has left it at `w'`. */
  ghost predicate AllLeft(w: World, w': World, e: Id) {
    forall g :: g in w.joins && w.joins[g].eventId == e ==> !Holds(w'.store.entries, w.joins[g], g)
  }

  lemma AllLeftStays(w: World, u: World, w': World, e: Id)
    requires Since(w, u) && Since(u, w') && AllLeft(w, u, e)
    ensures AllLeft(w, w', e)
  {
    ShowSince(w, u);
    ShowSince(u, w');
  }

  /** The generation of a listed slot is no longer at its place. */
  predicate HasLeft(entries: Entries, v: Slot) {
    HasSlot(entries, v.eventId, v.number) ==> SlotNow(entries, v.eventId, v.number).generation != v.generation
  }

  lemma HasLeftStays(w: World, w': World, e: Id, x: Versioned<Slot>)
    requires Since(w, w') && SlotRead(w, e, x) && HasLeft(w.store.entries, x.value)
    ensures HasLeft(w'.store.entries, x.value)
  {
    ShowSince(w, w');
    assert !Holds(w.store.entries, w.joins[x.value.generation], x.value.generation);
  }

  lemma AllHaveLeft(w: World, w': World, e: Id, slots: seq<Versioned<Slot>>)
    requires Covers(w, w', e, {}, slots) && forall j :: 0 <= j < |slots| ==> HasLeft(w'.store.entries, slots[j].value)
    requires Since(w, w') && forall x :: x in slots ==> SlotRead(w', e, x)
    ensures AllLeft(w, w', e)
  {
    ShowSince(w, w');
    forall g | g in w.joins && w.joins[g].eventId == e ensures !Holds(w'.store.entries, w.joins[g], g) {
      if Lists(slots, g) {
        var i :| 0 <= i < |slots| && slots[i].value.generation == g;
        assert slots[i] in slots;
      }
    }
  }

  lemma FirstHaveLeft(w: World, w': World, e: Id, slots: seq<Versioned<Slot>>, i: nat)
    requires i <= |slots| && Since(w, w') && forall x :: x in slots ==> SlotRead(w, e, x)
    requires forall j :: 0 <= j < i ==> HasLeft(w.store.entries, slots[j].value)
    ensures forall j :: 0 <= j < i ==> HasLeft(w'.store.entries, slots[j].value)
  {
    forall j | 0 <= j < i ensures HasLeft(w'.store.entries, slots[j].value) {
      assert slots[j] in slots;
      HasLeftStays(w, w', e, slots[j]);
    }
  }

  /** Tombstone the session of one listed slot, then delete that version of it.
      `marked` is the moment in between. */
  method PurgeOne(c: Cluster, ghost rely: Rely, ghost e: Id, x: Versioned<Slot>)
    returns (problem: Option<Problem>, ghost marked: World, ghost last: World)
    requires c.Valid() && SlotRead(c.w, e, x) && HasReceipt(c.w.store.entries, e)
    modifies c
    ensures c.Valid() && Since(old(c.w), c.w)
    ensures problem.None? ==> HasLeft(c.w.store.entries, x.value)
    ensures problem.Some? ==> Since(old(c.w), last) && GuestProblem(last.store.entries, x, problem.value)
    ensures rely.alone && IsLive(old(c.w).store.entries, SlotKey(e, x.value.number), x.revision) ==>
              && problem.None?
              && OnlyIndex(old(c.w), marked, x.value.digest) && Marked(old(c.w), marked, x.value.digest)
              && c.w == marked.(store := c.w.store) && SlotKey(e, x.value.number) !in c.w.store.entries
              && SameExcept(marked.store, c.w.store, {SlotKey(e, x.value.number)})
  {
    ghost var w0 := c.w;
    ghost var races;
    problem, races, last := MarkSessionDeleted(c, rely, x);
    marked := c.w;
    if problem.Some? {
      return;
    }
    SlotStillRead(w0, marked, e, x);
    SinceReceipt(w0, marked, e);
    var reply, at := c.PurgeSlot(rely, x.revision);
    SinceSlot(marked, c.w, x.revision);
    SinceChain(w0, marked, c.w);
    PurgeOutcome(at, x.revision, c.w, reply);
    if rely.alone {
      assert SameAt(w0.store, marked.store, SlotKey(e, x.value.number));
    }
    last := at;
    SinceChain(w0, marked, at);
    problem := if reply == Failed(Conflict) then Some(StoreError(Conflict)) else None;
  }

  /** A guest of the event kept the finalizer from going on. */
  ghost predicate Blocked(w: World, e: Id, problem: Problem, ending: Ending)
    requires ending.AtGuest?
  {
    && Since(w, ending.at) && ending.guest.value.eventId == e
    && GuestProblem(ending.at.store.entries, ending.guest, problem)
  }

  /** Tombstone and purge every listed slot. Without a problem every guest that
      had a place of the event when it began has left it, whoever else acts. */
  method PurgeSlots(c: Cluster, ghost rely: Rely, e: Id) returns (problem: Option<Problem>, ghost ending: Ending)
    requires c.Valid() && HasReceipt(c.w.store.entries, e)
    modifies c
    ensures c.Valid() && Since(old(c.w), c.w)
    ensures problem.None? ==> AllLeft(old(c.w), c.w, e)
    ensures problem.Some? ==> ending.AtGuest? && Blocked(old(c.w), e, problem.value, ending)
    ensures rely.alone ==>
              problem.None? && c.w == old(c.w).(store := c.w.store) && Cleared(old(c.w), c.w, e)
  {
    ghost var w0 := c.w;
    ending := AtClock(w0);
    var slots := ListSlots(c, rely, e);
    SinceReceipt(w0, c.w, e);
    var i := 0;
    while i < |slots|
      invariant 0 <= i <= |slots|
      invariant c.Valid() && Since(w0, c.w) && HasReceipt(c.w.store.entries, e)
      invariant forall x :: x in slots ==> SlotRead(c.w, e, x)
      invariant Covers(w0, c.w, e, {}, slots)
      invariant forall j :: 0 <= j < i ==> HasLeft(c.w.store.entries, slots[j].value)
      invariant rely.alone ==> Purged(w0, c.w, e, slots, i)
    {
      assert slots[i] in slots;
      ghost var w1 := c.w;
      if rely.alone {
        StillThere(w0, w1, e, slots, i);
      }
      ghost var w2, last;
      problem, w2, last := PurgeOne(c, rely, e, slots[i]);
      SinceChain(w0, w1, c.w);
      if problem.Some? {
        SinceChain(w0, w1, last);
        ending := AtGuest(last, slots[i]);
        return;
      }
      SinceReceipt(w1, c.w, e);
      SlotsStillRead(w1, c.w, e, slots);
      FirstHaveLeft(w1, c.w, e, slots, i);
      CoversLater(w0, w1, c.w, e, {}, slots);
      if rely.alone {
        PurgedNext(w0, w1, w2, c.w, e, slots, i);
      }
      i := i + 1;
    }
    AllHaveLeft(w0, c.w, e, slots);
    if rely.alone {
      AllPurged(w0, c.w, e, slots);
    }
    return None, ending;
  }

  /** A slot not purged yet is as the listing read it. */
  lemma StillThere(w0: World, w: World, e: Id, slots: seq<Versioned<Slot>>, i: nat)
    requires i < |slots| && ListsExactly(w0, e, {}, slots) && Purged(w0, w, e, slots, i)
    ensures IsLive(w.store.entries, SlotKey(e, slots[i].value.number), slots[i].revision)
  {
    var k := SlotKey(e, slots[i].value.number);
    assert !AmongFirst(e, slots, i, k);
    assert SameAt(w0.store, w.store, k);
  }

  /** How the last part of a deletion came out, whoever else acts: a guest or the
      deletion of the event decided it. */
  ghost predicate Stopped(w: World, ev: Event, problem: Option<Problem>, ending: Ending) {
    && Since(w, ending.at) && (ending.AtGuest? || ending.AtDrop?)
    && (ending.AtGuest? ==> ending.guest.value.eventId == ev.id)
    && CameOut(EventKey(ev.id), 0, None, problem, ending)
  }

  lemma StoppedSince(w: World, u: World, ev: Event, problem: Option<Problem>, ending: Ending)
    requires Since(w, u) && Stopped(u, ev, problem, ending)
    ensures Stopped(w, ev, problem, ending)
  {
    SinceChain(w, u, ending.at);
  }

  /** The last part of a deletion: the slots, the invitation, then the event. */
  method FinalizeEvent(c: Cluster, ghost rely: Rely, ev: Event, r: nat)
    returns (problem: Option<Problem>, ghost ending: Ending)
    requires c.Valid() && IsEvent(c.w.store.written, r) && EventAt(c.w.store.written, r) == ev
    requires ev.state == Deleting && HasReceipt(c.w.store.entries, ev.id)
    modifies c
    ensures c.Valid() && Since(old(c.w), c.w)
    ensures problem.None? ==> EventKey(ev.id) !in c.w.store.entries && AllLeft(old(c.w), c.w, ev.id)
    ensures Stopped(old(c.w), ev, problem, ending)
    ensures rely.alone && IsLive(old(c.w).store.entries, EventKey(ev.id), r) ==>
              problem.None? && FinalizedAlone(old(c.w), c.w, ev) && c.w.acked == old(c.w).acked
  {
    ghost var w0 := c.w;
    problem, ending := PurgeSlots(c, rely, ev.id);
    if problem.Some? {
      return;
    }
    ghost var w1 := c.w;
    SinceEvent(w0, w1, r);
    SinceReceipt(w0, w1, ev.id);
    var _, at := c.DropInvitation(rely, r);
    ghost var w2 := c.w;
    SinceEvent(w1, w2, r);
    SinceReceipt(w1, w2, ev.id);
    SinceChain(w0, w1, w2);
    DropOutcome(at, r, w2, PerformDropInvitation(at, r).1);
    var reply, at' := c.DropEvent(rely, r);
    SinceEvent(w2, c.w, r);
    SinceChain(w0, w2, c.w);
    SinceChain(w1, w2, c.w);
    AllLeftStays(w0, w1, c.w, ev.id);
    DropEventOutcome(at', r, c.w, reply);
    if rely.alone && IsLive(w0.store.entries, EventKey(ev.id), r) {
      assert SameAt(w0.store, w1.store, EventKey(ev.id)) && SameAt(w1.store, w2.store, EventKey(ev.id));
      ClearedThenDropped(w0, w1, w2, c.w, ev);
    }
    SinceChain(w0, w2, at');
    return if reply == Failed(Conflict) then Some(StoreError(Conflict)) else None, AtDrop(at', r);
  }

  function Subjects(entries: Entries, e: Id, numbers: set<nat>): set<Guest> {
    set n | n in numbers && HasSlot(entries, e, n) :: SlotNow(entries, e, n).subject
  }

  /** The event version whose claim has begun to list the event's slots. */
  predicate IsListing(w: World, rc: nat, e: Id, todo: set<nat>) {
    && rc in w.work && w.work[rc].Listing? && w.work[rc].todo == todo
    && IsEvent(w.store.written, rc) && EventAt(w.store.written, rc).id == e
  }

  lemma FoundNext(w: World, rc: nat, e: Id, all: set<nat>, todo: set<nat>, n: nat)
    requires IsListing(w, rc, e, todo) && n in todo && todo <= all
    requires w.work[rc].found == Subjects(w.store.entries, e, all - todo)
    ensures ListedSlot(w, rc, n) == Listing(todo - {n}, Subjects(w.store.entries, e, all - (todo - {n})))
  {
    assert all - (todo - {n}) == (all - todo) + {n};
  }

  /** List the event's slots and ask the cleaner to erase every subject found. */
  method EraseGuests(c: Cluster, ghost rely: Rely, ghost e: Id, rc: nat)
    returns (complete: bool, count: nat, ghost answer: Answer, ghost asked: set<Guest>)
    requires c.Valid() && rc in c.w.work && c.w.work[rc] == Claimed && ClaimToken(rc) in rely.mine
    requires IsEvent(c.w.store.written, rc) && EventAt(c.w.store.written, rc).id == e
    modifies c
    ensures c.Valid() && Since(old(c.w), c.w)
    ensures rc in c.w.work
    ensures (if complete then c.w.work[rc].Complete? && count == |c.w.work[rc].subjects|
             else c.w.work[rc].Incomplete? && c.w.work[rc].endedAt <= c.w.clock)
    ensures complete <==> answer == Count(|asked|)
    ensures complete ==> c.w.work[rc].subjects == asked <= c.w.acked
    ensures rely.alone ==>
              && c.w.store == old(c.w).store && c.w.clock == old(c.w).clock && c.w.cfg == old(c.w).cfg
              && c.w.acked == (if complete then old(c.w).acked + asked else old(c.w).acked)
              && asked == Subjects(old(c.w).store.entries, e, SlotNumbers(old(c.w).store.entries, e))
  {
    ghost var w0 := c.w;
    ghost var at := c.BeginList(rely, rc);
    SinceEvent(w0, c.w, rc);
    var todo := c.w.work[rc].todo;
    ghost var all := todo;
    assert todo - all == {} && Subjects(c.w.store.entries, e, {}) == {};
    while todo != {}
      invariant todo <= all && c.Valid() && Since(w0, c.w) && IsListing(c.w, rc, e, todo)
      invariant rely.alone ==> c.w == w0.(work := c.w.work) && all == SlotNumbers(w0.store.entries, e)
      invariant rely.alone ==> c.w.work[rc].found == Subjects(w0.store.entries, e, all - todo)
      decreases todo
    {
      var n :| n in todo;
      ghost var w1 := c.w;
      ghost var at' := c.ListSlot(rely, rc, n);
      if rely.alone {
        FoundNext(w1, rc, e, all, todo, n);
      }
      SinceChain(w0, w1, c.w);
      SinceEvent(w1, c.w, rc);
      todo := todo - {n};
    }
    assert all - {} == all;
    count := |c.w.work[rc].found|;
    asked := c.w.work[rc].found;
    ghost var w2 := c.w;
    var said;
    complete, said := CallCleaner(c, rely, rc);
    answer := said;
    SinceChain(w0, w2, c.w);
  }

  lemma ReceiptOutcome(at: World, rc: nat, now: Time, w: World, reply: Reply)
    requires rc in at.work && at.work[rc].Complete? && IsEvent(at.store.written, rc)
    requires EventAt(at.store.written, rc).deletionId.Some?
    requires (w, reply) == PerformCreateReceipt(at, rc, now)
    ensures var ev := EventAt(at.store.written, rc);
            && HasReceipt(w.store.entries, ev.id) && w.acked == at.acked
            && w.clock == at.clock && w.cfg == at.cfg
            && (reply.Failed? ==> w == at)
            && (reply.Ok? ==> w.store.entries[ReceiptKey(ev.id)].value ==
                              ReceiptV(Receipt(ev.deletionId.value, ev.id, now, |at.work[rc].subjects|)))
            && SameExcept(at.store, w.store, {ReceiptKey(ev.id)})
  {
  }

  /** The receipt returned is the one stored, the event is gone, and every
      guest ever minted for it is acknowledged. */
  ghost predicate DeletedUnder(w: World, e: Id, receipt: Receipt) {
    && HasReceipt(w.store.entries, e) && w.store.entries[ReceiptKey(e)].value == ReceiptV(receipt)
    && e in w.doomed && receipt.deletionId == w.doomed[e]
    && EventKey(e) !in w.store.entries && GuestsErased(w, e)
  }

  lemma ReceiptIsStored(u: World, w: World, e: Id, receipt: Receipt)
    requires Since(u, w) && Inv(w) && HasReceipt(u.store.entries, e)
    requires u.store.entries[ReceiptKey(e)].value == ReceiptV(receipt) && EventKey(e) !in w.store.entries
    ensures DeletedUnder(w, e, receipt)
  {
    SinceReceipt(u, w, e);
    ReceiptErases(w, e);
  }

  lemma SeatedAlike(w: World, u: World, e: Id, d: Digest)
    requires SameExcept(w.store, u.store, {ReceiptKey(e), EventKey(e)})
    ensures SeatedAt(u.store.entries, e, d) ==> SeatedAt(w.store.entries, e, d)
  {
    forall n | HasSlot(u.store.entries, e, n) && SlotNow(u.store.entries, e, n).digest == d
      ensures SeatedAt(w.store.entries, e, d)
    {
      assert SameAt(w.store, u.store, SlotKey(e, n));
      assert HasSlot(w.store.entries, e, n);
    }
  }

  lemma MarksFrom(w: World, u: World, w': World, ev: Event)
    requires SameExcept(w.store, u.store, {ReceiptKey(ev.id), EventKey(ev.id)}) && OnlyMarks(u, w', ev)
    ensures OnlyMarks(w, w', ev)
  {
    forall d | !SeatedAt(w.store.entries, ev.id, d) ensures SameAt(w.store, w'.store, SessionKey(d)) {
      SeatedAlike(w, u, ev.id, d);
      assert SameAt(w.store, u.store, SessionKey(d)) && SameAt(u.store, w'.store, SessionKey(d));
    }
    forall d | d != ev.invitation ensures SameAt(w.store, w'.store, InvitationKey(d)) {
      assert SameAt(w.store, u.store, InvitationKey(d)) && SameAt(u.store, w'.store, InvitationKey(d));
    }
    forall e | e != ev.id ensures SameAt(w.store, w'.store, ReceiptKey(e)) {
      assert SameAt(w.store, u.store, ReceiptKey(e)) && SameAt(u.store, w'.store, ReceiptKey(e));
    }
  }

  lemma FinalizedFrom(w: World, u: World, w': World, ev: Event)
    requires SameExcept(w.store, u.store, {ReceiptKey(ev.id), EventKey(ev.id)}) && u.clock == w.clock && u.cfg == w.cfg
    requires FinalizedAlone(u, w', ev)
    ensures FinalizedAlone(w, w', ev)
  {
    forall n | HasSlot(w.store.entries, ev.id, n)
      ensures Marked(w, w', SlotNow(w.store.entries, ev.id, n).digest)
    {
      assert SameAt(w.store, u.store, SlotKey(ev.id, n));
      assert HasSlot(u.store.entries, ev.id, n);
      assert SameAt(w.store, u.store, SessionKey(SlotNow(w.store.entries, ev.id, n).digest));
    }
    MarksFrom(w, u, w', ev);
    forall k: Key | (k.EventKey? || k.SlotKey?) && k.eventId != ev.id ensures SameAt(w.store, w'.store, k) {
      assert SameAt(w.store, u.store, k) && SameAt(u.store, w'.store, k);
    }
  }

  /** After the cleaner's full acknowledgement: write the receipt, unless a
      rival has, and finalize under the one that is stored. */
  method SealEvent(c: Cluster, ghost rely: Rely, ev: Event, rc: nat, count: nat)
    returns (receipt: Receipt, problem: Option<Problem>, ghost ending: Ending)
    requires c.Valid() && IsEvent(c.w.store.written, rc) && EventAt(c.w.store.written, rc) == ev && ev.deletionId.Some?
    requires rc in c.w.work && c.w.work[rc].Complete? && count == |c.w.work[rc].subjects|
    requires ClaimToken(rc) in rely.mine && ev.state == Deleting
    modifies c
    ensures c.Valid() && Since(old(c.w), c.w)
    ensures HasReceipt(c.w.store.entries, ev.id) && c.w.store.entries[ReceiptKey(ev.id)].value == ReceiptV(receipt)
    ensures problem.None? ==> DeletedUnder(c.w, ev.id, receipt)
    ensures Stopped(old(c.w), ev, problem, ending)
    ensures rely.alone && IsLive(old(c.w).store.entries, EventKey(ev.id), rc) ==>
              && problem.None? && FinalizedAlone(old(c.w), c.w, ev) && c.w.acked == old(c.w).acked
              && (!HasReceipt(old(c.w).store.entries, ev.id) ==>
                    receipt == Receipt(ev.deletionId.value, ev.id, old(c.w).clock, count))
  {
    ghost var w0 := c.w;
    var now := c.Now(rely);
    ghost var w1 := c.w;
    ClaimKept(w0, w1, rely, rc);
    SinceEvent(w0, w1, rc);
    receipt := Receipt(ev.deletionId.value, ev.id, now, count);
    var reply, at := c.CreateReceipt(rely, rc, now);
    SinceChain(w0, w1, c.w);
    SinceEvent(w1, c.w, rc);
    ReceiptOutcome(at, rc, now, c.w, reply);
    ghost var w2 := c.w;
    if reply.Failed? {
      var found := c.LoadReceipt(rely, ev.id);
      SinceReceipt(w2, c.w, ev.id);
      SinceEvent(w2, c.w, rc);
      SinceChain(w0, w2, c.w);
      receipt := found.value;
    }
    ghost var w3 := c.w;
    problem, ending := FinalizeEvent(c, rely, ev, rc);
    SinceChain(w0, w3, c.w);
    StoppedSince(w0, w3, ev, problem, ending);
    SinceReceipt(w3, c.w, ev.id);
    if problem.None? {
      ReceiptIsStored(w3, c.w, ev.id, receipt);
    }
    if rely.alone && IsLive(w0.store.entries, EventKey(ev.id), rc) {
      assert SameAt(w0.store, w3.store, EventKey(ev.id));
      FinalizedFrom(w0, w3, c.w, ev);
    }
  }

  lemma DeletingHasId(w: World, r: nat)
    requires Inv(w) && IsEvent(w.store.written, r) && EventAt(w.store.written, r).state == Deleting
    ensures EventAt(w.store.written, r).deletionId.Some? && EventAt(w.store.written, r).cleanup.Some?
  {
    WriteTyped(w, r);
  }

  /** What cleaning a deleting event comes to when no other process runs and
      its version is the live one; `answer` is the cleaner's, if it was called. */
  ghost predicate EventCleanedAlone(w: World, w': World, ev: Event, answer: Option<Answer>, receipt: Option<Receipt>,
                                    problem: Option<Problem>)
    requires ev.deletionId.Some?
  {
    var subjects := Subjects(w.store.entries, ev.id, SlotNumbers(w.store.entries, ev.id));
    if HasReceipt(w.store.entries, ev.id) then
      problem.None? && answer.None? && w'.acked == w.acked && FinalizedAlone(w, w', ev)
    else if IsPending(ev.cleanup, w.clock) then
      problem == Some(CleanupPending) && answer.None? && w' == w
    else if answer == Some(Count(|subjects|)) then
      && problem.None? && FinalizedAlone(w, w', ev) && w'.acked == w.acked + subjects
      && receipt == Some(Receipt(ev.deletionId.value, ev.id, w.clock, |subjects|))
    else
      && answer.Some? && problem == Some(CleanupFailed(true)) && w'.acked == w.acked
      && OnlyOf(w, w', ev.id) && SameExcept(w.store, w'.store, {EventKey(ev.id)})
      && HasEvent(w'.store.entries, ev.id)
      && var ev' := EventNow(w'.store.entries, ev.id);
         ev' == ev.(cleanup := ev'.cleanup) && FailedAttempt(ev.cleanup, ev.deletionId.value, w.clock, ev'.cleanup)
  }

  lemma SameSubjects(s: Store<Key, Value>, s': Store<Key, Value>, e: Id)
    requires SameExcept(s, s', {EventKey(e)})
    ensures SlotNumbers(s'.entries, e) == SlotNumbers(s.entries, e)
    ensures Subjects(s'.entries, e, SlotNumbers(s'.entries, e)) == Subjects(s.entries, e, SlotNumbers(s.entries, e))
  {
    assert forall n :: SameAt(s, s', SlotKey(e, n));
    assert forall n :: n in SlotNumbers(s.entries, e) <==> SlotKey(e, n) in s.entries;
    assert forall n :: n in SlotNumbers(s'.entries, e) <==> SlotKey(e, n) in s'.entries;
  }

  lemma SealedMeansCleaned(w: World, u: World, w': World, ev: Event, answer: Option<Answer>,
                           receipt: Option<Receipt>, problem: Option<Problem>)
    requires ev.deletionId.Some? && ev.cleanup.Some?
    requires var claimed := ClaimCleanup(EventIntent(ev), 0, w.clock, w.cfg.cleanupLease);
             && claimed.Some? && !HasReceipt(w.store.entries, ev.id)
             && SealedAlone(u, w', ev.(cleanup := claimed), answer, receipt, problem)
    requires SameExcept(w.store, u.store, {EventKey(ev.id)}) && u.clock == w.clock && u.cfg == w.cfg
    requires u.acked == w.acked
    ensures EventCleanedAlone(w, w', ev, answer, receipt, problem)
  {
    var claimed := ClaimCleanup(EventIntent(ev), 0, w.clock, w.cfg.cleanupLease);
    SameSubjects(w.store, u.store, ev.id);
    assert SameAt(w.store, u.store, ReceiptKey(ev.id));
    if problem.None? {
      assert SameExcept(w.store, u.store, {ReceiptKey(ev.id), EventKey(ev.id)});
      FinalizedFrom(w, u, w', ev.(cleanup := claimed));
    } else {
      forall k | k !in {EventKey(ev.id)} ensures SameAt(w.store, w'.store, k) {
        assert SameAt(w.store, u.store, k) && SameAt(u.store, w'.store, k);
      }
    }
  }

  /** Finish the deletion of a deleting event. Whoever else acts: without a
      problem the stored receipt is returned, every guest ever minted is
      acknowledged, and the event is gone. */
  method CleanEvent(c: Cluster, ghost rely: Rely, ev: Event, r: nat)
    returns (receipt: Option<Receipt>, problem: Option<Problem>, ghost answer: Option<Answer>,
             ghost ending: Ending)
    requires c.Valid() && IsEvent(c.w.store.written, r) && EventAt(c.w.store.written, r) == ev && ev.state == Deleting
    modifies c
    ensures c.Valid() && Since(old(c.w), c.w) && ev.deletionId.Some?
    ensures problem.None? ==> receipt.Some? && DeletedUnder(c.w, ev.id, receipt.value)
    ensures Since(old(c.w), ending.at) && CameOut(EventKey(ev.id), r, ev.cleanup, problem, ending)
    ensures answer.Some? ==> ending.AtSave? || ending.AtDrop? || ending.AtGuest?
    ensures rely.alone && IsLive(old(c.w).store.entries, EventKey(ev.id), r) ==>
              EventCleanedAlone(old(c.w), c.w, ev, answer, receipt, problem)
  {
    ghost var w0 := c.w;
    DeletingHasId(w0, r);
    answer := None;
    receipt := c.LoadReceipt(rely, ev.id);
    ghost var w1 := c.w;
    SinceEvent(w0, w1, r);
    if receipt.Some? {
      problem, ending := FinalizeEvent(c, rely, ev, r);
      SinceChain(w0, w1, c.w);
      StoppedSince(w0, w1, ev, problem, ending);
      if problem.None? {
        ReceiptIsStored(w1, c.w, ev.id, receipt.value);
      }
      return;
    }
    var now := c.Now(rely);
    ghost var w2 := c.w;
    SinceEvent(w1, w2, r);
    SinceChain(w0, w1, w2);
    SinceFacts(w0, w2);
    var progress := ClaimCleanup(EventIntent(ev), 0, now, c.w.cfg.cleanupLease);
    if progress.None? {
      return None, Some(CleanupPending), None, AtClock(w2);
    }
    var claimed, at := c.UpdateEvent(rely, r, ClaimEvent(now));
    EventUpdateOutcome(at, r, ClaimEvent(now), c.w, claimed);
    SinceChain(w0, w2, c.w);
    SinceChain(w0, w2, at);
    if claimed.Failed? {
      return None, Some(StoreError(claimed.error)), None, AtClaim(at);
    }
    ghost var w3 := c.w;
    ghost var mine := rely.(mine := rely.mine + {ClaimToken(claimed.revision)});
    SinceFacts(w2, w3);
    receipt, problem, answer, ending := EraseAndSeal(c, mine, ev.(cleanup := progress), claimed.revision);
    SinceChain(w0, w3, c.w);
    SinceChain(w0, w3, ending.at);
    if rely.alone && IsLive(w0.store.entries, EventKey(ev.id), r) {
      SealedMeansCleaned(w0, w3, c.w, ev, answer, receipt, problem);
    }
  }

  /** The rest of a deletion, from the stored claim on. */
  method EraseAndSeal(c: Cluster, ghost rely: Rely, ev: Event, rc: nat)
    returns (receipt: Option<Receipt>, problem: Option<Problem>, ghost answer: Option<Answer>,
             ghost ending: Ending)
    requires c.Valid() && IsEvent(c.w.store.written, rc) && EventAt(c.w.store.written, rc) == ev
    requires rc in c.w.work && c.w.work[rc] == Claimed && ClaimToken(rc) in rely.mine
    requires ev.state == Deleting && ev.deletionId.Some? && ev.cleanup.Some?
    modifies c
    ensures c.Valid() && Since(old(c.w), c.w)
    ensures problem.None? ==> receipt.Some? && DeletedUnder(c.w, ev.id, receipt.value)
    ensures answer.Some? && Since(old(c.w), ending.at) && !ending.AtClock? && !ending.AtClaim?
    ensures CameOut(EventKey(ev.id), rc, ev.cleanup, problem, ending)
    ensures rely.alone && IsLive(old(c.w).store.entries, EventKey(ev.id), rc) ==>
              SealedAlone(old(c.w), c.w, ev, answer, receipt, problem)
  {
    ghost var w0 := c.w;
    var complete, count;
    ghost var said, asked;
    complete, count, said, asked := EraseGuests(c, rely, ev.id, rc);
    answer := Some(said);
    ghost var w1 := c.w;
    SinceEvent(w0, w1, rc);
    if !complete {
      var now := c.Now(rely);
      ghost var w2 := c.w;
      SinceFacts(w1, w2);
      ClaimKept(w1, w2, rely, rc);
      SinceEvent(w1, w2, rc);
      var saved, at := c.UpdateEvent(rely, rc, SaveEventFailure(now));
      EventUpdateOutcome(at, rc, SaveEventFailure(now), c.w, saved);
      SinceChain(w0, w1, w2);
      SinceChain(w0, w2, c.w);
      DelaysInSeconds(ev.cleanup.value.attempts);
      SinceChain(w0, w2, at);
      return None, Some(CleanupFailed(saved.Ok?)), answer, AtSave(at, rc);
    }
    var sealed, trouble, stop := SealEvent(c, rely, ev, rc, count);
    SinceChain(w0, w1, c.w);
    StoppedSince(w0, w1, ev, trouble, stop);
    SinceFacts(w1, c.w);
    return Some(sealed), trouble, answer, stop;
  }

  ghost predicate SealedAlone(w: World, w': World, ev: Event, answer: Option<Answer>, receipt: Option<Receipt>,
                              problem: Option<Problem>)
    requires ev.deletionId.Some? && ev.cleanup.Some?
  {
    var subjects := Subjects(w.store.entries, ev.id, SlotNumbers(w.store.entries, ev.id));
    if answer == Some(Count(|subjects|)) then
      && problem.None? && FinalizedAlone(w, w', ev) && w'.acked == w.acked + subjects
      && (HasReceipt(w.store.entries, ev.id) ||
          receipt == Some(Receipt(ev.deletionId.value, ev.id, w.clock, |subjects|)))
    else
      && answer.Some? && problem == Some(CleanupFailed(true)) && w'.acked == w.acked
      && OnlyOf(w, w', ev.id) && SameExcept(w.store, w'.store, {EventKey(ev.id)})
      && HasEvent(w'.store.entries, ev.id)
      && var p := ev.cleanup.value;
         EventNow(w'.store.entries, ev.id) ==
         ev.(cleanup := Some(p.(failed := true, nextAttemptAt := w.clock + DelaySeconds(p.attempts))))
  }

  /** The version a deletion works on: the event as it is when deleting already,
      or as it is once the deletion is stored, under a new ID. */
  function DeletionOf(w: World, ev: Event): Event {
    if ev.state == Deleting then ev
    else ev.(state := Deleting, deletionId := Some(w.drawn), cleanup := Some(Progress(w.drawn, 0, w.clock, 0, false)))
  }

  /** What a deletion comes to when no other process runs. */
  ghost predicate DeletedAlone(w: World, w': World, e: Id, answer: Option<Answer>, result: Result<Receipt>) {
    if !HasEvent(w.store.entries, e) then
      && w' == w && answer.None?
      && (if HasReceipt(w.store.entries, e) then
            result.Success? && w.store.entries[ReceiptKey(e)].value == ReceiptV(result.value)
          else result == Failure(Missing))
    else
      var ev := DeletionOf(w, EventNow(w.store.entries, e));
      && ev.deletionId.Some?
      && (match result
          case Success(receipt) => EventCleanedAlone(w, w', ev, answer, Some(receipt), None)
          case Failure(problem) => EventCleanedAlone(w, w', ev, answer, None, Some(problem)))
  }

  lemma StartedThenCleaned(w: World, u: World, w': World, ev: Event, answer: Option<Answer>,
                           receipt: Option<Receipt>, problem: Option<Problem>)
    requires ev.deletionId.Some? && !HasReceipt(w.store.entries, ev.id)
    requires !IsPending(ev.cleanup, w.clock) && u.acked == w.acked
    requires SameExcept(w.store, u.store, {EventKey(ev.id)}) && u.clock == w.clock && u.cfg == w.cfg
    requires EventCleanedAlone(u, w', ev, answer, receipt, problem)
    ensures EventCleanedAlone(w, w', ev, answer, receipt, problem)
  {
    SameSubjects(w.store, u.store, ev.id);
    assert SameAt(w.store, u.store, ReceiptKey(ev.id));
    if problem.None? {
      assert SameExcept(w.store, u.store, {ReceiptKey(ev.id), EventKey(ev.id)});
      FinalizedFrom(w, u, w', ev);
    } else {
      forall k | k !in {EventKey(ev.id)} ensures SameAt(w.store, w'.store, k) {
        assert SameAt(w.store, u.store, k) && SameAt(u.store, w'.store, k);
      }
    }
  }

  lemma NoReceiptBeforeDeletion(w: World, e: Id)
    requires Inv(w) && HasEvent(w.store.entries, e) && EventNow(w.store.entries, e).state != Deleting
    ensures !HasReceipt(w.store.entries, e)
  {
    if HasReceipt(w.store.entries, e) {
      ReceiptErases(w, e);
      DoomedTyped(w, e);
    }
  }

  /** Delete an event, or answer with the receipt of a finished deletion. Every
      receipt returned is the one stored, which never changes, and every guest
      ever minted for the event is acknowledged. */
  method DeleteEvent(c: Cluster, ghost rely: Rely, e: Id)
    returns (result: Result<Receipt>, ghost answer: Option<Answer>)
    requires c.Valid()
    modifies c
    ensures c.Valid() && Since(old(c.w), c.w)
    ensures result.Success? ==>
              && HasReceipt(c.w.store.entries, e) && c.w.store.entries[ReceiptKey(e)].value == ReceiptV(result.value)
              && GuestsErased(c.w, e)
    ensures rely.alone ==> DeletedAlone(old(c.w), c.w, e, answer, result)
  {
    ghost var w0 := c.w;
    answer := None;
    var found := c.LoadEvent(rely, e);
    ghost var w1 := c.w;
    if found.None? {
      var receipt := c.LoadReceipt(rely, e);
      SinceChain(w0, w1, c.w);
      if receipt.None? {
        return Failure(Missing), None;
      }
      ReceiptErases(c.w, e);
      return Success(receipt.value), None;
    }
    var ev, r := found.value.value, found.value.revision;
    if ev.state == Deleting {
      var receipt, problem;
      ghost var ending;
      receipt, problem, answer, ending := CleanEvent(c, rely, ev, r);
      SinceChain(w0, w1, c.w);
      return if problem.None? then Success(receipt.value) else Failure(problem.value), answer;
    }
    var now := c.Now(rely);
    SinceEvent(w1, c.w, r);
    ghost var w2 := c.w;
    SinceChain(w0, w1, w2);
    var reply, at := c.UpdateEvent(rely, r, StartDeletion(now));
    EventUpdateOutcome(at, r, StartDeletion(now), c.w, reply);
    SinceChain(w0, w2, c.w);
    if reply.Failed? {
      return Failure(StoreError(reply.error)), None;
    }
    ghost var w3 := c.w;
    var started := EventAt(c.w.store.written, reply.revision);
    var receipt, problem;
    ghost var ending;
    receipt, problem, answer, ending := CleanEvent(c, rely, started, reply.revision);
    SinceChain(w0, w3, c.w);
    if rely.alone {
      NoReceiptBeforeDeletion(w0, e);
      StartedThenCleaned(w0, w3, c.w, started, answer, receipt, problem);
    }
    return if problem.None? then Success(receipt.value) else Failure(problem.value), answer;
  }
}
