/** Pausing, reopening and resizing an event (internal/access/service.go:143-197,
    513-534), modelled as methods, while other processes interfere. */
module Control {
  import opened KvStore
  import opened Model
  import opened Protocol
  import opened Invariants
  import opened Interference
  import opened ClusterApi
  import opened Cleanup
  import opened Listing

  /** Every guest of the event past the recheck that still holds its place
      holds it reserved, or claimed for cleanup. */
  ghost predicate AllSecured(w: World, e: Id) {
    forall g :: g in w.joins && w.joins[g].eventId == e && Passed(w.joins[g].phase) ==>
      Secured(w.store.entries, w.joins[g], g)
  }

  function ReservedSlot(v: Slot): Slot {
    if v.cleanup.Some? then v else v.(reserved := true)
  }

  /** Apart from the flag of the listed slots, and revisions, nothing differs. */
  ghost predicate OnlyReserves(w: World, w': World, e: Id, slots: seq<Versioned<Slot>>) {
    && w' == w.(store := w'.store)
    && (forall x :: x in slots ==>
          && SlotKey(e, x.value.number) in w'.store.entries
          && w'.store.entries[SlotKey(e, x.value.number)].value == SlotV(ReservedSlot(x.value)))
    && (forall k: Key :: (k.SlotKey? && k.eventId == e ==> forall x :: x in slots ==> x.value.number != k.number) ==>
          SameAt(w.store, w'.store, k))
  }

  /** All of the event's unclaimed slots are reserved, nothing else differs. */
  ghost predicate ReservedAlone(w: World, w': World, e: Id) {
    && w' == w.(store := w'.store)
    && (forall n :: HasSlot(w.store.entries, e, n) ==>
          HasSlot(w'.store.entries, e, n) &&
            SlotNow(w'.store.entries, e, n) == ReservedSlot(SlotNow(w.store.entries, e, n)))
    && (forall k: Key :: !(k.SlotKey? && k.eventId == e) ==> SameAt(w.store, w'.store, k))
  }

  /** The slots handled so far hold safe places. */
  ghost predicate SafeSoFar(w: World, slots: seq<Versioned<Slot>>) {
    forall x :: x in slots ==> SafePlace(w.store.entries, x.value)
  }

  lemma SafeLater(w: World, w': World, e: Id, slots: seq<Versioned<Slot>>)
    requires Quietly(w, w', e) && Closed(w.store.entries, e) && SafeSoFar(w, slots)
    requires forall x :: x in slots ==> SlotRead(w, e, x)
    ensures SafeSoFar(w', slots)
  {
    forall x | x in slots ensures SafePlace(w'.store.entries, x.value) {
      QuietlyKeepsPlace(w, w', e, x.value);
    }
  }

  lemma ReserveIsQuiet(at: World, r: nat, w: World, reply: Reply, e: Id)
    requires Inv(at) && IsSlot(at.store.written, r) && SlotChangeAllowed(at, r, Reserve)
    requires (w, reply) == PerformUpdateSlot(at, r, Reserve)
    ensures Quietly(at, w, e)
  {
    QuietStepKeeps(at, UpdateSlot(r, Reserve), e);
  }

  /** A place just reserved is safe; so is one that was listed but has since
      changed hands. */
  lemma ReservedIsSafe(at: World, r: nat, w: World, reply: Reply)
    requires Inv(at) && IsSlot(at.store.written, r) && SlotChangeAllowed(at, r, Reserve)
    requires (w, reply) == PerformUpdateSlot(at, r, Reserve) && reply.Ok?
    ensures SafePlace(w.store.entries, SlotAt(at.store.written, r))
  {
  }

  /** With every passed guest covered by a listing of safe places, all are
      secured. */
  lemma CoveredIsSecured(w0: World, w: World, e: Id, slots: seq<Versioned<Slot>>)
    requires Inv(w) && Since(w0, w) && Quietly(w0, w, e) && Closed(w0.store.entries, e)
    requires Covers(w0, w, e, {}, slots) && SafeSoFar(w, slots)
    requires forall x :: x in slots ==> SlotRead(w, e, x)
    ensures AllSecured(w, e)
  {
    QuietlyClosed(w0, w, e);
    ShowSince(w0, w);
    forall g | g in w.joins && w.joins[g].eventId == e && Passed(w.joins[g].phase)
      ensures Secured(w.store.entries, w.joins[g], g)
    {
      if Holds(w.store.entries, w.joins[g], g) {
        assert g in w0.joins && Lists(slots, g);
        var i :| 0 <= i < |slots| && slots[i].value.generation == g;
        assert slots[i] in slots;
        LiveVersion(w, SlotKey(e, w.joins[g].number));
      }
    }
  }

  lemma ReserveOutcome(at: World, r: nat, w: World, reply: Reply)
    requires IsSlot(at.store.written, r) && SlotChangeAllowed(at, r, Reserve)
    requires (w, reply) == PerformUpdateSlot(at, r, Reserve)
    ensures var v := SlotAt(at.store.written, r);
            && w == at.(store := w.store)
            && (reply.Ok? <==> IsLive(at.store.entries, SlotKey(v.eventId, v.number), r))
            && (reply.Failed? ==> reply.error == Conflict || reply.error == NotFound)
            && (reply.Ok? ==> SlotKey(v.eventId, v.number) in w.store.entries &&
                              w.store.entries[SlotKey(v.eventId, v.number)].value == SlotV(ReservedSlot(v)))
            && SameExcept(at.store, w.store, {SlotKey(v.eventId, v.number)})
  {
  }

  /** One listed slot, unless it is reserved or claimed already. */
  method ReserveOne(c: Cluster, ghost rely: Rely, ghost e: Id, x: Versioned<Slot>) returns (reply: Reply)
    requires c.Valid() && SlotRead(c.w, e, x)
    modifies c
    ensures c.Valid() && Since(old(c.w), c.w)
    ensures rely.quiet == Some(e) ==> Quietly(old(c.w), c.w, e)
    ensures rely.quiet == Some(e) && Closed(old(c.w).store.entries, e) && reply.Ok?
            && (x.value.reserved || x.value.cleanup.Some? ==> SafePlace(old(c.w).store.entries, x.value)) ==>
              SafePlace(c.w.store.entries, x.value)
    ensures reply.Failed? ==> reply.error == Conflict || reply.error == NotFound
    ensures rely.alone && IsLive(old(c.w).store.entries, SlotKey(e, x.value.number), x.revision)
            && old(c.w).store.entries[SlotKey(e, x.value.number)].value == SlotV(x.value) ==>
              && reply.Ok? && c.w == old(c.w).(store := c.w.store)
              && SlotKey(e, x.value.number) in c.w.store.entries
              && c.w.store.entries[SlotKey(e, x.value.number)].value == SlotV(ReservedSlot(x.value))
              && SameExcept(old(c.w).store, c.w.store, {SlotKey(e, x.value.number)})
  {
    ghost var w0 := c.w;
    if x.value.reserved || x.value.cleanup.Some? {
      SinceSelf(w0);
      return Ok(0);
    }
    ghost var at: World;
    reply, at := c.UpdateSlot(rely, x.revision, Reserve);
    ReserveOutcome(at, x.revision, c.w, reply);
    if rely.quiet == Some(e) {
      MeanwhileQuietly(w0, at, rely);
      ReserveIsQuiet(at, x.revision, c.w, reply, e);
      QuietlyChain(w0, at, c.w, e);
    }
    if reply.Ok? {
      ReservedIsSafe(at, x.revision, c.w, reply);
    }
  }

  lemma ReservesNext(w0: World, w: World, w': World, e: Id, slots: seq<Versioned<Slot>>, i: nat)
    requires i < |slots| && ListsExactly(w0, e, {}, slots) && OnlyReserves(w0, w, e, slots[..i])
    requires w' == w.(store := w'.store) && SlotKey(e, slots[i].value.number) in w'.store.entries
    requires w'.store.entries[SlotKey(e, slots[i].value.number)].value == SlotV(ReservedSlot(slots[i].value))
    requires SameExcept(w.store, w'.store, {SlotKey(e, slots[i].value.number)})
    ensures OnlyReserves(w0, w', e, slots[..i + 1])
  {
    assert slots[..i + 1] == slots[..i] + [slots[i]];
    forall x | x in slots[..i + 1]
      ensures SlotKey(e, x.value.number) in w'.store.entries
      ensures w'.store.entries[SlotKey(e, x.value.number)].value == SlotV(ReservedSlot(x.value))
    {
      if x in slots[..i] {
        assert SameAt(w.store, w'.store, SlotKey(e, x.value.number));
      }
    }
    forall k: Key | k.SlotKey? && k.eventId == e ==> forall x :: x in slots[..i + 1] ==> x.value.number != k.number
      ensures SameAt(w0.store, w'.store, k)
    {
      assert slots[i] in slots[..i + 1];
      assert SameAt(w.store, w'.store, k);
      assert SameAt(w0.store, w.store, k);
    }
  }

  /** A slot not handled yet is as the listing read it. */
  lemma StillAsListed(w0: World, w: World, e: Id, slots: seq<Versioned<Slot>>, i: nat)
    requires i < |slots| && ListsExactly(w0, e, {}, slots) && OnlyReserves(w0, w, e, slots[..i])
    ensures IsLive(w.store.entries, SlotKey(e, slots[i].value.number), slots[i].revision)
    ensures w.store.entries[SlotKey(e, slots[i].value.number)].value == SlotV(slots[i].value)
  {
    assert SameAt(w0.store, w.store, SlotKey(e, slots[i].value.number));
  }

  lemma ReservedThemAll(w0: World, w: World, e: Id, slots: seq<Versioned<Slot>>)
    requires ListsExactly(w0, e, {}, slots) && OnlyReserves(w0, w, e, slots)
    ensures ReservedAlone(w0, w, e)
  {
    forall n | HasSlot(w0.store.entries, e, n)
      ensures HasSlot(w.store.entries, e, n) &&
              SlotNow(w.store.entries, e, n) == ReservedSlot(SlotNow(w0.store.entries, e, n))
    {
      var i :| 0 <= i < |slots| && slots[i].value.number == n;
      assert slots[i] in slots;
    }
  }

  /** List the event's slots and reserve each; start over when one was changed
      meanwhile. On success, if the event was closed, nobody opened it, and no
      renewal in flight had read it as open, every guest past the recheck has a
      safe place, joins in flight included, and no other ever will get past it.
      With no other process running, one pass is always enough, and only the
      flag of unclaimed slots changes. `passes` bounds the starting over. */
  method ReserveSlots(c: Cluster, ghost rely: Rely, e: Id, passes: nat) returns (problem: Option<Problem>)
    requires c.Valid()
    modifies c
    ensures c.Valid() && Since(old(c.w), c.w)
    ensures rely.quiet == Some(e) ==> Quietly(old(c.w), c.w, e)
    ensures problem.None? && rely.quiet == Some(e) && Closed(old(c.w).store.entries, e) ==> AllSecured(c.w, e)
    ensures rely.alone ==> problem.None? && ReservedAlone(old(c.w), c.w, e)
    ensures problem.Some? ==> problem == Some(Interrupted) || problem == Some(StoreError(NotFound))
    decreases passes
  {
    ghost var w0 := c.w;
    var slots := ListSlots(c, rely, e);
    ghost var w1 := c.w;
    SinceSelf(w1);
    var i := 0;
    while i < |slots|
      invariant 0 <= i <= |slots|
      invariant c.Valid() && Since(w0, c.w) && Since(w1, c.w)
      invariant forall x :: x in slots ==> SlotRead(c.w, e, x)
      invariant Covers(w0, c.w, e, {}, slots)
      invariant rely.quiet == Some(e) ==> Quietly(w0, c.w, e)
      invariant rely.quiet == Some(e) && Closed(w0.store.entries, e) ==>
                SecuredAsSeen(c.w, slots) && SafeSoFar(c.w, slots[..i])
      invariant rely.alone ==> OnlyReserves(w0, c.w, e, slots[..i])
    {
      ghost var w2 := c.w;
      if rely.alone {
        StillAsListed(w0, w2, e, slots, i);
      }
      var reply := ReserveOne(c, rely, e, slots[i]);
      ReservedNext(w0, w2, c.w, rely, e, slots, i, reply);
      SinceChain(w1, w2, c.w);
      if rely.alone {
        ReservesNext(w0, w2, c.w, e, slots, i);
      }
      if reply.Failed? {
        if reply.error != Conflict {
          return Some(StoreError(reply.error));
        }
        if passes == 0 {
          return Some(Interrupted);
        }
        ghost var w3 := c.w;
        problem := ReserveSlots(c, rely, e, passes - 1);
        SinceChain(w0, w3, c.w);
        if rely.quiet == Some(e) {
          QuietlyChain(w0, w3, c.w, e);
          if Closed(w0.store.entries, e) {
            QuietlyClosed(w0, w3, e);
          }
        }
        return;
      }
      i := i + 1;
    }
    assert slots[..|slots|] == slots;
    if rely.quiet == Some(e) && Closed(w0.store.entries, e) {
      CoveredIsSecured(w0, c.w, e, slots);
    }
    if rely.alone {
      ReservedThemAll(w0, c.w, e, slots);
    }
    return None;
  }

  /** One slot more: what the loop of `ReserveSlots` keeps. */
  lemma ReservedNext(w0: World, w: World, w': World, rely: Rely, e: Id, slots: seq<Versioned<Slot>>, i: nat,
                     reply: Reply)
    requires i < |slots| && Since(w0, w) && Since(w, w') && Covers(w0, w, e, {}, slots)
    requires forall x :: x in slots ==> SlotRead(w, e, x)
    requires rely.quiet == Some(e) ==> Quietly(w0, w, e) && Quietly(w, w', e)
    requires rely.quiet == Some(e) && Closed(w0.store.entries, e) ==>
             SecuredAsSeen(w, slots) && SafeSoFar(w, slots[..i])
    requires rely.quiet == Some(e) && Closed(w.store.entries, e) && reply.Ok? && SecuredAsSeen(w, slots) ==>
               SafePlace(w'.store.entries, slots[i].value)
    ensures Since(w0, w') && Covers(w0, w', e, {}, slots)
    ensures forall x :: x in slots ==> SlotRead(w', e, x)
    ensures rely.quiet == Some(e) ==> Quietly(w0, w', e)
    ensures rely.quiet == Some(e) && Closed(w0.store.entries, e) ==> SecuredAsSeen(w', slots)
    ensures rely.quiet == Some(e) && Closed(w0.store.entries, e) && reply.Ok? ==> SafeSoFar(w', slots[..i + 1])
  {
    SinceChain(w0, w, w');
    CoversLater(w0, w, w', e, {}, slots);
    SlotsStillRead(w, w', e, slots);
    if rely.quiet == Some(e) {
      QuietlyChain(w0, w, w', e);
      if Closed(w0.store.entries, e) {
        QuietlyClosed(w0, w, e);
        SecuredLater(w, w', e, slots);
        SafeLater(w, w', e, slots[..i]);
        assert slots[..i + 1] == slots[..i] + [slots[i]];
      }
    }
  }

  /** The event is in the state asked for, or one move away: opened, paused, or
      reopened. */
  predicate MaySet(w: World, e: Id, target: EventState) {
    && HasEvent(w.store.entries, e)
    && var s := EventNow(w.store.entries, e).state;
       || s == target
       || (s == Draft && target == Open) || (s == Open && target == Paused) || (s == Paused && target == Open)
  }

  /** Only the event's own entry differs, and in one way. */
  ghost predicate OnlyEvent(w: World, w': World, e: Id, ev: Event) {
    && w' == w.(store := w'.store) && SameExcept(w.store, w'.store, {EventKey(e)})
    && HasEvent(w'.store.entries, e) && EventNow(w'.store.entries, e) == ev
  }

  /** One attempt; `None` when another writer changed the event meanwhile.
      `stored` is the moment the new state was stored, or the event read when it
      was refused. */
  method TrySet(c: Cluster, ghost rely: Rely, e: Id, target: EventState)
    returns (tried: Option<Result<Event>>, ghost stored: World, ghost race: Race)
    requires c.Valid()
    modifies c
    ensures c.Valid() && Since(old(c.w), c.w) && Since(old(c.w), stored)
    ensures tried.None? ==> Since(old(c.w), race.at) && Lost(race, EventKey(e))
    ensures tried.Some? && tried.value.Success? ==>
              && stored == c.w && tried.value.value.id == e && tried.value.value.state == target
              && HasEvent(c.w.store.entries, e) && EventNow(c.w.store.entries, e) == tried.value.value
    ensures tried == Some(Failure(Conflicting)) ==> HasEvent(stored.store.entries, e) && !MaySet(stored, e, target)
    ensures tried.Some? && tried.value.Failure? ==>
              || tried.value.problem == Missing || tried.value.problem == Conflicting
              || tried.value.problem == StoreError(NotFound)
    ensures rely.alone ==> tried.Some? && (tried.value.Success? <==> MaySet(old(c.w), e, target))
    ensures rely.alone && tried.Some? && tried.value.Failure? ==>
              && tried.value.problem == (if HasEvent(old(c.w).store.entries, e) then Conflicting else Missing)
              && c.w == old(c.w)
    ensures rely.alone && tried.Some? && tried.value.Success? ==>
              && tried.value.value == EventNow(old(c.w).store.entries, e).(state := target)
              && OnlyEvent(old(c.w), c.w, e, tried.value.value)
  {
    ghost var w0 := c.w;
    var found := c.LoadEvent(rely, e);
    stored := c.w;
    race := Race(w0, 0);
    if found.None? {
      return Some(Failure(Missing)), stored, race;
    }
    var ev, r := found.value.value, found.value.revision;
    if ev.state != target && !ValidTransition(ev.state, target) {
      return Some(Failure(Conflicting)), stored, race;
    }
    LiveVersion(stored, EventKey(e));
    var reply, at := c.UpdateEvent(rely, r, EventChange.SetState(target));
    SinceChain(w0, stored, c.w);
    EventUpdateOutcome(at, r, EventChange.SetState(target), c.w, reply);
    if reply.Ok? {
      return Some(Success(ev.(state := target))), c.w, race;
    }
    if reply.error != Conflict {
      return Some(Failure(StoreError(reply.error))), stored, race;
    }
    RaceLost(w0, stored, at, r, EventKey(e), []);
    race := Race(at, r);
    assert ([] + [race])[0] == race;
    return None, stored, race;
  }

  /** Move the event to `target`; a pause then reserves its slots. `stored` is
      the moment the new state was stored, or the event read when it was refused;
      `races` are the compare-and-swaps lost. Five of those are one answer. */
  method SetState(c: Cluster, ghost rely: Rely, e: Id, target: EventState, passes: nat)
    returns (result: Result<Event>, ghost stored: World, ghost races: seq<Race>)
    requires c.Valid()
    modifies c
    ensures c.Valid() && Since(old(c.w), c.w)
    ensures result.Success? ==>
              && Since(old(c.w), stored) && Since(stored, c.w) && result.value.id == e && result.value.state == target
              && HasEvent(stored.store.entries, e) && EventNow(stored.store.entries, e) == result.value
    ensures result.Success? && target == Paused && rely.quiet == Some(e) ==> AllSecured(c.w, e)
    ensures AllLost(old(c.w), races, EventKey(e))
    ensures result == Failure(Conflicting) ==>
              || |races| == 5
              || (Since(old(c.w), stored) && HasEvent(stored.store.entries, e) && !MaySet(stored, e, target))
    ensures result.Failure? ==>
              || result.problem == Missing || result.problem == Conflicting || result.problem == StoreError(NotFound)
              || (target == Paused && result.problem == Interrupted)
    ensures rely.alone ==> (result.Success? <==> MaySet(old(c.w), e, target))
    ensures rely.alone && result.Failure? ==>
              && result.problem == (if HasEvent(old(c.w).store.entries, e) then Conflicting else Missing)
              && c.w == old(c.w)
    ensures rely.alone && result.Success? ==>
              && result.value == EventNow(old(c.w).store.entries, e).(state := target)
              && OnlyEvent(old(c.w), stored, e, result.value)
              && (if target == Paused then ReservedAlone(stored, c.w, e) else c.w == stored)
  {
    ghost var w0 := c.w;
    stored, races := w0, [];
    SinceSelf(w0);
    var attempt := 0;
    while attempt < 5
      invariant c.Valid() && Since(w0, c.w) && attempt == |races| <= 5 && AllLost(w0, races, EventKey(e))
      invariant rely.alone ==> attempt == 0 && c.w == w0
    {
      ghost var w1 := c.w;
      var tried, at, race := TrySet(c, rely, e, target);
      SinceChain(w0, w1, c.w);
      if tried.Some? {
        stored := at;
        SinceChain(w0, w1, stored);
        SinceSelf(stored);
        if tried.value.Success? && target == Paused {
          var problem := ReserveSlots(c, rely, e, passes);
          SinceChain(w0, stored, c.w);
          if problem.Some? {
            return Failure(problem.value), stored, races;
          }
        }
        return tried.value, stored, races;
      }
      SinceChain(w0, w1, race.at);
      races := races + [race];
      attempt := attempt + 1;
    }
    return Failure(Conflicting), stored, races;
  }

  /** `seen` is the moment the event was last read. */
  method UpdateCapacity(c: Cluster, ghost rely: Rely, e: Id, capacity: int)
    returns (result: Result<Event>, ghost seen: World, ghost races: seq<Race>)
    requires c.Valid()
    modifies c
    ensures c.Valid() && Since(old(c.w), c.w)
    ensures result.Success? ==>
              && result.value.id == e && result.value.capacity == capacity <= c.w.cfg.maxCapacity
              && HasEvent(c.w.store.entries, e) && EventNow(c.w.store.entries, e) == result.value
    ensures AllLost(old(c.w), races, EventKey(e))
    ensures result == Failure(Conflicting) ==>
              || !(0 <= capacity <= c.w.cfg.maxCapacity) || |races| == 5
              || (&& Since(old(c.w), seen) && HasEvent(seen.store.entries, e)
                  && EventNow(seen.store.entries, e).state == Deleting)
    ensures result.Failure? ==>
              || result.problem == Missing || result.problem == Conflicting || result.problem == StoreError(NotFound)
    ensures rely.alone ==>
              (result.Success? <==>
               0 <= capacity <= c.w.cfg.maxCapacity &&
               HasEvent(old(c.w).store.entries, e) && EventNow(old(c.w).store.entries, e).state != Deleting)
    ensures rely.alone && result.Failure? ==>
              && result.problem == (if 0 <= capacity <= c.w.cfg.maxCapacity && !HasEvent(old(c.w).store.entries, e)
                                    then Missing else Conflicting)
              && c.w == old(c.w)
    ensures rely.alone && result.Success? ==>
              && result.value == EventNow(old(c.w).store.entries, e).(capacity := capacity)
              && OnlyEvent(old(c.w), c.w, e, result.value)
  {
    ghost var w0 := c.w;
    SinceSelf(w0);
    seen, races := w0, [];
    if capacity < 0 || capacity > c.w.cfg.maxCapacity {
      return Failure(Conflicting), seen, races;
    }
    var attempt := 0;
    while attempt < 5
      invariant c.Valid() && Since(w0, c.w) && attempt == |races| <= 5 && AllLost(w0, races, EventKey(e))
      invariant rely.alone ==> attempt == 0 && c.w == w0
    {
      ghost var w1 := c.w;
      var found := c.LoadEvent(rely, e);
      SinceChain(w0, w1, c.w);
      SinceFacts(w0, c.w);
      seen := c.w;
      if found.None? {
        return Failure(Missing), seen, races;
      }
      var ev, r := found.value.value, found.value.revision;
      if ev.state == Deleting {
        return Failure(Conflicting), seen, races;
      }
      ghost var w2 := c.w;
      LiveVersion(w2, EventKey(e));
      var reply, at := c.UpdateEvent(rely, r, SetCapacity(capacity));
      SinceChain(w0, w2, c.w);
      SinceFacts(w2, c.w);
      EventUpdateOutcome(at, r, SetCapacity(capacity), c.w, reply);
      if reply.Ok? {
        return Success(ev.(capacity := capacity)), seen, races;
      }
      if reply.error != Conflict {
        return Failure(StoreError(reply.error)), seen, races;
      }
      RaceLost(w0, w2, at, r, EventKey(e), races);
      races := races + [Race(at, r)];
      attempt := attempt + 1;
    }
    return Failure(Conflicting), seen, races;
  }
}
