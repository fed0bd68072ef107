/** The shared world as one process sees it. Each method is one atomic action
    (or one read) taken at some later moment: others run before it, for as long
    as they like, within the rely condition. */
module ClusterApi {
  import opened KvStore
  import opened Model
  import opened Protocol
  import opened Invariants
  import opened Preservation
  import opened Runs
  import opened Interference

  datatype Versioned<+V> = Versioned(value: V, revision: nat)

  /** Performing an enabled action keeps the invariant and forgets nothing. */
  lemma Performs(w: World, a: Action, w': World)
    requires Sane(w) && Enabled(w, a) && w' == Perform(w, a).0
    ensures Sane(w') && Since(w, w')
  {
    SanePerform(w, a);
    StepIsSince(w, a);
  }

  class Cluster {
    var w: World

    ghost predicate Valid()
      reads this
    {
      Sane(w)
    }

    /** Other processes run. The body does nothing: a caller learns only the
        rely condition, which `EnvironmentRunIsLater` shows every run to meet. */
    method Interfere(ghost rely: Rely)
      requires Valid()
      modifies this
      ensures Valid() && Since(old(w), w) && Meanwhile(old(w), w, rely) && (rely.alone ==> w == old(w))
    {
      LaterReflexive(w, rely);
    }

    // ---------- Reads ----------

    method Now(ghost rely: Rely) returns (now: Time)
      requires Valid()
      modifies this
      ensures Valid() && Since(old(w), w) && Meanwhile(old(w), w, rely) && (rely.alone ==> w == old(w)) &&
              now == w.clock
    {
      Interfere(rely);
      ShowMeanwhile(old(w), w, rely);
      now := w.clock;
    }

    /** Some time passes, if any. */
    method Wait(ghost rely: Rely)
      requires Valid()
      modifies this
      ensures Valid() && Since(old(w), w)
      ensures rely.alone ==> w == old(w).(clock := w.clock) && old(w).clock <= w.clock
    {
      Interfere(rely);
      ghost var at := w;
      var to: int := *;
      if w.clock <= to {
        w := w.(clock := to);
        Performs(at, Action.Tick(to), w);
        SinceChain(old(w), at, w);
      }
    }

    method LoadEvent(ghost rely: Rely, e: Id) returns (found: Option<Versioned<Event>>)
      requires Valid()
      modifies this
      ensures Valid() && Since(old(w), w) && Meanwhile(old(w), w, rely) && (rely.alone ==> w == old(w))
      ensures found.Some? <==> HasEvent(w.store.entries, e)
      ensures found.None? <==> EventKey(e) !in w.store.entries
      ensures found.Some? ==>
                var r := found.value.revision;
                && IsEvent(w.store.written, r) && EventAt(w.store.written, r) == found.value.value
                && EventNow(w.store.entries, e) == found.value.value && found.value.value.id == e
                && w.store.entries[EventKey(e)].revision == r
    {
      Interfere(rely);
      ShowMeanwhile(old(w), w, rely);
      if EventKey(e) in w.store.entries {
        LiveVersion(w, EventKey(e));
        return Some(Versioned(EventNow(w.store.entries, e), w.store.entries[EventKey(e)].revision));
      }
      return None;
    }

    method LoadSlot(ghost rely: Rely, e: Id, n: nat) returns (found: Option<Versioned<Slot>>)
      requires Valid()
      modifies this
      ensures Valid() && Since(old(w), w) && Meanwhile(old(w), w, rely) && (rely.alone ==> w == old(w))
      ensures found.Some? <==> HasSlot(w.store.entries, e, n)
      ensures found.None? <==> SlotKey(e, n) !in w.store.entries
      ensures found.Some? ==>
                var r, v := found.value.revision, found.value.value;
                && IsSlot(w.store.written, r) && SlotAt(w.store.written, r) == v
                && SlotNow(w.store.entries, e, n) == v && SlotOk(w.joins, e, n, v)
                && w.store.entries[SlotKey(e, n)].revision == r
    {
      Interfere(rely);
      ShowMeanwhile(old(w), w, rely);
      if SlotKey(e, n) in w.store.entries {
        LiveVersion(w, SlotKey(e, n));
        return Some(Versioned(SlotNow(w.store.entries, e, n), w.store.entries[SlotKey(e, n)].revision));
      }
      return None;
    }

    method LoadIndex(ghost rely: Rely, d: Digest) returns (found: Option<Versioned<SessionIndex>>)
      requires Valid()
      modifies this
      ensures Valid() && Since(old(w), w) && Meanwhile(old(w), w, rely) && (rely.alone ==> w == old(w))
      ensures found.None? <==> SessionKey(d) !in w.store.entries
      ensures found.Some? ==>
                var r, x := found.value.revision, found.value.value;
                && w.store.entries[SessionKey(d)] == Entry(SessionV(x), r)
                && r in w.store.written && w.store.written[r] == Write(SessionKey(d), SessionV(x))
    {
      Interfere(rely);
      ShowMeanwhile(old(w), w, rely);
      if SessionKey(d) in w.store.entries {
        LiveVersion(w, SessionKey(d));
        return Some(Versioned(w.store.entries[SessionKey(d)].value.index, w.store.entries[SessionKey(d)].revision));
      }
      return None;
    }

    method LoadInvitation(ghost rely: Rely, d: Digest) returns (found: Option<Id>)
      requires Valid()
      modifies this
      ensures Valid() && Since(old(w), w) && Meanwhile(old(w), w, rely) && (rely.alone ==> w == old(w))
      ensures found.None? <==> InvitationKey(d) !in w.store.entries
      ensures found.Some? ==> w.store.entries[InvitationKey(d)].value == InvitationV(found.value)
    {
      Interfere(rely);
      ShowMeanwhile(old(w), w, rely);
      if InvitationKey(d) in w.store.entries {
        LiveVersion(w, InvitationKey(d));
        return Some(w.store.entries[InvitationKey(d)].value.eventId);
      }
      return None;
    }

    method LoadReceipt(ghost rely: Rely, e: Id) returns (found: Option<Receipt>)
      requires Valid()
      modifies this
      ensures Valid() && Since(old(w), w) && Meanwhile(old(w), w, rely) && (rely.alone ==> w == old(w))
      ensures found.Some? <==> HasReceipt(w.store.entries, e)
      ensures found.Some? ==> w.store.entries[ReceiptKey(e)].value == ReceiptV(found.value)
    {
      Interfere(rely);
      ShowMeanwhile(old(w), w, rely);
      if ReceiptKey(e) in w.store.entries {
        LiveVersion(w, ReceiptKey(e));
        return Some(w.store.entries[ReceiptKey(e)].value.receipt);
      }
      return None;
    }

    /** The slot numbers of an event that are live now; a listing reads the
        entries themselves one by one afterwards. */
    method SlotKeys(ghost rely: Rely, e: Id) returns (numbers: set<nat>)
      requires Valid()
      modifies this
      ensures Valid() && Since(old(w), w) && Meanwhile(old(w), w, rely) && (rely.alone ==> w == old(w))
      ensures numbers == SlotNumbers(w.store.entries, e)
    {
      Interfere(rely);
      ShowMeanwhile(old(w), w, rely);
      numbers := SlotNumbers(w.store.entries, e);
    }

    /** The events that are live now, likewise. */
    method EventKeys(ghost rely: Rely) returns (events: set<Id>)
      requires Valid()
      modifies this
      ensures Valid() && Since(old(w), w) && Meanwhile(old(w), w, rely) && (rely.alone ==> w == old(w))
      ensures events == set k | k in w.store.entries && k.EventKey? :: k.eventId
    {
      Interfere(rely);
      events := set k | k in w.store.entries && k.EventKey? :: k.eventId;
    }

    // ---------- Slots ----------

    method UpdateSlot(ghost rely: Rely, r: nat, c: SlotChange) returns (reply: Reply, ghost at: World)
      requires Valid() && IsSlot(w.store.written, r) && SlotChangeAllowed(w, r, c)
      requires c.SaveFailure? ==> ClaimToken(r) in rely.mine
      modifies this
      ensures Valid() && Since(old(w), w) && Meanwhile(old(w), at, rely) && Inv(at)
      ensures Since(old(w), at) && Since(at, w)
      ensures rely.alone ==> at == old(w)
      ensures IsSlot(at.store.written, r) && SlotAt(at.store.written, r) == SlotAt(old(w).store.written, r)
      ensures SlotChangeAllowed(at, r, c)
      ensures (w, reply) == PerformUpdateSlot(at, r, c)
    {
      Interfere(rely);
      ShowMeanwhile(old(w), w, rely);
      at := w;
      SlotChangeStaysAllowed(old(w), at, rely, r, c);
      var out := PerformUpdateSlot(w, r, c);
      w, reply := out.0, out.1;
      Performs(at, Action.UpdateSlot(r, c), w);
      SinceChain(old(w), at, w);
    }

    method CreateSlot(ghost rely: Rely, r: nat, n: nat, now: Time)
      returns (reply: Reply, generation: Id, ghost at: World)
      requires Valid() && IsEvent(w.store.written, r) && EventAt(w.store.written, r).state == Open
      requires 1 <= n <= EventAt(w.store.written, r).capacity && now <= w.clock
      modifies this
      ensures Valid() && Since(old(w), w) && Meanwhile(old(w), at, rely) && Inv(at)
      ensures Since(old(w), at) && Since(at, w)
      ensures rely.alone ==> at == old(w)
      ensures IsEvent(at.store.written, r) && (w, reply) == PerformCreateSlot(at, r, n, now) && generation == at.drawn
    {
      Interfere(rely);
      ShowMeanwhile(old(w), w, rely);
      at := w;
      generation := w.drawn;
      var out := PerformCreateSlot(w, r, n, now);
      w, reply := out.0, out.1;
      Performs(at, Action.CreateSlot(r, n, now), w);
      SinceChain(old(w), at, w);
    }

    method Recheck(ghost rely: Rely, g: Id) returns (reply: Reply, ghost at: World)
      requires Valid() && g in w.joins && w.joins[g].phase == Created && JoinToken(g) in rely.mine
      modifies this
      ensures Valid() && Since(old(w), w) && Meanwhile(old(w), at, rely) && Inv(at)
      ensures Since(old(w), at)
      ensures rely.alone ==> at == old(w)
      ensures g in at.joins && at.joins[g] == old(w).joins[g] && (w, reply) == PerformRecheck(at, g)
    {
      Interfere(rely);
      ShowMeanwhile(old(w), w, rely);
      at := w;
      var out := PerformRecheck(w, g);
      w, reply := out.0, out.1;
      Performs(at, Action.Recheck(g), w);
      SinceChain(old(w), at, w);
    }

    method CreateIndex(ghost rely: Rely, g: Id) returns (reply: Reply, ghost at: World)
      requires Valid() && g in w.joins && w.joins[g].phase == Cleared && JoinToken(g) in rely.mine
      modifies this
      ensures Valid() && Since(old(w), w) && Meanwhile(old(w), at, rely) && Inv(at)
      ensures Since(old(w), at)
      ensures rely.alone ==> at == old(w)
      ensures g in at.joins && at.joins[g] == old(w).joins[g] && (w, reply) == PerformCreateIndex(at, g)
    {
      Interfere(rely);
      ShowMeanwhile(old(w), w, rely);
      at := w;
      var out := PerformCreateIndex(w, g);
      w, reply := out.0, out.1;
      Performs(at, Action.CreateIndex(g), w);
      SinceChain(old(w), at, w);
    }

    method Rollback(ghost rely: Rely, g: Id) returns (reply: Reply, ghost at: World)
      requires Valid() && g in w.joins && w.joins[g].phase == Refused && JoinToken(g) in rely.mine
      modifies this
      ensures Valid() && Since(old(w), w) && Meanwhile(old(w), at, rely) && Inv(at)
      ensures Since(old(w), at)
      ensures rely.alone ==> at == old(w)
      ensures g in at.joins && at.joins[g] == old(w).joins[g] && (w, reply) == PerformRollback(at, g)
    {
      Interfere(rely);
      ShowMeanwhile(old(w), w, rely);
      at := w;
      var out := PerformRollback(w, g);
      w, reply := out.0, out.1;
      Performs(at, Action.Rollback(g), w);
      SinceChain(old(w), at, w);
    }

    method Mint(ghost rely: Rely, g: Id) returns (ghost at: World)
      requires Valid() && g in w.joins && w.joins[g].phase == Indexed && JoinToken(g) in rely.mine
      modifies this
      ensures Valid() && Since(old(w), w) && Meanwhile(old(w), at, rely) && Inv(at)
      ensures Since(old(w), at)
      ensures rely.alone ==> at == old(w)
      ensures g in at.joins && at.joins[g] == old(w).joins[g]
      ensures w == at.(minted := at.minted + {Guest(at.joins[g].eventId, g)})
    {
      Interfere(rely);
      ShowMeanwhile(old(w), w, rely);
      at := w;
      w := w.(minted := w.minted + {Guest(w.joins[g].eventId, g)});
      Performs(at, Action.Mint(g), w);
      SinceChain(old(w), at, w);
    }

    method MintRenewed(ghost rely: Rely, r: nat) returns (ghost at: World)
      requires Valid() && r in w.renewals && IsSlot(w.store.written, r)
      modifies this
      ensures Valid() && Since(old(w), w) && Meanwhile(old(w), at, rely) && Inv(at)
      ensures rely.alone ==> at == old(w)
      ensures IsSlot(at.store.written, r)
      ensures w == at.(minted := at.minted + {SlotAt(at.store.written, r).subject})
    {
      Interfere(rely);
      ShowMeanwhile(old(w), w, rely);
      at := w;
      w := w.(minted := w.minted + {SlotAt(w.store.written, r).subject});
      Performs(at, Action.MintRenewed(r), w);
      SinceChain(old(w), at, w);
    }

    // ---------- Cleanup ----------

    method StartCall(ghost rely: Rely, rc: nat) returns (ghost at: World)
      requires Valid() && rc in w.work && ClaimToken(rc) in rely.mine
      requires (w.work[rc] == Claimed && IsSlot(w.store.written, rc)) || (w.work[rc].Listing? && w.work[rc].todo == {})
      modifies this
      ensures Valid() && Since(old(w), w) && Meanwhile(old(w), at, rely) && Inv(at)
      ensures rely.alone ==> at == old(w)
      ensures rc in at.work && at.work[rc] == old(w).work[rc]
      ensures at.work[rc].Listing? || IsSlot(at.store.written, rc)
      ensures w == at.(work := at.work[rc := CallOf(at, rc)])
    {
      Interfere(rely);
      ShowMeanwhile(old(w), w, rely);
      at := w;
      w := w.(work := w.work[rc := CallOf(w, rc)]);
      Performs(at, Action.StartCall(rc), w);
      SinceChain(old(w), at, w);
    }

    /** The cleaner answers, whatever it likes. */
    method EndCall(ghost rely: Rely, rc: nat) returns (answer: Answer, ghost at: World)
      requires Valid() && rc in w.work && w.work[rc].Calling? && ClaimToken(rc) in rely.mine
      modifies this
      ensures Valid() && Since(old(w), w) && Meanwhile(old(w), at, rely) && Inv(at)
      ensures rely.alone ==> at == old(w)
      ensures rc in at.work && at.work[rc] == old(w).work[rc] && w == PerformEndCall(at, rc, answer).0
    {
      Interfere(rely);
      ShowMeanwhile(old(w), w, rely);
      at := w;
      var count: int := *;
      answer := if count < 0 then CallFailed else Count(count);
      w := PerformEndCall(w, rc, answer).0;
      Performs(at, Action.EndCall(rc, answer), w);
      SinceChain(old(w), at, w);
    }

    method DropIndex(ghost rely: Rely, rc: nat) returns (reply: Reply, ghost at: World)
      requires Valid() && rc in w.work && w.work[rc].Complete? && IsSlot(w.store.written, rc)
      requires ClaimToken(rc) in rely.mine
      modifies this
      ensures Valid() && Since(old(w), w) && Meanwhile(old(w), at, rely) && Inv(at)
      ensures rely.alone ==> at == old(w)
      ensures IsSlot(at.store.written, rc) && (w, reply) == PerformDropIndex(at, rc)
      ensures rc in at.work && at.work[rc] == old(w).work[rc]
    {
      Interfere(rely);
      ShowMeanwhile(old(w), w, rely);
      at := w;
      var out := PerformDropIndex(w, rc);
      w, reply := out.0, out.1;
      Performs(at, Action.DropIndex(rc), w);
      SinceChain(old(w), at, w);
    }

    method DropSlot(ghost rely: Rely, rc: nat) returns (reply: Reply, ghost at: World)
      requires Valid() && rc in w.work && w.work[rc].Complete? && IsSlot(w.store.written, rc)
      requires ClaimToken(rc) in rely.mine
      modifies this
      ensures Valid() && Since(old(w), w) && Meanwhile(old(w), at, rely) && Inv(at)
      ensures Since(old(w), at)
      ensures rely.alone ==> at == old(w)
      ensures IsSlot(at.store.written, rc) && (w, reply) == PerformDeleteSlot(at, rc)
    {
      Interfere(rely);
      ShowMeanwhile(old(w), w, rely);
      at := w;
      var out := PerformDeleteSlot(w, rc);
      w, reply := out.0, out.1;
      Performs(at, Action.DropSlot(rc), w);
      SinceChain(old(w), at, w);
    }

    method BeginList(ghost rely: Rely, rc: nat) returns (ghost at: World)
      requires Valid() && rc in w.work && w.work[rc] == Claimed && IsEvent(w.store.written, rc)
      requires ClaimToken(rc) in rely.mine
      modifies this
      ensures Valid() && Since(old(w), w) && Meanwhile(old(w), at, rely) && Inv(at)
      ensures rely.alone ==> at == old(w)
      ensures IsEvent(at.store.written, rc)
      ensures var numbers := SlotNumbers(at.store.entries, EventAt(at.store.written, rc).id);
              w == at.(work := at.work[rc := Listing(numbers, {})])
    {
      Interfere(rely);
      ShowMeanwhile(old(w), w, rely);
      at := w;
      w := w.(work := w.work[rc := Listing(SlotNumbers(w.store.entries, EventAt(w.store.written, rc).id), {})]);
      Performs(at, Action.BeginList(rc), w);
      SinceChain(old(w), at, w);
    }

    method ListSlot(ghost rely: Rely, rc: nat, n: nat) returns (ghost at: World)
      requires Valid() && rc in w.work && w.work[rc].Listing? && n in w.work[rc].todo && IsEvent(w.store.written, rc)
      requires ClaimToken(rc) in rely.mine
      modifies this
      ensures Valid() && Since(old(w), w) && Meanwhile(old(w), at, rely) && Inv(at)
      ensures rely.alone ==> at == old(w)
      ensures IsEvent(at.store.written, rc)
      ensures rc in at.work && at.work[rc] == old(w).work[rc]
      ensures w == at.(work := at.work[rc := ListedSlot(at, rc, n)])
    {
      Interfere(rely);
      ShowMeanwhile(old(w), w, rely);
      at := w;
      w := w.(work := w.work[rc := ListedSlot(w, rc, n)]);
      Performs(at, Action.ListSlot(rc, n), w);
      SinceChain(old(w), at, w);
    }

    // ---------- Invitations ----------

    method CreateEvent(ghost rely: Rely, capacity: nat) returns (reply: Reply, ev: Event, ghost at: World)
      requires Valid() && capacity <= w.cfg.maxCapacity
      modifies this
      ensures Valid() && Since(old(w), w) && Meanwhile(old(w), at, rely) && Inv(at)
      ensures rely.alone ==> at == old(w)
      ensures (w, reply) == PerformCreateEvent(at, capacity)
      ensures ev == Event(at.drawn, capacity, Draft, Digest(at.drawn + 1), None, None)
    {
      Interfere(rely);
      ShowMeanwhile(old(w), w, rely);
      at := w;
      ev := Event(w.drawn, capacity, Draft, Digest(w.drawn + 1), None, None);
      var out := PerformCreateEvent(w, capacity);
      w, reply := out.0, out.1;
      Performs(at, Action.CreateEvent(capacity), w);
      SinceChain(old(w), at, w);
    }

    method CreateInvitation(ghost rely: Rely, e: Id) returns (reply: Reply, ghost at: World)
      requires Valid() && e in w.opening && OpeningToken(e) in rely.mine
      modifies this
      ensures Valid() && Since(old(w), w) && Meanwhile(old(w), at, rely) && Inv(at)
      ensures rely.alone ==> at == old(w)
      ensures e in at.opening && at.opening[e] == old(w).opening[e] && (w, reply) == PerformCreateInvitation(at, e)
    {
      Interfere(rely);
      ShowMeanwhile(old(w), w, rely);
      at := w;
      var out := PerformCreateInvitation(w, e);
      w, reply := out.0, out.1;
      Performs(at, Action.CreateInvitation(e), w);
      SinceChain(old(w), at, w);
    }

    method UndoCreateEvent(ghost rely: Rely, e: Id) returns (reply: Reply, ghost at: World)
      requires Valid() && e in w.opening && OpeningToken(e) in rely.mine
      modifies this
      ensures Valid() && Since(old(w), w) && Meanwhile(old(w), at, rely) && Inv(at)
      ensures rely.alone ==> at == old(w)
      ensures e in at.opening && at.opening[e] == old(w).opening[e] && (w, reply) == PerformUndoCreate(at, e)
    {
      Interfere(rely);
      ShowMeanwhile(old(w), w, rely);
      at := w;
      var out := PerformUndoCreate(w, e);
      w, reply := out.0, out.1;
      Performs(at, Action.UndoCreateEvent(e), w);
      SinceChain(old(w), at, w);
    }

    method OfferInvitation(ghost rely: Rely, r: nat) returns (reply: Reply, digest: Digest, ghost at: World)
      requires Valid() && IsEvent(w.store.written, r) && EventAt(w.store.written, r).state != Deleting
      modifies this
      ensures Valid() && Since(old(w), w) && Meanwhile(old(w), at, rely) && Inv(at)
      ensures rely.alone ==> at == old(w)
      ensures IsEvent(at.store.written, r) && EventAt(at.store.written, r) == EventAt(old(w).store.written, r)
      ensures (w, reply) == PerformOffer(at, r) && digest == Digest(at.drawn)
    {
      Interfere(rely);
      ShowMeanwhile(old(w), w, rely);
      at := w;
      digest := Digest(w.drawn);
      var out := PerformOffer(w, r);
      w, reply := out.0, out.1;
      Performs(at, Action.OfferInvitation(r), w);
      SinceChain(old(w), at, w);
    }

    method Rotate(ghost rely: Rely, r: nat, d: Digest) returns (reply: Reply, ghost at: World)
      requires Valid() && IsEvent(w.store.written, r) && EventAt(w.store.written, r).state != Deleting
      requires d in w.offers && w.offers[d] == Offered(r) && OfferToken(d) in rely.mine
      modifies this
      ensures Valid() && Since(old(w), w) && Meanwhile(old(w), at, rely) && Inv(at)
      ensures rely.alone ==> at == old(w)
      ensures IsEvent(at.store.written, r) && EventAt(at.store.written, r) == EventAt(old(w).store.written, r)
      ensures EventChangeAllowed(at, r, EventChange.Rotate(d)) &&
              (w, reply) == PerformUpdateEvent(at, r, EventChange.Rotate(d))
    {
      Interfere(rely);
      ShowMeanwhile(old(w), w, rely);
      at := w;
      var out := PerformUpdateEvent(w, r, EventChange.Rotate(d));
      w, reply := out.0, out.1;
      Performs(at, Action.UpdateEvent(r, EventChange.Rotate(d)), w);
      SinceChain(old(w), at, w);
    }

    method WithdrawInvitation(ghost rely: Rely, d: Digest) returns (reply: Reply, ghost at: World)
      requires Valid() && d in w.offers && w.offers[d] == Stale && OfferToken(d) in rely.mine
      modifies this
      ensures Valid() && Since(old(w), w) && Meanwhile(old(w), at, rely) && Inv(at)
      ensures rely.alone ==> at == old(w)
      ensures (w, reply) == PerformWithdraw(at, d)
    {
      Interfere(rely);
      ShowMeanwhile(old(w), w, rely);
      at := w;
      var out := PerformWithdraw(w, d);
      w, reply := out.0, out.1;
      Performs(at, Action.WithdrawInvitation(d), w);
      SinceChain(old(w), at, w);
    }

    // ---------- Events ----------

    method UpdateEvent(ghost rely: Rely, r: nat, c: EventChange) returns (reply: Reply, ghost at: World)
      requires Valid() && IsEvent(w.store.written, r) && EventChangeAllowed(w, r, c) && !c.Rotate?
      requires c.SaveEventFailure? ==> ClaimToken(r) in rely.mine
      modifies this
      ensures Valid() && Since(old(w), w) && Meanwhile(old(w), at, rely) && Inv(at)
      ensures Since(old(w), at) && Since(at, w)
      ensures rely.alone ==> at == old(w)
      ensures IsEvent(at.store.written, r) && EventAt(at.store.written, r) == EventAt(old(w).store.written, r)
      ensures EventChangeAllowed(at, r, c)
      ensures (w, reply) == PerformUpdateEvent(at, r, c)
    {
      Interfere(rely);
      ShowMeanwhile(old(w), w, rely);
      at := w;
      EventChangeStaysAllowed(old(w), at, rely, r, c);
      var out := PerformUpdateEvent(w, r, c);
      w, reply := out.0, out.1;
      Performs(at, Action.UpdateEvent(r, c), w);
      SinceChain(old(w), at, w);
    }

    method CreateReceipt(ghost rely: Rely, rc: nat, now: Time) returns (reply: Reply, ghost at: World)
      requires Valid() && rc in w.work && w.work[rc].Complete? && IsEvent(w.store.written, rc)
      requires EventAt(w.store.written, rc).deletionId.Some? && now <= w.clock
      requires ClaimToken(rc) in rely.mine
      modifies this
      ensures Valid() && Since(old(w), w) && Meanwhile(old(w), at, rely) && Inv(at)
      ensures rely.alone ==> at == old(w)
      ensures rc in at.work && at.work[rc] == old(w).work[rc] && IsEvent(at.store.written, rc)
      ensures EventAt(at.store.written, rc).deletionId.Some?
      ensures (w, reply) == PerformCreateReceipt(at, rc, now)
    {
      Interfere(rely);
      ShowMeanwhile(old(w), w, rely);
      at := w;
      var out := PerformCreateReceipt(w, rc, now);
      w, reply := out.0, out.1;
      Performs(at, Action.CreateReceipt(rc, now), w);
      SinceChain(old(w), at, w);
    }

    method Tombstone(ghost rely: Rely, r: nat, q: nat) returns (reply: Reply, ghost at: World)
      requires Valid() && IsSlot(w.store.written, r) && HasReceipt(w.store.entries, SlotAt(w.store.written, r).eventId)
      requires q in w.store.written && w.store.written[q].key == SessionKey(SlotAt(w.store.written, r).digest)
      modifies this
      ensures Valid() && Since(old(w), w) && Meanwhile(old(w), at, rely) && Inv(at)
      ensures Since(old(w), at)
      ensures rely.alone ==> at == old(w)
      ensures IsSlot(at.store.written, r) && (w, reply) == PerformTombstone(at, r, q)
    {
      Interfere(rely);
      ShowMeanwhile(old(w), w, rely);
      at := w;
      var out := PerformTombstone(w, r, q);
      w, reply := out.0, out.1;
      Performs(at, Action.Tombstone(r, q), w);
      SinceChain(old(w), at, w);
    }

    method PurgeSlot(ghost rely: Rely, r: nat) returns (reply: Reply, ghost at: World)
      requires Valid() && IsSlot(w.store.written, r) && HasReceipt(w.store.entries, SlotAt(w.store.written, r).eventId)
      modifies this
      ensures Valid() && Since(old(w), w) && Meanwhile(old(w), at, rely) && Inv(at)
      ensures Since(old(w), at)
      ensures rely.alone ==> at == old(w)
      ensures IsSlot(at.store.written, r) && (w, reply) == PerformDeleteSlot(at, r)
    {
      Interfere(rely);
      ShowMeanwhile(old(w), w, rely);
      at := w;
      var out := PerformDeleteSlot(w, r);
      w, reply := out.0, out.1;
      Performs(at, Action.PurgeSlot(r), w);
      SinceChain(old(w), at, w);
    }

    method DropInvitation(ghost rely: Rely, r: nat) returns (reply: Reply, ghost at: World)
      requires Valid() && IsEvent(w.store.written, r) && EventAt(w.store.written, r).state == Deleting
      requires HasReceipt(w.store.entries, EventAt(w.store.written, r).id)
      modifies this
      ensures Valid() && Since(old(w), w) && Meanwhile(old(w), at, rely) && Inv(at)
      ensures rely.alone ==> at == old(w)
      ensures IsEvent(at.store.written, r) && (w, reply) == PerformDropInvitation(at, r)
    {
      Interfere(rely);
      ShowMeanwhile(old(w), w, rely);
      at := w;
      var out := PerformDropInvitation(w, r);
      w, reply := out.0, out.1;
      Performs(at, Action.DropInvitation(r), w);
      SinceChain(old(w), at, w);
    }

    method DropEvent(ghost rely: Rely, r: nat) returns (reply: Reply, ghost at: World)
      requires Valid() && IsEvent(w.store.written, r) && EventAt(w.store.written, r).state == Deleting
      requires HasReceipt(w.store.entries, EventAt(w.store.written, r).id)
      requires EventAt(w.store.written, r).invitation in w.dropped
      modifies this
      ensures Valid() && Since(old(w), w) && Meanwhile(old(w), at, rely) && Inv(at)
      ensures Since(old(w), at)
      ensures rely.alone ==> at == old(w)
      ensures IsEvent(at.store.written, r) && (w, reply) == PerformDropEvent(at, r)
    {
      Interfere(rely);
      ShowMeanwhile(old(w), w, rely);
      at := w;
      var out := PerformDropEvent(w, r);
      w, reply := out.0, out.1;
      Performs(at, Action.DropEvent(r), w);
      SinceChain(old(w), at, w);
    }
  }

  /** What a process decided to write from a version it read stays allowed. */
  lemma SlotChangeStaysAllowed(u: World, w: World, rely: Rely, r: nat, c: SlotChange)
    requires Later(u, w, rely) && IsSlot(u.store.written, r) && SlotChangeAllowed(u, r, c)
    requires c.SaveFailure? ==> ClaimToken(r) in rely.mine
    ensures IsSlot(w.store.written, r) && SlotAt(w.store.written, r) == SlotAt(u.store.written, r)
    ensures SlotChangeAllowed(w, r, c)
  {
  }

  lemma EventChangeStaysAllowed(u: World, w: World, rely: Rely, r: nat, c: EventChange)
    requires Later(u, w, rely) && IsEvent(u.store.written, r) && EventChangeAllowed(u, r, c) && !c.Rotate?
    requires c.SaveEventFailure? ==> ClaimToken(r) in rely.mine
    ensures IsEvent(w.store.written, r) && EventAt(w.store.written, r) == EventAt(u.store.written, r)
    ensures EventChangeAllowed(w, r, c)
  {
  }
}
