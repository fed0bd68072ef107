/** What can happen to one entry in one action: the only ways a slot, an event,
    a session index, an invitation or a receipt comes, changes and goes. */
module Fates {
  import opened KvStore
  import opened Model
  import opened Protocol
  import opened Invariants

  /** The one store call an action makes, if it makes one. */
  function OpOf(w: World, a: Action): Option<Op<Key, Value>>
    requires Enabled(w, a)
  {
    match a
    case CreateEvent(capacity) =>
      Some(CreateOp(EventKey(w.drawn), EventV(Event(w.drawn, capacity, Draft, Digest(w.drawn + 1), None, None))))
    case CreateInvitation(e) => Some(CreateOp(InvitationKey(w.opening[e]), InvitationV(e)))
    case UndoCreateEvent(e) => Some(DeleteOp(EventKey(e)))
    case OfferInvitation(r) =>
      Some(CreateOp(InvitationKey(Digest(w.drawn)), InvitationV(EventAt(w.store.written, r).id)))
    case WithdrawInvitation(d) => Some(DeleteOp(InvitationKey(d)))
    case UpdateEvent(r, c) =>
      Some(UpdateOp(EventKey(EventAt(w.store.written, r).id), EventV(ChangedEvent(w, r, c)), r))
    case CreateSlot(r, n, now) =>
      var e := EventAt(w.store.written, r).id;
      Some(CreateOp(SlotKey(e, n), SlotV(NewSlot(w, e, n, now))))
    case CreateIndex(g) =>
      var j := w.joins[g];
      Some(CreateOp(SessionKey(j.digest), SessionV(SessionIndex(j.eventId, j.number, false))))
    case Rollback(g) => Some(DeleteRevisionOp(SlotKey(w.joins[g].eventId, w.joins[g].number), w.joins[g].revision))
    case UpdateSlot(r, c) =>
      var v := SlotAt(w.store.written, r);
      Some(UpdateOp(SlotKey(v.eventId, v.number), SlotV(ChangedSlot(w, r, c)), r))
    case DropIndex(rc) => Some(DeleteOp(SessionKey(SlotAt(w.store.written, rc).digest)))
    case DropSlot(r) => Some(DeleteSlotOp(w.store.written, r))
    case PurgeSlot(r) => Some(DeleteSlotOp(w.store.written, r))
    case CreateReceipt(rc, now) =>
      var ev := EventAt(w.store.written, rc);
      Some(CreateOp(ReceiptKey(ev.id), ReceiptV(Receipt(ev.deletionId.value, ev.id, now, |w.work[rc].subjects|))))
    case Tombstone(r, q) =>
      var v := SlotAt(w.store.written, r);
      Some(UpdateOp(SessionKey(v.digest), SessionV(SessionIndex(v.eventId, v.number, true)), q))
    case DropInvitation(r) => Some(DeleteOp(InvitationKey(EventAt(w.store.written, r).invitation)))
    case DropEvent(r) => Some(DeleteRevisionOp(EventKey(EventAt(w.store.written, r).id), r))
    case _ => None
  }

  function DeleteSlotOp(written: Written, r: nat): Op<Key, Value>
    requires IsSlot(written, r)
  {
    DeleteRevisionOp(SlotKey(SlotAt(written, r).eventId, SlotAt(written, r).number), r)
  }


  function StoreAfter(w: World, a: Action): Store<Key, Value>
    requires Enabled(w, a)
  {
    if OpOf(w, a).None? then w.store else Apply(w.store, OpOf(w, a).value).0
  }

  predicate Follows(w: World, a: Action)
    requires Enabled(w, a)
  {
    Perform(w, a).0.store == StoreAfter(w, a)
  }

  predicate CallsOnSlots(a: Action) {
    a.CreateSlot? || a.UpdateSlot? || a.DropSlot? || a.PurgeSlot? || a.Rollback?
  }

  predicate CallsOnIndexes(a: Action) {
    a.CreateIndex? || a.DropIndex? || a.Tombstone?
  }

  predicate CallsOnEvents(a: Action) {
    a.CreateEvent? || a.UndoCreateEvent? || a.DropEvent? || a.CreateReceipt?
  }

  predicate CallsOnInvitations(a: Action) {
    a.CreateInvitation? || a.OfferInvitation? || a.WithdrawInvitation? || a.DropInvitation?
  }

  lemma SlotFollows(w: World, a: Action)
    requires Enabled(w, a) && CallsOnSlots(a)
    ensures Follows(w, a)
  {
  }

  lemma IndexFollows(w: World, a: Action)
    requires Enabled(w, a) && CallsOnIndexes(a)
    ensures Follows(w, a)
  {
  }

  lemma EventFollows(w: World, a: Action)
    requires Enabled(w, a) && CallsOnEvents(a)
    ensures Follows(w, a)
  {
  }

  lemma UpdateEventFollows(w: World, a: Action)
    requires Enabled(w, a) && a.UpdateEvent?
    ensures Follows(w, a)
  {
    var ev := EventAt(w.store.written, a.revision);
    assert PerformUpdateEvent(w, a.revision, a.change).0.store ==
           Update(w.store, EventKey(ev.id), EventV(ChangedEvent(w, a.revision, a.change)), a.revision).0;
  }

  lemma InvitationFollows(w: World, a: Action)
    requires Enabled(w, a) && CallsOnInvitations(a)
    ensures Follows(w, a)
  {
  }

  lemma SilentFollows(w: World, a: Action)
    requires Enabled(w, a)
    requires !CallsOnSlots(a) && !CallsOnIndexes(a) && !CallsOnEvents(a) && !CallsOnInvitations(a) && !a.UpdateEvent?
    ensures Follows(w, a)
  {
  }

  /** Each action makes at most the one store call named by `OpOf`. */
  lemma StoreFollows(w: World, a: Action)
    requires Enabled(w, a)
    ensures Follows(w, a)
  {
    if CallsOnSlots(a) {
      SlotFollows(w, a);
    } else if CallsOnIndexes(a) {
      IndexFollows(w, a);
    } else if CallsOnEvents(a) {
      EventFollows(w, a);
    } else if a.UpdateEvent? {
      UpdateEventFollows(w, a);
    } else if CallsOnInvitations(a) {
      InvitationFollows(w, a);
    } else {
      SilentFollows(w, a);
    }
  }

  predicate Unchanged(w: World, s': Store<Key, Value>, k: Key) {
    k in w.store.entries && k in s'.entries && s'.entries[k] == w.store.entries[k]
  }

  predicate StillAbsent(w: World, s': Store<Key, Value>, k: Key) {
    k !in w.store.entries && k !in s'.entries
  }

  /** An action leaves every key but that of its store call as it was. */
  lemma OtherKeysStay(w: World, a: Action, k: Key)
    requires Enabled(w, a) && (OpOf(w, a).Some? ==> OpOf(w, a).value.key != k)
    ensures Unchanged(w, StoreAfter(w, a), k) || StillAbsent(w, StoreAfter(w, a), k)
  {
  }

  // ---------- Slots ----------

  predicate SlotUpdated(w: World, s': Store<Key, Value>, a: Action, e: Id, n: nat)
    requires HasSlot(w.store.entries, e, n)
  {
    && a.UpdateSlot? && a.revision == w.store.entries[SlotKey(e, n)].revision
    && IsSlot(w.store.written, a.revision)
    && SlotAt(w.store.written, a.revision) == SlotNow(w.store.entries, e, n)
    && SlotChangeAllowed(w, a.revision, a.update)
    && HasSlot(s'.entries, e, n)
    && SlotNow(s'.entries, e, n) == ChangedSlot(w, a.revision, a.update)
  }

  predicate SlotRemoved(w: World, s': Store<Key, Value>, a: Action, e: Id, n: nat)
    requires HasSlot(w.store.entries, e, n)
  {
    var r := w.store.entries[SlotKey(e, n)].revision;
    && SlotKey(e, n) !in s'.entries
    && (match a
        case DropSlot(rc) => rc == r && rc in w.work && w.work[rc].Complete?
        case PurgeSlot(q) => q == r && HasReceipt(w.store.entries, e)
        case Rollback(g) => g in w.joins && w.joins[g].revision == r && w.joins[g].phase == Refused &&
                            SlotNow(w.store.entries, e, n).generation == g
        case _ => false)
  }

  lemma UpdateSlotFate(w: World, r: nat, c: SlotChange, e: Id, n: nat)
    requires Inv(w) && IsSlot(w.store.written, r) && SlotChangeAllowed(w, r, c) && HasSlot(w.store.entries, e, n)
    ensures var v := SlotAt(w.store.written, r);
            var s' := Update(w.store, SlotKey(v.eventId, v.number), SlotV(ChangedSlot(w, r, c)), r).0;
            Unchanged(w, s', SlotKey(e, n)) || SlotUpdated(w, s', UpdateSlot(r, c), e, n)
  {
    LiveVersion(w, SlotKey(e, n));
  }

  lemma RemoveSlotFate(w: World, a: Action, e: Id, n: nat)
    requires Inv(w) && Enabled(w, a) && HasSlot(w.store.entries, e, n) && (a.DropSlot? || a.PurgeSlot? || a.Rollback?)
    ensures var s' := StoreAfter(w, a);
            Unchanged(w, s', SlotKey(e, n)) || SlotRemoved(w, s', a, e, n)
  {
    LiveVersion(w, SlotKey(e, n));
    if a.Rollback? {
      JoinTyped(w, a.generation);
    }
  }

  lemma OtherSlotFate(w: World, a: Action, e: Id, n: nat)
    requires Enabled(w, a) && HasSlot(w.store.entries, e, n)
    requires !a.UpdateSlot? && !a.DropSlot? && !a.PurgeSlot? && !a.Rollback?
    ensures Unchanged(w, StoreAfter(w, a), SlotKey(e, n))
  {
    if OpOf(w, a).None? || OpOf(w, a).value.key != SlotKey(e, n) {
      OtherKeysStay(w, a, SlotKey(e, n));
    }
  }

  lemma SlotFate(w: World, a: Action, e: Id, n: nat)
    requires Inv(w) && Enabled(w, a) && HasSlot(w.store.entries, e, n)
    ensures var s' := StoreAfter(w, a);
            || Unchanged(w, s', SlotKey(e, n))
            || SlotUpdated(w, s', a, e, n)
            || SlotRemoved(w, s', a, e, n)
  {
    if a.UpdateSlot? {
      UpdateSlotFate(w, a.revision, a.update, e, n);
    } else if a.DropSlot? || a.PurgeSlot? || a.Rollback? {
      RemoveSlotFate(w, a, e, n);
    } else {
      OtherSlotFate(w, a, e, n);
    }
  }

  lemma SlotBirth(w: World, a: Action, e: Id, n: nat)
    requires Inv(w) && Enabled(w, a) && SlotKey(e, n) !in w.store.entries
    ensures var s' := StoreAfter(w, a);
            || StillAbsent(w, s', SlotKey(e, n))
            || (&& a.CreateSlot? && EventAt(w.store.written, a.revision).id == e && a.number == n
                && s'.entries[SlotKey(e, n)].value == SlotV(NewSlot(w, e, n, a.now))
                && s'.entries[SlotKey(e, n)].revision == w.store.revision + 1)
  {
    if OpOf(w, a).None? || OpOf(w, a).value.key != SlotKey(e, n) {
      OtherKeysStay(w, a, SlotKey(e, n));
    }
  }

  // ---------- Events ----------

  predicate EventUpdated(w: World, s': Store<Key, Value>, a: Action, e: Id)
    requires HasEvent(w.store.entries, e)
  {
    && a.UpdateEvent? && a.revision == w.store.entries[EventKey(e)].revision
    && IsEvent(w.store.written, a.revision)
    && EventAt(w.store.written, a.revision) == EventNow(w.store.entries, e)
    && EventChangeAllowed(w, a.revision, a.change)
    && HasEvent(s'.entries, e)
    && EventNow(s'.entries, e) == ChangedEvent(w, a.revision, a.change)
  }

  predicate EventRemoved(w: World, s': Store<Key, Value>, a: Action, e: Id)
    requires HasEvent(w.store.entries, e)
  {
    && a.DropEvent? && a.revision == w.store.entries[EventKey(e)].revision
    && EventNow(w.store.entries, e).state == Deleting && HasReceipt(w.store.entries, e)
    && EventNow(w.store.entries, e).invitation in w.dropped
    && EventKey(e) !in s'.entries
  }

  /** Deleted by its key, by its own creation that could not be finished. */
  predicate EventUndone(w: World, s': Store<Key, Value>, a: Action, e: Id) {
    a == UndoCreateEvent(e) && e in w.opening && EventKey(e) !in s'.entries
  }

  lemma UpdateEventFate(w: World, r: nat, c: EventChange, e: Id)
    requires Inv(w) && IsEvent(w.store.written, r) && EventChangeAllowed(w, r, c) && HasEvent(w.store.entries, e)
    ensures var ev := EventAt(w.store.written, r);
            var s' := Update(w.store, EventKey(ev.id), EventV(ChangedEvent(w, r, c)), r).0;
            Unchanged(w, s', EventKey(e)) || EventUpdated(w, s', UpdateEvent(r, c), e)
  {
    LiveVersion(w, EventKey(e));
  }

  lemma OtherEventFate(w: World, a: Action, e: Id)
    requires Enabled(w, a) && HasEvent(w.store.entries, e)
    requires !a.UpdateEvent? && !a.DropEvent? && a != UndoCreateEvent(e)
    ensures Unchanged(w, StoreAfter(w, a), EventKey(e))
  {
    if OpOf(w, a).None? || OpOf(w, a).value.key != EventKey(e) {
      OtherKeysStay(w, a, EventKey(e));
    }
  }

  lemma EventFate(w: World, a: Action, e: Id)
    requires Inv(w) && Enabled(w, a) && HasEvent(w.store.entries, e)
    ensures var s' := StoreAfter(w, a);
            || Unchanged(w, s', EventKey(e))
            || EventUpdated(w, s', a, e)
            || EventRemoved(w, s', a, e)
            || EventUndone(w, s', a, e)
  {
    if a.UpdateEvent? {
      UpdateEventFate(w, a.revision, a.change, e);
    } else if a.DropEvent? {
      LiveVersion(w, EventKey(e));
    } else if a != UndoCreateEvent(e) {
      OtherEventFate(w, a, e);
    }
  }

  lemma EventBirth(w: World, a: Action, e: Id)
    requires Inv(w) && Enabled(w, a) && EventKey(e) !in w.store.entries
    ensures var s' := StoreAfter(w, a);
            || StillAbsent(w, s', EventKey(e))
            || (a.CreateEvent? && e == w.drawn && HasEvent(s'.entries, e) &&
                EventNow(s'.entries, e).state == Draft)
  {
    if OpOf(w, a).None? || OpOf(w, a).value.key != EventKey(e) {
      OtherKeysStay(w, a, EventKey(e));
    }
  }

  /** The update is made from the version that is live. */
  predicate Lands(w: World, r: nat)
    requires IsEvent(w.store.written, r)
  {
    var k := EventKey(EventAt(w.store.written, r).id);
    k in w.store.entries && w.store.entries[k].revision == r
  }

  lemma UpdatedVersion(w: World, q: nat, c: EventChange, r: nat)
    requires IsEvent(w.store.written, q) && EventChangeAllowed(w, q, c) && Consistent(w.store)
    ensures var s' := Update(w.store, EventKey(EventAt(w.store.written, q).id), EventV(ChangedEvent(w, q, c)), q).0;
            && (IsEvent(w.store.written, r) ==> IsEvent(s'.written, r) && s'.written[r] == w.store.written[r])
            && (IsEvent(s'.written, r) && !IsEvent(w.store.written, r) ==>
                  Lands(w, q) && EventAt(s'.written, r) == ChangedEvent(w, q, c))
  {
  }

  /** How a version of an event comes into the history. */
  lemma VersionFate(w: World, a: Action, r: nat)
    requires Inv(w) && Enabled(w, a)
    ensures var s' := StoreAfter(w, a);
            && (IsEvent(w.store.written, r) ==> IsEvent(s'.written, r) && s'.written[r] == w.store.written[r])
            && (IsEvent(s'.written, r) && !IsEvent(w.store.written, r) ==>
                  || (&& a.CreateEvent?
                      && EventAt(s'.written, r) == Event(w.drawn, a.capacity, Draft, Digest(w.drawn + 1), None, None))
                  || (&& a.UpdateEvent? && Lands(w, a.revision)
                      && EventAt(s'.written, r) == ChangedEvent(w, a.revision, a.change)))
  {
    Show(w);
    if a.UpdateEvent? {
      UpdatedVersion(w, a.revision, a.change, r);
    } else {
      OtherVersionFate(w, a, r);
    }
  }

  lemma OtherVersionFate(w: World, a: Action, r: nat)
    requires Enabled(w, a) && !a.UpdateEvent? && Consistent(w.store)
    ensures var s' := StoreAfter(w, a);
            && (IsEvent(w.store.written, r) ==> IsEvent(s'.written, r) && s'.written[r] == w.store.written[r])
            && (IsEvent(s'.written, r) && !IsEvent(w.store.written, r) ==>
                  && a.CreateEvent?
                  && EventAt(s'.written, r) == Event(w.drawn, a.capacity, Draft, Digest(w.drawn + 1), None, None))
  {
    if OpOf(w, a).Some? {
      CallVersion(w.store, OpOf(w, a).value, r);
    }
  }

  /** A call adds at most the version it writes. */
  lemma CallVersion(s: Store<Key, Value>, op: Op<Key, Value>, r: nat)
    requires Consistent(s)
    ensures var s' := Apply(s, op).0;
            && (r in s.written ==> r in s'.written && s'.written[r] == s.written[r])
            && (r in s'.written && r !in s.written ==>
                  (op.CreateOp? || op.UpdateOp?) && s'.written[r] == Write(op.key, op.value))
  {
  }

  // ---------- Receipts, session indexes, invitations ----------

  lemma ReceiptFate(w: World, a: Action, e: Id)
    requires Enabled(w, a)
    ensures var s' := StoreAfter(w, a);
            || Unchanged(w, s', ReceiptKey(e))
            || StillAbsent(w, s', ReceiptKey(e))
            || (&& ReceiptKey(e) !in w.store.entries && ReceiptKey(e) in s'.entries
                && a.CreateReceipt? && EventAt(w.store.written, a.claim).id == e)
  {
    if OpOf(w, a).None? || OpOf(w, a).value.key != ReceiptKey(e) {
      OtherKeysStay(w, a, ReceiptKey(e));
    }
  }

  lemma IndexFate(w: World, a: Action, d: Digest)
    requires Enabled(w, a)
    ensures var s' := StoreAfter(w, a);
            var k := SessionKey(d);
            || Unchanged(w, s', k)
            || StillAbsent(w, s', k)
            || (a.CreateIndex? && k !in w.store.entries && w.joins[a.generation].digest == d)
            || (a.DropIndex? && k !in s'.entries && SlotAt(w.store.written, a.claim).digest == d)
            || (&& a.Tombstone? && k in s'.entries && SlotAt(w.store.written, a.slot).digest == d
                && s'.entries[k].value.SessionV? && s'.entries[k].value.index.deleted)
  {
    if OpOf(w, a).None? || OpOf(w, a).value.key != SessionKey(d) {
      OtherKeysStay(w, a, SessionKey(d));
    }
  }

  lemma InvitationFate(w: World, a: Action, d: Digest)
    requires Enabled(w, a)
    ensures var s' := StoreAfter(w, a);
            var k := InvitationKey(d);
            || Unchanged(w, s', k)
            || StillAbsent(w, s', k)
            || (a.CreateInvitation? && w.opening[a.eventId] == d && k !in w.store.entries)
            || (a.OfferInvitation? && d == Digest(w.drawn) && k !in w.store.entries)
            || (a.WithdrawInvitation? && a.digest == d && k !in s'.entries)
            || (a.DropInvitation? && EventAt(w.store.written, a.revision).invitation == d && k !in s'.entries)
  {
    if OpOf(w, a).None? || OpOf(w, a).value.key != InvitationKey(d) {
      OtherKeysStay(w, a, InvitationKey(d));
    }
  }
}
