/** The guest-slot lease and cleanup protocol as a system of atomic actions.

    Request handlers, the background reconciler and restarted processes share
    one store and nothing else. Each action below is one store call, one clock
    tick, one token mint, or one end of a call to the cleaner. A process may act
    on any version of an entry that was ever written, however stale: it holds
    the version's revision, and the store decides. A crash is a process that
    performs no further action.

    Beside the store a `World` records what has happened: how far each join has
    come (`joins`, by slot generation), how far each cleanup claim has come
    (`work`, by the revision of the claim), which subjects were minted a token
    and which the cleaner acknowledged with a complete count. */
module Protocol {
  import opened KvStore
  import opened Model

  datatype Phase = Created | Refused | Cleared | Indexed

  /** One `StartSession` that created a slot: the slot's place and digest, the
      revision of the creation, and the event version it was admitted under. */
  datatype Join = Join(
    eventId: Id, number: nat, digest: Digest, revision: nat, source: nat, phase: Phase)

  /** What the cleaner answers a call: an error, or how many of the subjects it
      has erased. */
  datatype Answer = CallFailed | Count(n: nat)

  /** One cleanup claim, from the compare-and-swap that stored it onwards. */
  datatype Work =
    | Claimed
    | Listing(todo: set<nat>, found: set<Guest>)
    | Calling(subjects: set<Guest>)
    | Complete(subjects: set<Guest>)
    | Incomplete(endedAt: Time)

  /** An invitation key that some running rotation still has to settle. */
  datatype Offer = Offered(revision: nat) | Stale

  datatype World = World(
    cfg: Config,
    store: Store<Key, Value>,
    clock: Time,
    drawn: Id,
    joins: map<Id, Join>,
    work: map<nat, Work>,
    renewals: set<nat>,
    minted: set<Guest>,
    acked: set<Guest>,
    doomed: map<Id, Id>,
    opening: map<Id, Digest>,
    offers: map<Digest, Offer>,
    dropped: map<Digest, nat>)

  datatype EventChange =
    | SetState(target: EventState)
    | SetCapacity(capacity: nat)
    | SetCohost
    | Rotate(digest: Digest)
    | StartDeletion(now: Time)
    | ClaimEvent(now: Time)
    | SaveEventFailure(now: Time)

  /** Why a slot may be claimed: found expired under an open event, already
      claimed before, or released by a presenter. */
  datatype Why = Expired(event: nat, seenAt: Time) | Retry | Release

  datatype SlotChange =
    | Claim(why: Why, now: Time)
    | SaveFailure(now: Time)
    | Reserve
    | Renew(index: nat, event: nat, now: Time)

  datatype Action =
    | Tick(to: Time)
    | CreateEvent(capacity: nat)
    | CreateInvitation(eventId: Id)
    | UndoCreateEvent(eventId: Id)
    | OfferInvitation(revision: nat)
    | WithdrawInvitation(digest: Digest)
    | UpdateEvent(revision: nat, change: EventChange)
    | CreateSlot(revision: nat, number: nat, now: Time)
    | Recheck(generation: Id)
    | CreateIndex(generation: Id)
    | Rollback(generation: Id)
    | Mint(generation: Id)
    | UpdateSlot(revision: nat, update: SlotChange)
    | MintRenewed(revision: nat)
    | BeginList(claim: nat)
    | ListSlot(claim: nat, number: nat)
    | StartCall(claim: nat)
    | EndCall(claim: nat, answer: Answer)
    | DropIndex(claim: nat)
    | DropSlot(claim: nat)
    | CreateReceipt(claim: nat, now: Time)
    | Tombstone(slot: nat, revision: nat)
    | PurgeSlot(revision: nat)
    | DropInvitation(revision: nat)
    | DropEvent(revision: nat)

  // ---------- Versions a process may hold, and what is live ----------

  type Written = map<nat, Write<Key, Value>>
  type Entries = map<Key, Entry<Value>>

  predicate IsEvent(written: Written, r: nat) {
    r in written && written[r].value.EventV?
  }

  function EventAt(written: Written, r: nat): Event
    requires IsEvent(written, r)
  {
    written[r].value.event
  }

  /** A version of event `e` in which it is open. */
  predicate IsOpenEvent(written: Written, r: nat, e: Id) {
    IsEvent(written, r) && EventAt(written, r).id == e && EventAt(written, r).state == Open
  }

  predicate IsSlot(written: Written, r: nat) {
    r in written && written[r].value.SlotV?
  }

  function SlotAt(written: Written, r: nat): Slot
    requires IsSlot(written, r)
  {
    written[r].value.slot
  }

  predicate HasEvent(entries: Entries, e: Id) {
    EventKey(e) in entries && entries[EventKey(e)].value.EventV?
  }

  function EventNow(entries: Entries, e: Id): Event
    requires HasEvent(entries, e)
  {
    entries[EventKey(e)].value.event
  }

  predicate HasSlot(entries: Entries, e: Id, n: nat) {
    SlotKey(e, n) in entries && entries[SlotKey(e, n)].value.SlotV?
  }

  function SlotNow(entries: Entries, e: Id, n: nat): Slot
    requires HasSlot(entries, e, n)
  {
    entries[SlotKey(e, n)].value.slot
  }

  predicate HasReceipt(entries: Entries, e: Id) {
    ReceiptKey(e) in entries
  }

  /** What is never taken back: time, draws, mints, acknowledgements. */
  predicate Records(w: World, w': World) {
    && w.clock <= w'.clock && w.drawn <= w'.drawn && w.cfg == w'.cfg
    && w.minted <= w'.minted && w.acked <= w'.acked
    && w.renewals <= w'.renewals
  }

  // ---------- Event updates ----------

  predicate EventChangeAllowed(w: World, r: nat, c: EventChange)
    requires IsEvent(w.store.written, r)
  {
    var ev := EventAt(w.store.written, r);
    match c
    case SetState(target) => ev.state == target || ValidTransition(ev.state, target)
    case SetCapacity(capacity) => capacity <= w.cfg.maxCapacity && ev.state != Deleting
    case SetCohost => ev.state != Deleting
    case Rotate(d) => ev.state != Deleting && d in w.offers && w.offers[d] == Offered(r)
    case StartDeletion(now) => ev.state != Deleting && now <= w.clock
    case ClaimEvent(now) =>
      && ev.state == Deleting && ev.deletionId.Some? && now <= w.clock
      && ClaimCleanup(EventIntent(ev), 0, now, w.cfg.cleanupLease).Some?
    case SaveEventFailure(now) =>
      && r in w.work && w.work[r].Incomplete? && ev.cleanup.Some?
      && w.work[r].endedAt <= now <= w.clock
  }

  /** The stored intent; a deletion tracked without one is given one in place. */
  function EventIntent(ev: Event): Option<Progress>
    requires ev.deletionId.Some?
  {
    if ev.cleanup.None? then Some(Progress(ev.deletionId.value, 0, 0, 0, false)) else ev.cleanup
  }

  function ChangedEvent(w: World, r: nat, c: EventChange): Event
    requires IsEvent(w.store.written, r) && EventChangeAllowed(w, r, c)
  {
    var ev := EventAt(w.store.written, r);
    match c
    case SetState(target) => ev.(state := target)
    case SetCapacity(capacity) => ev.(capacity := capacity)
    case SetCohost => ev
    case Rotate(d) => ev.(invitation := d)
    case StartDeletion(now) =>
      ev.(state := Deleting, deletionId := Some(w.drawn), cleanup := Some(Progress(w.drawn, 0, now, 0, false)))
    case ClaimEvent(now) =>
      ev.(cleanup := ClaimCleanup(EventIntent(ev), 0, now, w.cfg.cleanupLease))
    case SaveEventFailure(now) => ev.(cleanup := Some(FailCleanup(ev.cleanup.value, now)))
  }

  function PerformUpdateEvent(w: World, r: nat, c: EventChange): (out: (World, Reply))
    requires IsEvent(w.store.written, r) && EventChangeAllowed(w, r, c)
    ensures Records(w, out.0) && out.0.dropped == w.dropped && out.0.joins == w.joins
  {
    var ev := EventAt(w.store.written, r);
    var (s, reply) := Update(w.store, EventKey(ev.id), EventV(ChangedEvent(w, r, c)), r);
    var u := w.(store := s);
    if reply.Ok? then (AfterEventWrite(u, ev, reply.revision, c), reply)
    else if c.Rotate? then (u.(offers := w.offers[c.digest := Stale]), reply)
    else (u, reply)
  }

  /** What a successful event write settles beside the store. */
  function AfterEventWrite(u: World, was: Event, revision: nat, c: EventChange): (w: World)
    ensures Records(u, w) && w.joins == u.joins && w.dropped == u.dropped
  {
    match c
    case Rotate(d) => u.(offers := (u.offers - {d})[was.invitation := Stale])
    case StartDeletion(_) => u.(doomed := u.doomed[was.id := u.drawn], drawn := u.drawn + 1)
    case ClaimEvent(_) => u.(work := u.work[revision := Claimed])
    case _ => u
  }

  // ---------- Slot updates ----------

  predicate SlotChangeAllowed(w: World, r: nat, c: SlotChange)
    requires IsSlot(w.store.written, r)
  {
    var v := SlotAt(w.store.written, r);
    match c
    case Claim(why, now) =>
      && now <= w.clock
      && ClaimCleanup(v.cleanup, 0, now, w.cfg.cleanupLease).Some?
      && (match why
          case Expired(event, seenAt) =>
            && IsOpenEvent(w.store.written, event, v.eventId)
            && v.cleanup.None? && !v.reserved && v.graceExpiresAt <= seenAt <= w.clock
          case Retry => v.cleanup.Some?
          case Release => true)
    case SaveFailure(now) =>
      && r in w.work && w.work[r].Incomplete? && v.cleanup.Some?
      && w.work[r].endedAt <= now <= w.clock
    case Reserve => !v.reserved && v.cleanup.None?
    case Renew(index, event, now) =>
      && now <= w.clock
      && index in w.store.written
      && w.store.written[index] ==
         Write(SessionKey(v.digest), SessionV(SessionIndex(v.eventId, v.number, false)))
      && IsOpenEvent(w.store.written, event, v.eventId)
      && v.cleanup.None? && (v.reserved || now < v.graceExpiresAt)
  }

  function ChangedSlot(w: World, r: nat, c: SlotChange): Slot
    requires IsSlot(w.store.written, r) && SlotChangeAllowed(w, r, c)
  {
    var v := SlotAt(w.store.written, r);
    match c
    case Claim(_, now) => v.(cleanup := ClaimCleanup(v.cleanup, w.drawn, now, w.cfg.cleanupLease))
    case SaveFailure(now) => v.(cleanup := Some(FailCleanup(v.cleanup.value, now)))
    case Reserve => v.(reserved := true)
    case Renew(_, _, now) =>
      v.(lastSeenAt := now, reserved := false, leaseExpiresAt := now + w.cfg.leaseTTL,
         graceExpiresAt := now + w.cfg.leaseTTL + w.cfg.gracePeriod)
  }

  function PerformUpdateSlot(w: World, r: nat, c: SlotChange): (out: (World, Reply))
    requires IsSlot(w.store.written, r) && SlotChangeAllowed(w, r, c)
    ensures Records(w, out.0) && out.0.dropped == w.dropped && out.0.joins == w.joins && out.0.doomed == w.doomed
  {
    var v := SlotAt(w.store.written, r);
    var (s, reply) := Update(w.store, SlotKey(v.eventId, v.number), SlotV(ChangedSlot(w, r, c)), r);
    (if reply.Ok? then AfterSlotWrite(w.(store := s), reply.revision, c) else w, reply)
  }

  /** What a successful slot write settles beside the store. */
  function AfterSlotWrite(u: World, revision: nat, c: SlotChange): (w: World)
    ensures Records(u, w) && w.joins == u.joins && w.doomed == u.doomed && w.dropped == u.dropped
  {
    if c.Claim? then u.(work := u.work[revision := Claimed], drawn := u.drawn + 1)
    else if c.Renew? then u.(renewals := u.renewals + {revision})
    else u
  }

  // ---------- Invitations and event creation ----------

  function PerformCreateEvent(w: World, capacity: nat): (out: (World, Reply))
    ensures Records(w, out.0) && out.0.dropped == w.dropped && out.0.joins == w.joins && out.0.doomed == w.doomed
  {
    var ev := Event(w.drawn, capacity, Draft, Digest(w.drawn + 1), None, None);
    var (s, reply) := Create(w.store, EventKey(ev.id), EventV(ev));
    if reply.Failed? then (w, reply)
    else (w.(store := s, drawn := w.drawn + 2, opening := w.opening[ev.id := ev.invitation]), reply)
  }

  function PerformCreateInvitation(w: World, e: Id): (out: (World, Reply))
    requires e in w.opening
    ensures Records(w, out.0) && out.0.dropped == w.dropped && out.0.joins == w.joins && out.0.doomed == w.doomed
  {
    var (s, reply) := Create(w.store, InvitationKey(w.opening[e]), InvitationV(e));
    if reply.Failed? then (w, reply)
    else (w.(store := s, opening := w.opening - {e}), reply)
  }

  /** The undo of a creation whose invitation could not be stored: the event is
      deleted by its key, whatever revision it has by now. */
  function PerformUndoCreate(w: World, e: Id): (out: (World, Reply))
    requires e in w.opening
    ensures Records(w, out.0) && out.0.dropped == w.dropped && out.0.joins == w.joins && out.0.doomed == w.doomed
  {
    var (s, reply) := Delete(w.store, EventKey(e));
    (w.(store := s, opening := w.opening - {e}), reply)
  }

  function PerformOffer(w: World, r: nat): (out: (World, Reply))
    requires IsEvent(w.store.written, r)
    ensures Records(w, out.0) && out.0.dropped == w.dropped && out.0.joins == w.joins && out.0.doomed == w.doomed
  {
    var d := Digest(w.drawn);
    var (s, reply) := Create(w.store, InvitationKey(d), InvitationV(EventAt(w.store.written, r).id));
    if reply.Failed? then (w, reply)
    else (w.(store := s, drawn := w.drawn + 1, offers := w.offers[d := Offered(r)]), reply)
  }

  function PerformWithdraw(w: World, d: Digest): (out: (World, Reply))
    ensures Records(w, out.0) && out.0.dropped == w.dropped && out.0.joins == w.joins && out.0.doomed == w.doomed
  {
    var (s, reply) := Delete(w.store, InvitationKey(d));
    (w.(store := s, offers := w.offers - {d}), reply)
  }

  // ---------- Joins ----------

  /** The slot a join writes; its generation and secret are the next two draws. */
  function NewSlot(w: World, e: Id, number: nat, now: Time): Slot {
    Slot(e, number, w.drawn, Guest(e, w.drawn), Digest(w.drawn + 1), false,
         now + w.cfg.leaseTTL, now + w.cfg.leaseTTL + w.cfg.gracePeriod, now, None)
  }

  function PerformCreateSlot(w: World, r: nat, number: nat, now: Time): (out: (World, Reply))
    requires IsEvent(w.store.written, r)
    ensures Records(w, out.0) && out.0.dropped == w.dropped && out.0.doomed == w.doomed
  {
    var v := NewSlot(w, EventAt(w.store.written, r).id, number, now);
    var (s, reply) := Create(w.store, SlotKey(v.eventId, number), SlotV(v));
    if reply.Failed? then (w, reply)
    else
      var j := Join(v.eventId, number, v.digest, reply.revision, r, Created);
      (w.(store := s, drawn := w.drawn + 2, joins := w.joins[v.generation := j]), reply)
  }

  function InPhase(w: World, g: Id, phase: Phase): World
    requires g in w.joins
  {
    w.(joins := w.joins[g := w.joins[g].(phase := phase)])
  }

  function PerformRecheck(w: World, g: Id): (out: (World, Reply))
    requires g in w.joins
    ensures Records(w, out.0) && out.0.dropped == w.dropped && out.0.doomed == w.doomed
  {
    var j := w.joins[g];
    if !HasEvent(w.store.entries, j.eventId) then (InPhase(w, g, Refused), Failed(NotFound))
    else
      var ev := EventNow(w.store.entries, j.eventId);
      if ev.state != Open || j.number > ev.capacity then (InPhase(w, g, Refused), Failed(Conflict))
      else (InPhase(w, g, Cleared), Ok(0))
  }

  function PerformCreateIndex(w: World, g: Id): (out: (World, Reply))
    requires g in w.joins
    ensures Records(w, out.0) && out.0.dropped == w.dropped && out.0.doomed == w.doomed
  {
    var j := w.joins[g];
    var (s, reply) := Create(w.store, SessionKey(j.digest), SessionV(SessionIndex(j.eventId, j.number, false)));
    (InPhase(w.(store := s), g, if reply.Ok? then Indexed else Refused), reply)
  }

  function PerformRollback(w: World, g: Id): (out: (World, Reply))
    requires g in w.joins
    ensures Records(w, out.0) && out.0.dropped == w.dropped && out.0.joins == w.joins && out.0.doomed == w.doomed
  {
    var j := w.joins[g];
    var (s, reply) := DeleteRevision(w.store, SlotKey(j.eventId, j.number), j.revision);
    (w.(store := s), reply)
  }

  // ---------- Cleanup work ----------

  function SlotNumbers(entries: Entries, e: Id): set<nat> {
    set k | k in entries && k.SlotKey? && k.eventId == e :: k.number
  }

  function ListedSlot(w: World, rc: nat, n: nat): Work
    requires rc in w.work && w.work[rc].Listing? && IsEvent(w.store.written, rc)
  {
    var e := EventAt(w.store.written, rc).id;
    var here := if HasSlot(w.store.entries, e, n) then {SlotNow(w.store.entries, e, n).subject} else {};
    Listing(w.work[rc].todo - {n}, w.work[rc].found + here)
  }

  /** A slot claim calls for its one subject, an event claim for all it found. */
  function CallOf(w: World, rc: nat): Work
    requires rc in w.work && (w.work[rc].Listing? || IsSlot(w.store.written, rc))
  {
    Calling(if w.work[rc].Listing? then w.work[rc].found else {SlotAt(w.store.written, rc).subject})
  }

  /** Only the full count is an acknowledgement. */
  function PerformEndCall(w: World, rc: nat, answer: Answer): (out: (World, Reply))
    requires rc in w.work && w.work[rc].Calling?
    ensures Records(w, out.0) && out.0.dropped == w.dropped && out.0.joins == w.joins && out.0.doomed == w.doomed
  {
    var subjects := w.work[rc].subjects;
    if answer == Count(|subjects|) then
      (w.(work := w.work[rc := Complete(subjects)], acked := w.acked + subjects), Ok(0))
    else (w.(work := w.work[rc := Incomplete(w.clock)]), Ok(0))
  }

  /** `DeleteRevision` of the slot whose version at `r` was read. */
  function PerformDeleteSlot(w: World, r: nat): (out: (World, Reply))
    requires IsSlot(w.store.written, r)
    ensures Records(w, out.0) && out.0.dropped == w.dropped && out.0.joins == w.joins && out.0.doomed == w.doomed
  {
    var v := SlotAt(w.store.written, r);
    var (s, reply) := DeleteRevision(w.store, SlotKey(v.eventId, v.number), r);
    (w.(store := s), reply)
  }

  function PerformDropIndex(w: World, rc: nat): (out: (World, Reply))
    requires IsSlot(w.store.written, rc)
    ensures Records(w, out.0) && out.0.dropped == w.dropped && out.0.joins == w.joins && out.0.doomed == w.doomed
  {
    var (s, reply) := Delete(w.store, SessionKey(SlotAt(w.store.written, rc).digest));
    (w.(store := s), reply)
  }

  function PerformCreateReceipt(w: World, rc: nat, now: Time): (out: (World, Reply))
    requires rc in w.work && w.work[rc].Complete? && IsEvent(w.store.written, rc)
    requires EventAt(w.store.written, rc).deletionId.Some?
    ensures Records(w, out.0) && out.0.dropped == w.dropped && out.0.joins == w.joins && out.0.doomed == w.doomed
  {
    var ev := EventAt(w.store.written, rc);
    var receipt := Receipt(ev.deletionId.value, ev.id, now, |w.work[rc].subjects|);
    var (s, reply) := Create(w.store, ReceiptKey(ev.id), ReceiptV(receipt));
    (w.(store := s), reply)
  }

  function PerformTombstone(w: World, r: nat, q: nat): (out: (World, Reply))
    requires IsSlot(w.store.written, r)
    ensures Records(w, out.0) && out.0.dropped == w.dropped && out.0.joins == w.joins && out.0.doomed == w.doomed
  {
    var v := SlotAt(w.store.written, r);
    var (s, reply) := Update(w.store, SessionKey(v.digest), SessionV(SessionIndex(v.eventId, v.number, true)), q);
    (w.(store := s), reply)
  }

  function PerformDropInvitation(w: World, r: nat): (out: (World, Reply))
    requires IsEvent(w.store.written, r)
    ensures Records(w, out.0) && out.0.joins == w.joins && out.0.doomed == w.doomed
  {
    var d := EventAt(w.store.written, r).invitation;
    var (s, reply) := Delete(w.store, InvitationKey(d));
    (w.(store := s, dropped := w.dropped[d := r]), reply)
  }

  function PerformDropEvent(w: World, r: nat): (out: (World, Reply))
    requires IsEvent(w.store.written, r)
    ensures Records(w, out.0) && out.0.dropped == w.dropped && out.0.joins == w.joins && out.0.doomed == w.doomed
  {
    var (s, reply) := DeleteRevision(w.store, EventKey(EventAt(w.store.written, r).id), r);
    (w.(store := s), reply)
  }

  // ---------- All actions ----------

  predicate Enabled(w: World, a: Action) {
    match a
    case Tick(to) => w.clock <= to
    case CreateEvent(capacity) => capacity <= w.cfg.maxCapacity
    case CreateInvitation(e) => e in w.opening
    case UndoCreateEvent(e) => e in w.opening
    case OfferInvitation(r) => IsEvent(w.store.written, r) && EventAt(w.store.written, r).state != Deleting
    case WithdrawInvitation(d) => d in w.offers && w.offers[d] == Stale
    case UpdateEvent(r, c) => IsEvent(w.store.written, r) && EventChangeAllowed(w, r, c)
    case CreateSlot(r, number, now) =>
      && IsEvent(w.store.written, r) && EventAt(w.store.written, r).state == Open
      && 1 <= number <= EventAt(w.store.written, r).capacity && now <= w.clock
    case Recheck(g) => g in w.joins && w.joins[g].phase == Created
    case CreateIndex(g) => g in w.joins && w.joins[g].phase == Cleared
    case Rollback(g) => g in w.joins && w.joins[g].phase == Refused
    case Mint(g) => g in w.joins && w.joins[g].phase == Indexed
    case UpdateSlot(r, c) => IsSlot(w.store.written, r) && SlotChangeAllowed(w, r, c)
    case MintRenewed(r) => r in w.renewals && IsSlot(w.store.written, r)
    case BeginList(rc) => rc in w.work && w.work[rc] == Claimed && IsEvent(w.store.written, rc)
    case ListSlot(rc, n) =>
      rc in w.work && w.work[rc].Listing? && n in w.work[rc].todo && IsEvent(w.store.written, rc)
    case StartCall(rc) =>
      && rc in w.work
      && ((w.work[rc] == Claimed && IsSlot(w.store.written, rc)) || (w.work[rc].Listing? && w.work[rc].todo == {}))
    case EndCall(rc, _) => rc in w.work && w.work[rc].Calling?
    case DropIndex(rc) => rc in w.work && w.work[rc].Complete? && IsSlot(w.store.written, rc)
    case DropSlot(rc) => rc in w.work && w.work[rc].Complete? && IsSlot(w.store.written, rc)
    case CreateReceipt(rc, now) =>
      && rc in w.work && w.work[rc].Complete? && IsEvent(w.store.written, rc)
      && EventAt(w.store.written, rc).deletionId.Some? && now <= w.clock
    case Tombstone(r, q) =>
      && IsSlot(w.store.written, r) && HasReceipt(w.store.entries, SlotAt(w.store.written, r).eventId)
      && q in w.store.written && w.store.written[q].key == SessionKey(SlotAt(w.store.written, r).digest)
    case PurgeSlot(r) =>
      IsSlot(w.store.written, r) && HasReceipt(w.store.entries, SlotAt(w.store.written, r).eventId)
    case DropInvitation(r) =>
      && IsEvent(w.store.written, r) && EventAt(w.store.written, r).state == Deleting
      && HasReceipt(w.store.entries, EventAt(w.store.written, r).id)
    case DropEvent(r) =>
      && IsEvent(w.store.written, r) && EventAt(w.store.written, r).state == Deleting
      && HasReceipt(w.store.entries, EventAt(w.store.written, r).id)
      && EventAt(w.store.written, r).invitation in w.dropped
  }

  /** The effect of an action and what its store call answers. */
  function Perform(w: World, a: Action): (World, Reply)
    requires Enabled(w, a)
  {
    match a
    case Tick(to) => (w.(clock := to), Ok(0))
    case CreateEvent(capacity) => PerformCreateEvent(w, capacity)
    case CreateInvitation(e) => PerformCreateInvitation(w, e)
    case UndoCreateEvent(e) => PerformUndoCreate(w, e)
    case OfferInvitation(r) => PerformOffer(w, r)
    case WithdrawInvitation(d) => PerformWithdraw(w, d)
    case UpdateEvent(r, c) => PerformUpdateEvent(w, r, c)
    case CreateSlot(r, number, now) => PerformCreateSlot(w, r, number, now)
    case Recheck(g) => PerformRecheck(w, g)
    case CreateIndex(g) => PerformCreateIndex(w, g)
    case Rollback(g) => PerformRollback(w, g)
    case Mint(g) => (w.(minted := w.minted + {Guest(w.joins[g].eventId, g)}), Ok(0))
    case UpdateSlot(r, c) => PerformUpdateSlot(w, r, c)
    case MintRenewed(r) => (w.(minted := w.minted + {SlotAt(w.store.written, r).subject}), Ok(0))
    case BeginList(rc) =>
      (w.(work := w.work[rc := Listing(SlotNumbers(w.store.entries, EventAt(w.store.written, rc).id), {})]), Ok(0))
    case ListSlot(rc, n) => (w.(work := w.work[rc := ListedSlot(w, rc, n)]), Ok(0))
    case StartCall(rc) =>
      (w.(work := w.work[rc := CallOf(w, rc)]), Ok(0))
    case EndCall(rc, answer) => PerformEndCall(w, rc, answer)
    case DropIndex(rc) => PerformDropIndex(w, rc)
    case DropSlot(rc) => PerformDeleteSlot(w, rc)
    case CreateReceipt(rc, now) => PerformCreateReceipt(w, rc, now)
    case Tombstone(r, q) => PerformTombstone(w, r, q)
    case PurgeSlot(r) => PerformDeleteSlot(w, r)
    case DropInvitation(r) => PerformDropInvitation(w, r)
    case DropEvent(r) => PerformDropEvent(w, r)
  }

  // ---------- Runs ----------

  function Init(cfg: Config, start: Time): World {
    World(cfg, Empty(), start, 0, map[], map[], {}, {}, {}, map[], map[], map[], map[])
  }

  /** An action whose guard does not hold has no effect. */
  function Next(w: World, a: Action): World {
    if Enabled(w, a) then Perform(w, a).0 else w
  }

  function Exec(w: World, run: seq<Action>): World {
    if run == [] then w else Next(Exec(w, run[..|run| - 1]), run[|run| - 1])
  }

  ghost predicate Reachable(w: World) {
    exists cfg: Config, start: Time, run: seq<Action> :: Exec(Init(cfg, start), run) == w
  }

  lemma OneMore(w: World, run: seq<Action>, a: Action)
    ensures Exec(w, run + [a]) == Next(Exec(w, run), a)
  {
    assert (run + [a])[..|run|] == run;
  }

  lemma ReachableNext(w: World, a: Action)
    requires Reachable(w)
    ensures Reachable(Next(w, a))
  {
    var cfg: Config, start: Time, run: seq<Action> :| Exec(Init(cfg, start), run) == w;
    OneMore(Init(cfg, start), run, a);
  }

  lemma {:induction false} ReachableExec(w: World, run: seq<Action>)
    requires Reachable(w)
    ensures Reachable(Exec(w, run))
  {
    if run != [] {
      ReachableExec(w, run[..|run| - 1]);
      ReachableNext(Exec(w, run[..|run| - 1]), run[|run| - 1]);
    }
  }
}
