/** What one process may count on while others act: rely conditions, and the
    proof that every run of the other processes meets them. */
module Interference {
  import opened KvStore
  import opened Model
  import opened Protocol
  import opened Invariants
  import opened Preservation
  import opened Fates
  import opened Frames
  import opened Runs
  import opened Guarantees
  import opened Tenancy
  import opened Invitations

  /** What belongs to the process that brought it about: a join it started, a
      claim it stored, an invitation it offered, an event it is creating. */
  datatype Token =
    | JoinToken(generation: Id)
    | ClaimToken(claim: nat)
    | OfferToken(digest: Digest)
    | OpeningToken(eventId: Id)

  /** The token an action needs, if any; the rest is open to every process. */
  function TokenOf(a: Action): Option<Token> {
    match a
    case Recheck(g) => Some(JoinToken(g))
    case CreateIndex(g) => Some(JoinToken(g))
    case Rollback(g) => Some(JoinToken(g))
    case Mint(g) => Some(JoinToken(g))
    case UpdateSlot(r, c) => if c.SaveFailure? then Some(ClaimToken(r)) else None
    case UpdateEvent(r, c) =>
      if c.SaveEventFailure? then Some(ClaimToken(r))
      else if c.Rotate? then Some(OfferToken(c.digest))
      else None
    case BeginList(rc) => Some(ClaimToken(rc))
    case ListSlot(rc, _) => Some(ClaimToken(rc))
    case StartCall(rc) => Some(ClaimToken(rc))
    case EndCall(rc, _) => Some(ClaimToken(rc))
    case DropIndex(rc) => Some(ClaimToken(rc))
    case DropSlot(rc) => Some(ClaimToken(rc))
    case CreateReceipt(rc, _) => Some(ClaimToken(rc))
    case WithdrawInvitation(d) => Some(OfferToken(d))
    case CreateInvitation(e) => Some(OpeningToken(e))
    case UndoCreateEvent(e) => Some(OpeningToken(e))
    case _ => None
  }

  /** What a process holds; whether others run at all; an event, if any, that
      nobody opens and whose slots nobody renews while it is closed, as is so when
      no renewal in flight has read it as open (`Pausing.NothingInFlightIsQuiet`);
      an event that stays open meanwhile; and the keys nobody writes meanwhile. */
  datatype Rely = Rely(mine: set<Token>, alone: bool, quiet: Option<Id>, open: Option<Id>, keeps: set<Key>)

  /** What holds in every reachable world. */
  ghost predicate Sane(w: World) {
    Inv(w) && Tidy(w) && Stuck(w)
  }

  /** `Sticky(w.store)`, kept folded until asked for. */
  ghost predicate Stuck(w: World) {
    forall b: bool :: Shown(w, b) ==> Sticky(w.store)
  }

  lemma ShowStuck(w: World)
    requires Stuck(w)
    ensures Sticky(w.store)
  {
    assert Shown(w, true);
  }

  lemma SanePerform(w: World, a: Action)
    requires Sane(w) && Enabled(w, a)
    ensures Sane(Perform(w, a).0)
  {
    ShowStuck(w);
    InvPerform(w, a);
    TidyPerform(w, a);
    StickyPerform(w, a);
  }

  lemma SaneHolds(w: World)
    requires Reachable(w)
    ensures Sane(w)
  {
    TidyHolds(w);
    StickyHolds(w);
  }

  predicate SameAt(s: Store<Key, Value>, s': Store<Key, Value>, k: Key) {
    && (k in s.entries <==> k in s'.entries)
    && (k in s.entries ==> s'.entries[k] == s.entries[k])
  }

  /** The stores agree on every key but these. */
  ghost predicate SameExcept(s: Store<Key, Value>, s': Store<Key, Value>, keys: set<Key>) {
    forall k :: k !in keys ==> SameAt(s, s', k)
  }

  /** The states of what a process holds are as it left them. */
  ghost predicate TokensKept(w: World, w': World, mine: set<Token>) {
    && (forall g :: JoinToken(g) in mine && g in w.joins ==> g in w'.joins && w'.joins[g] == w.joins[g])
    && (forall rc :: ClaimToken(rc) in mine && rc in w.work ==> rc in w'.work && w'.work[rc] == w.work[rc])
    && (forall e :: OpeningToken(e) in mine && e in w.opening ==> e in w'.opening && w'.opening[e] == w.opening[e])
    && OffersKept(w, w', mine)
  }

  /** The invitations held are on offer, or stale, as they were left. */
  ghost predicate OffersKept(w: World, w': World, mine: set<Token>) {
    forall d :: OfferToken(d) in mine && d in w.offers ==> d in w'.offers && w'.offers[d] == w.offers[d]
  }

  /** A generation holding its slot now held it before. */
  ghost predicate NoneReturns(w: World, w': World) {
    forall g :: g in w.joins && g in w'.joins && Holds(w'.store.entries, w.joins[g], g) ==>
      Holds(w.store.entries, w.joins[g], g)
  }

  /** The place of generation `g` is kept for it, or claimed for cleanup. */
  predicate Secured(entries: Entries, j: Join, g: Id) {
    Holds(entries, j, g) ==>
      SlotNow(entries, j.eventId, j.number).reserved || SlotNow(entries, j.eventId, j.number).cleanup.Some?
  }

  predicate Closed(entries: Entries, e: Id) {
    HasEvent(entries, e) ==> EventNow(entries, e).state != Open
  }

  /** A closed event that nobody opens and whose slots nobody renews: it stays
      closed, no join passes the recheck, and a place once secured stays so. */
  ghost predicate QuietLater(w: World, w': World, e: Id) {
    Closed(w.store.entries, e) ==>
    && Closed(w'.store.entries, e)
    && NoneNewlyPassed(w.joins, w'.joins, e)
    && (forall g :: g in w.joins && w.joins[g].eventId == e && Secured(w.store.entries, w.joins[g], g) ==>
          Secured(w'.store.entries, w.joins[g], g))
  }

  predicate OpenNow(entries: Entries, e: Id) {
    HasEvent(entries, e) && EventNow(entries, e).state == Open
  }

  /** An event that stays open: so do its kept places that nobody writes, with
      their session indexes. */
  ghost predicate OpenLater(w: World, w': World, e: Id, keeps: set<Key>) {
    OpenNow(w.store.entries, e) ==>
    && OpenNow(w'.store.entries, e)
    && (forall n :: SlotKey(e, n) in keeps && Kept(w, e, n) ==> Kept(w', e, n))
  }

  ghost predicate Later(w: World, w': World, rely: Rely) {
    && Grows(w, w') && NoneReturns(w, w')
    && TokensKept(w, w', rely.mine)
    && (rely.alone ==> w' == w)
    && (rely.quiet.Some? ==> QuietLater(w, w', rely.quiet.value))
    && (rely.open.Some? ==> OpenLater(w, w', rely.open.value, rely.keeps))
    && (forall k :: k in rely.keeps ==> SameAt(w.store, w'.store, k))
  }

  // ---------- The same, folded ----------

  /** What is never undone, kept folded until a fact is asked for. */
  ghost predicate Since(w: World, w': World) {
    forall b: bool :: Shown(w', b) ==> Grows(w, w') && NoneReturns(w, w')
  }

  /** `Later(w, w', rely)`, kept folded until a fact is asked for. */
  ghost predicate Meanwhile(w: World, w': World, rely: Rely) {
    forall b: bool :: Shown(w', b) ==> Later(w, w', rely)
  }

  /** `QuietLater(w, w', e)`, kept folded until a fact is asked for. */
  ghost predicate Quietly(w: World, w': World, e: Id) {
    forall b: bool :: Shown(w', b) ==> QuietLater(w, w', e)
  }

  lemma ShowQuietly(w: World, w': World, e: Id)
    requires Quietly(w, w', e)
    ensures QuietLater(w, w', e)
  {
    assert Shown(w', true);
  }

  lemma MeanwhileQuietly(w: World, w': World, rely: Rely)
    requires Meanwhile(w, w', rely) && rely.quiet.Some?
    ensures Quietly(w, w', rely.quiet.value)
  {
    ShowMeanwhile(w, w', rely);
  }

  lemma QuietlyChain(u: World, v: World, w: World, e: Id)
    requires Since(u, v) && Since(v, w) && Quietly(u, v, e) && Quietly(v, w, e)
    ensures Quietly(u, w, e)
  {
    ShowSince(u, v);
    ShowSince(v, w);
    ShowQuietly(u, v, e);
    ShowQuietly(v, w, e);
    if Closed(u.store.entries, e) {
      QuietTransitive(u, v, w, e);
    }
  }

  /** The generation of `v`, if it still holds its place, is reserved or claimed. */
  predicate SafePlace(entries: Entries, v: Slot) {
    HasSlot(entries, v.eventId, v.number) && SlotNow(entries, v.eventId, v.number).generation == v.generation ==>
      SlotNow(entries, v.eventId, v.number).reserved || SlotNow(entries, v.eventId, v.number).cleanup.Some?
  }

  lemma QuietlyKeepsPlace(w: World, w': World, e: Id, v: Slot)
    requires Quietly(w, w', e) && Closed(w.store.entries, e) && SlotOk(w.joins, e, v.number, v)
    requires SafePlace(w.store.entries, v)
    ensures SafePlace(w'.store.entries, v)
  {
    ShowQuietly(w, w', e);
    assert Secured(w.store.entries, w.joins[v.generation], v.generation);
  }

  lemma QuietlyClosed(w: World, w': World, e: Id)
    requires Quietly(w, w', e) && Closed(w.store.entries, e)
    ensures Closed(w'.store.entries, e) && NoneNewlyPassed(w.joins, w'.joins, e)
  {
    ShowQuietly(w, w', e);
  }

  lemma SinceSlotOk(w: World, w': World, e: Id, v: Slot)
    requires Since(w, w') && SlotOk(w.joins, e, v.number, v)
    ensures SlotOk(w'.joins, e, v.number, v)
  {
    ShowSince(w, w');
  }

  lemma ShowSince(w: World, w': World)
    requires Since(w, w')
    ensures Grows(w, w') && NoneReturns(w, w')
  {
    assert Shown(w', true);
  }

  lemma ShowMeanwhile(w: World, w': World, rely: Rely)
    requires Meanwhile(w, w', rely)
    ensures Later(w, w', rely)
  {
    assert Shown(w', true);
  }

  /** The event that rivals leave closed is closed. */
  predicate StaysShut(w: World, rely: Rely, e: Id) {
    rely.quiet == Some(e) && Closed(w.store.entries, e)
  }

  lemma ShutStill(w: World, w': World, rely: Rely, e: Id)
    requires Meanwhile(w, w', rely) && StaysShut(w, rely, e)
    ensures StaysShut(w', rely, e)
  {
    ShowMeanwhile(w, w', rely);
  }

  /** A key that others leave alone is as it was. */
  lemma MeanwhileKept(w: World, w': World, rely: Rely, k: Key)
    requires Meanwhile(w, w', rely) && k in rely.keeps
    ensures SameAt(w.store, w'.store, k)
  {
    ShowMeanwhile(w, w', rely);
  }

  lemma SinceSelf(w: World)
    ensures Since(w, w)
  {
  }

  lemma SinceChain(u: World, v: World, w: World)
    requires Since(u, v) && Since(v, w)
    ensures Since(u, w)
  {
    ShowSince(u, v);
    ShowSince(v, w);
    GrowsTransitive(u, v, w);
    NoneReturnsTransitive(u, v, w);
  }

  /** Versions, the clock and acknowledgements, as they were or further on. */
  lemma SinceFacts(w: World, w': World)
    requires Since(w, w')
    ensures w.clock <= w'.clock && w.drawn <= w'.drawn && w'.cfg == w.cfg
    ensures w.acked <= w'.acked && w.minted <= w'.minted && w.renewals <= w'.renewals
  {
    ShowSince(w, w');
  }

  lemma SinceSlot(w: World, w': World, r: nat)
    requires Since(w, w') && IsSlot(w.store.written, r)
    ensures IsSlot(w'.store.written, r) && SlotAt(w'.store.written, r) == SlotAt(w.store.written, r)
  {
    ShowSince(w, w');
  }

  lemma SinceWritten(w: World, w': World, r: nat)
    requires Since(w, w') && r in w.store.written
    ensures r in w'.store.written && w'.store.written[r] == w.store.written[r]
  {
    ShowSince(w, w');
  }

  lemma SinceEvent(w: World, w': World, r: nat)
    requires Since(w, w') && IsEvent(w.store.written, r)
    ensures IsEvent(w'.store.written, r) && EventAt(w'.store.written, r) == EventAt(w.store.written, r)
  {
    ShowSince(w, w');
  }

  lemma SinceReceipt(w: World, w': World, e: Id)
    requires Since(w, w') && HasReceipt(w.store.entries, e)
    ensures HasReceipt(w'.store.entries, e) && w'.store.entries[ReceiptKey(e)] == w.store.entries[ReceiptKey(e)]
  {
    ShowSince(w, w');
  }

  lemma LaterReflexive(w: World, rely: Rely)
    ensures Later(w, w, rely)
  {
  }

  // ---------- Every run of the others meets the rely ----------

  /** The action does not open the event. */
  predicate StaysClosed(w: World, a: Action, e: Id) {
    a.UpdateEvent? && a.change == SetState(Open) && IsEvent(w.store.written, a.revision) && Lands(w, a.revision) ==>
      EventAt(w.store.written, a.revision).id != e
  }

  /** The action neither opens the event nor renews any of its slots. */
  predicate QuietStep(w: World, a: Action, e: Id) {
    && StaysClosed(w, a, e)
    && (a.UpdateSlot? && a.update.Renew? && IsSlot(w.store.written, a.revision) ==>
          SlotAt(w.store.written, a.revision).eventId != e)
  }

  ghost predicate EnvironmentStep(w: World, a: Action, rely: Rely) {
    && (TokenOf(a).Some? ==> TokenOf(a).value !in rely.mine)
    && !rely.alone
    && (rely.quiet.Some? && Closed(w.store.entries, rely.quiet.value) && Enabled(w, a) ==>
          QuietStep(w, a, rely.quiet.value))
    && (rely.open.Some? && OpenNow(w.store.entries, rely.open.value) ==>
          OpenNow(Next(w, a).store.entries, rely.open.value))
    && (forall k :: k in rely.keeps ==> SameAt(w.store, Next(w, a).store, k))
  }

  ghost predicate EnvironmentRun(w: World, run: seq<Action>, rely: Rely) {
    forall i :: 0 <= i < |run| ==> EnvironmentStep(Exec(w, run[..i]), run[i], rely)
  }

  lemma SlotUpdateKeepsWork(w: World, r: nat, c: SlotChange, rc: nat)
    requires Inv(w) && IsSlot(w.store.written, r) && SlotChangeAllowed(w, r, c) && rc in w.work
    ensures rc in PerformUpdateSlot(w, r, c).0.work && PerformUpdateSlot(w, r, c).0.work[rc] == w.work[rc]
  {
    NextRevisionUnclaimed(w);
  }

  lemma EventUpdateKeepsWork(w: World, r: nat, c: EventChange, rc: nat)
    requires Inv(w) && IsEvent(w.store.written, r) && EventChangeAllowed(w, r, c) && rc in w.work
    ensures rc in PerformUpdateEvent(w, r, c).0.work && PerformUpdateEvent(w, r, c).0.work[rc] == w.work[rc]
  {
    NextRevisionUnclaimed(w);
  }

  lemma ClaimsKept(w: World, a: Action, rc: nat)
    requires Inv(w) && Enabled(w, a) && TokenOf(a) != Some(ClaimToken(rc)) && rc in w.work
    ensures rc in Perform(w, a).0.work && Perform(w, a).0.work[rc] == w.work[rc]
  {
    if a.UpdateSlot? {
      SlotUpdateKeepsWork(w, a.revision, a.update, rc);
    } else if a.UpdateEvent? {
      EventUpdateKeepsWork(w, a.revision, a.change, rc);
    } else if !Works(a) {
      LeavesWork(w, a);
    }
  }

  lemma CreateKeepsJoin(w: World, r: nat, n: nat, now: Time, g: Id)
    requires Inv(w) && IsEvent(w.store.written, r) && g in w.joins
    ensures var joins' := PerformCreateSlot(w, r, n, now).0.joins;
            g in joins' && joins'[g] == w.joins[g]
  {
    JoinTyped(w, g);
  }

  lemma OtherJoinKept(w: World, a: Action, g: Id)
    requires Enabled(w, a) && (a.Recheck? || a.CreateIndex?) && a.generation != g && g in w.joins
    ensures g in Perform(w, a).0.joins && Perform(w, a).0.joins[g] == w.joins[g]
  {
  }

  lemma JoinsKept(w: World, a: Action, g: Id)
    requires Inv(w) && Enabled(w, a) && TokenOf(a) != Some(JoinToken(g)) && g in w.joins
    ensures g in Perform(w, a).0.joins && Perform(w, a).0.joins[g] == w.joins[g]
  {
    if a.CreateSlot? {
      CreateKeepsJoin(w, a.revision, a.number, a.now, g);
    } else if a.Recheck? || a.CreateIndex? {
      OtherJoinKept(w, a, g);
    } else {
      LeavesJoins(w, a);
    }
  }

  lemma NoneReturnsStep(w: World, a: Action, g: Id)
    requires Inv(w) && Enabled(w, a) && g in w.joins
    requires Holds(Perform(w, a).0.store.entries, w.joins[g], g)
    ensures Holds(w.store.entries, w.joins[g], g)
  {
    JoinTyped(w, g);
    if !Holds(w.store.entries, w.joins[g], g) {
      GoneForGood(w, a, w.joins[g].eventId, w.joins[g].number, g);
    }
  }

  lemma SecuredStep(w: World, a: Action, e: Id, g: Id)
    requires Inv(w) && Enabled(w, a) && QuietStep(w, a, e)
    requires g in w.joins && w.joins[g].eventId == e && Secured(w.store.entries, w.joins[g], g)
    ensures Secured(Perform(w, a).0.store.entries, w.joins[g], g)
  {
    if Holds(Perform(w, a).0.store.entries, w.joins[g], g) {
      NoneReturnsStep(w, a, g);
      StoreFollows(w, a);
      SlotFate(w, a, e, w.joins[g].number);
      LiveVersion(w, SlotKey(e, w.joins[g].number));
    }
  }

  /** Every join of the event that is past the recheck already was. */
  ghost predicate NoneNewlyPassed(joins: Joins, joins': Joins, e: Id) {
    forall g :: g in joins' && joins'[g].eventId == e && Passed(joins'[g].phase) ==>
      g in joins && Passed(joins[g].phase)
  }

  lemma RecheckPassesNone(w: World, g: Id, e: Id)
    requires g in w.joins && w.joins[g].phase == Created && Closed(w.store.entries, e)
    ensures NoneNewlyPassed(w.joins, PerformRecheck(w, g).0.joins, e)
  {
  }

  lemma CreateSlotPassesNone(w: World, r: nat, n: nat, now: Time, e: Id)
    requires IsEvent(w.store.written, r)
    ensures NoneNewlyPassed(w.joins, PerformCreateSlot(w, r, n, now).0.joins, e)
  {
  }

  lemma CreateIndexPassesNone(w: World, g: Id, e: Id)
    requires g in w.joins && w.joins[g].phase == Cleared
    ensures NoneNewlyPassed(w.joins, PerformCreateIndex(w, g).0.joins, e)
  {
  }

  lemma ClosedStep(w: World, a: Action, e: Id)
    requires Inv(w) && Enabled(w, a) && StaysClosed(w, a, e) && Closed(w.store.entries, e)
    ensures Closed(Perform(w, a).0.store.entries, e)
  {
    StoreFollows(w, a);
    if HasEvent(w.store.entries, e) {
      LiveVersion(w, EventKey(e));
      EventFate(w, a, e);
    } else if EventKey(e) in w.store.entries {
      LiveVersion(w, EventKey(e));
    } else {
      EventBirth(w, a, e);
    }
  }

  lemma NoPassStep(w: World, a: Action, e: Id)
    requires Inv(w) && Enabled(w, a) && Closed(w.store.entries, e)
    ensures NoneNewlyPassed(w.joins, Perform(w, a).0.joins, e)
  {
    if a.Recheck? {
      RecheckPassesNone(w, a.generation, e);
    } else if a.CreateSlot? {
      CreateSlotPassesNone(w, a.revision, a.number, a.now, e);
    } else if a.CreateIndex? {
      CreateIndexPassesNone(w, a.generation, e);
    } else {
      LeavesJoins(w, a);
    }
  }

  lemma QuietStepKeeps(w: World, a: Action, e: Id)
    requires Inv(w) && Enabled(w, a) && QuietStep(w, a, e)
    ensures QuietLater(w, Perform(w, a).0, e)
  {
    var w' := Perform(w, a).0;
    if Closed(w.store.entries, e) {
      NoPassStep(w, a, e);
      ClosedStep(w, a, e);
    }
    forall g | g in w.joins && w.joins[g].eventId == e && Secured(w.store.entries, w.joins[g], g)
      ensures Secured(w'.store.entries, w.joins[g], g)
    {
      SecuredStep(w, a, e, g);
    }
  }

  lemma OpeningsKept(w: World, a: Action, e: Id)
    requires Inv(w) && Enabled(w, a) && TokenOf(a) != Some(OpeningToken(e)) && e in w.opening
    ensures e in Perform(w, a).0.opening && Perform(w, a).0.opening[e] == w.opening[e]
  {
    HeldDigestsDrawn(w);
    OpeningFollows(w, a);
  }

  lemma StepIsSince(w: World, a: Action)
    requires Inv(w) && Enabled(w, a)
    ensures Since(w, Perform(w, a).0)
  {
    var w' := Perform(w, a).0;
    PerformGrows(w, a);
    forall g | g in w.joins && g in w'.joins && Holds(w'.store.entries, w.joins[g], g)
      ensures Holds(w.store.entries, w.joins[g], g)
    {
      NoneReturnsStep(w, a, g);
    }
  }

  lemma OpenStep(w: World, a: Action, e: Id, keeps: set<Key>)
    requires Sane(w) && Enabled(w, a) && OpenNow(w.store.entries, e) && OpenNow(Perform(w, a).0.store.entries, e)
    requires forall k :: k in keeps ==> SameAt(w.store, Perform(w, a).0.store, k)
    ensures OpenLater(w, Perform(w, a).0, e, keeps)
  {
    ShowStuck(w);
    DoomedTyped(w, e);
    forall n | SlotKey(e, n) in keeps && Kept(w, e, n) ensures Kept(Perform(w, a).0, e, n) {
      IndexStays(w, a, e, n);
    }
  }

  lemma OffersStay(w: World, a: Action, mine: set<Token>)
    requires Sane(w) && Enabled(w, a) && (TokenOf(a).Some? ==> TokenOf(a).value !in mine)
    ensures OffersKept(w, Perform(w, a).0, mine)
  {
    forall d | OfferToken(d) in mine && d in w.offers
      ensures d in Perform(w, a).0.offers && Perform(w, a).0.offers[d] == w.offers[d]
    {
      OfferIsMine(w, a, d);
    }
  }

  lemma StepIsLater(w: World, a: Action, rely: Rely)
    requires Sane(w) && Enabled(w, a) && EnvironmentStep(w, a, rely)
    ensures Later(w, Perform(w, a).0, rely)
  {
    var w' := Perform(w, a).0;
    StepIsSince(w, a);
    ShowSince(w, w');
    forall g | JoinToken(g) in rely.mine && g in w.joins ensures g in w'.joins && w'.joins[g] == w.joins[g] {
      JoinsKept(w, a, g);
    }
    forall rc | ClaimToken(rc) in rely.mine && rc in w.work ensures rc in w'.work && w'.work[rc] == w.work[rc] {
      ClaimsKept(w, a, rc);
    }
    forall e | OpeningToken(e) in rely.mine && e in w.opening ensures e in w'.opening && w'.opening[e] == w.opening[e] {
      OpeningsKept(w, a, e);
    }
    OffersStay(w, a, rely.mine);
    if rely.quiet.Some? && Closed(w.store.entries, rely.quiet.value) {
      QuietStepKeeps(w, a, rely.quiet.value);
    }
    if rely.open.Some? && OpenNow(w.store.entries, rely.open.value) {
      OpenStep(w, a, rely.open.value, rely.keeps);
    }
  }

  lemma SamePlace(w: World, w': World, g: Id)
    requires JoinsGrow(w.joins, w'.joins) && g in w.joins
    ensures g in w'.joins && w'.joins[g].eventId == w.joins[g].eventId && w'.joins[g].number == w.joins[g].number
    ensures forall entries :: Holds(entries, w'.joins[g], g) <==> Holds(entries, w.joins[g], g)
    ensures forall entries :: Secured(entries, w'.joins[g], g) <==> Secured(entries, w.joins[g], g)
  {
  }

  lemma QuietTransitive(u: World, v: World, w: World, e: Id)
    requires QuietLater(u, v, e) && QuietLater(v, w, e) && JoinsGrow(u.joins, v.joins) && JoinsGrow(v.joins, w.joins)
    requires Closed(u.store.entries, e)
    ensures QuietLater(u, w, e)
  {
    forall g | g in w.joins && w.joins[g].eventId == e && Passed(w.joins[g].phase)
      ensures g in u.joins && Passed(u.joins[g].phase)
    {
      SamePlace(v, w, g);
    }
    forall g | g in u.joins && u.joins[g].eventId == e && Secured(u.store.entries, u.joins[g], g)
      ensures Secured(w.store.entries, u.joins[g], g)
    {
      SamePlace(u, v, g);
    }
  }

  lemma NoneReturnsTransitive(u: World, v: World, w: World)
    requires NoneReturns(u, v) && NoneReturns(v, w) && JoinsGrow(u.joins, v.joins)
    ensures NoneReturns(u, w)
  {
    forall g | g in u.joins && g in w.joins && Holds(w.store.entries, u.joins[g], g)
      ensures Holds(u.store.entries, u.joins[g], g)
    {
      SamePlace(u, v, g);
    }
  }

  lemma TokensTransitive(u: World, v: World, w: World, mine: set<Token>)
    requires TokensKept(u, v, mine) && TokensKept(v, w, mine)
    ensures TokensKept(u, w, mine)
  {
  }

  lemma KeepsTransitive(u: World, v: World, w: World, keeps: set<Key>)
    requires forall k :: k in keeps ==> SameAt(u.store, v.store, k) && SameAt(v.store, w.store, k)
    ensures forall k :: k in keeps ==> SameAt(u.store, w.store, k)
  {
  }

  lemma OpenTransitive(u: World, v: World, w: World, e: Id, keeps: set<Key>)
    requires OpenLater(u, v, e, keeps) && OpenLater(v, w, e, keeps)
    ensures OpenLater(u, w, e, keeps)
  {
  }

  lemma LaterTransitive(u: World, v: World, w: World, rely: Rely)
    requires Later(u, v, rely) && Later(v, w, rely)
    ensures Later(u, w, rely)
  {
    GrowsTransitive(u, v, w);
    NoneReturnsTransitive(u, v, w);
    TokensTransitive(u, v, w, rely.mine);
    KeepsTransitive(u, v, w, rely.keeps);
    if rely.quiet.Some? && Closed(u.store.entries, rely.quiet.value) {
      QuietTransitive(u, v, w, rely.quiet.value);
    }
    if rely.open.Some? {
      OpenTransitive(u, v, w, rely.open.value, rely.keeps);
    }
  }

  lemma {:induction false} SaneExec(w: World, run: seq<Action>)
    requires Sane(w)
    ensures Sane(Exec(w, run))
  {
    if run != [] {
      SaneExec(w, run[..|run| - 1]);
      if Enabled(Exec(w, run[..|run| - 1]), run[|run| - 1]) {
        SanePerform(Exec(w, run[..|run| - 1]), run[|run| - 1]);
      }
    }
  }

  /** Whatever the other processes do, in any number of actions and however
      they interleave, the rely condition holds between any two points. */
  lemma {:induction false} EnvironmentRunIsLater(w: World, run: seq<Action>, rely: Rely)
    requires Sane(w) && EnvironmentRun(w, run, rely)
    ensures Later(w, Exec(w, run), rely)
  {
    if run == [] {
      LaterReflexive(w, rely);
    } else {
      var front, a := run[..|run| - 1], run[|run| - 1];
      assert forall i :: 0 <= i < |front| ==> front[..i] == run[..i];
      EnvironmentRunIsLater(w, front, rely);
      SaneExec(w, front);
      assert EnvironmentStep(Exec(w, run[..|run| - 1]), a, rely);
      if Enabled(Exec(w, front), a) {
        StepIsLater(Exec(w, front), a, rely);
        LaterTransitive(w, Exec(w, front), Exec(w, run), rely);
      }
    }
  }
}
