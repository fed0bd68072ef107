/** What every action keeps, and hence what holds in every reachable world. */
module Invariants {
  import opened KvStore
  import opened Model
  import opened Protocol

  type Joins = map<Id, Join>
  type Doomed = map<Id, Id>

  predicate Passed(p: Phase) {
    p == Cleared || p == Indexed
  }

  /** The slot entry of generation `g` is live at its place. */
  predicate Holds(entries: Entries, j: Join, g: Id) {
    HasSlot(entries, j.eventId, j.number) && SlotNow(entries, j.eventId, j.number).generation == g
  }

  // ---------- Every version ever written ----------

  predicate EventOk(doomed: Doomed, drawn: Id, e: Id, ev: Event) {
    && ev.id == e < drawn && ev.invitation.secret < drawn && ev.state != Deleted
    && (if ev.state == Deleting then
          && e in doomed && ev.deletionId == Some(doomed[e])
          && ev.cleanup.Some? && ev.cleanup.value.id == doomed[e]
        else ev.deletionId.None? && ev.cleanup.None?)
  }

  predicate SlotOk(joins: Joins, e: Id, n: nat, v: Slot) {
    && v.eventId == e && v.number == n && v.subject == Guest(e, v.generation)
    && v.digest == Digest(v.generation + 1)
    && v.generation in joins && joins[v.generation].eventId == e && joins[v.generation].number == n
  }

  predicate IndexOk(joins: Joins, d: Digest, x: SessionIndex) {
    && d.secret >= 1 && d.secret - 1 in joins
    && joins[d.secret - 1].eventId == x.eventId && joins[d.secret - 1].number == x.slot
    && joins[d.secret - 1].phase == Indexed
  }

  predicate ReceiptOk(doomed: Doomed, e: Id, x: Receipt) {
    x.eventId == e && e in doomed && x.deletionId == doomed[e]
  }

  predicate WriteOk(joins: Joins, doomed: Doomed, drawn: Id, x: Write<Key, Value>) {
    match x.key
    case EventKey(e) => x.value.EventV? && EventOk(doomed, drawn, e, x.value.event)
    case InvitationKey(d) => x.value.InvitationV? && d.secret < drawn
    case SessionKey(d) => x.value.SessionV? && IndexOk(joins, d, x.value.index)
    case SlotKey(e, n) => x.value.SlotV? && SlotOk(joins, e, n, x.value.slot)
    case ReceiptKey(e) => x.value.ReceiptV? && ReceiptOk(doomed, e, x.value.receipt)
  }

  ghost predicate Typed(written: Written, joins: Joins, doomed: Doomed, drawn: Id) {
    forall r :: r in written ==> WriteOk(joins, doomed, drawn, written[r])
  }

  // ---------- Joins ----------

  predicate JoinOk(j: Join, g: Id, written: Written, drawn: Id) {
    && g + 1 < drawn && j.digest == Digest(g + 1)
    && IsSlot(written, j.revision) && written[j.revision].key == SlotKey(j.eventId, j.number)
    && SlotAt(written, j.revision).generation == g
    && !SlotAt(written, j.revision).reserved && SlotAt(written, j.revision).cleanup.None?
    && IsEvent(written, j.source) && EventAt(written, j.source).id == j.eventId
    && 1 <= j.number <= EventAt(written, j.source).capacity
  }

  ghost predicate JoinsBorn(joins: Joins, written: Written, drawn: Id) {
    forall g :: g in joins ==> JoinOk(joins[g], g, written, drawn)
  }

  /** A join that was not refused is still in its slot or acknowledged; one not
      yet rechecked may also have been purged by a finished deletion. */
  predicate Safe(j: Join, g: Id, entries: Entries, acked: set<Guest>) {
    || j.phase == Refused
    || Guest(j.eventId, g) in acked
    || Holds(entries, j, g)
    || (j.phase == Created && HasReceipt(entries, j.eventId))
  }

  ghost predicate JoinsSafe(joins: Joins, entries: Entries, acked: set<Guest>) {
    forall g :: g in joins ==> Safe(joins[g], g, entries, acked)
  }

  // ---------- Deleted events ----------

  predicate Deletes(entries: Entries, e: Id) {
    HasEvent(entries, e) ==> EventNow(entries, e).state == Deleting
  }

  ghost predicate DoomOk(doomed: Doomed, entries: Entries, drawn: Id) {
    forall e :: e in doomed ==> e < drawn && Deletes(entries, e)
  }

  /** Every guest of the event that passed the recheck is acknowledged. */
  ghost predicate Erased(joins: Joins, acked: set<Guest>, e: Id) {
    forall g :: g in joins && joins[g].eventId == e && Passed(joins[g].phase) ==> Guest(e, g) in acked
  }

  ghost predicate ReceiptsOk(entries: Entries, joins: Joins, acked: set<Guest>) {
    forall e :: ReceiptKey(e) in entries ==> Erased(joins, acked, e)
  }

  // ---------- Cleanup claims ----------

  /** Every guest of the event that passed the recheck is acknowledged, found,
      or in a slot still to be read. */
  ghost predicate Found(joins: Joins, entries: Entries, acked: set<Guest>, e: Id, found: set<Guest>, todo: set<nat>) {
    forall g :: g in joins && joins[g].eventId == e && Passed(joins[g].phase) ==>
      || Guest(e, g) in acked
      || Guest(e, g) in found
      || (Holds(entries, joins[g], g) && joins[g].number in todo)
  }

  ghost predicate EventWorkOk(k: Work, e: Id, joins: Joins, entries: Entries, acked: set<Guest>) {
    match k
    case Claimed => true
    case Listing(todo, found) => Found(joins, entries, acked, e, found, todo)
    case Calling(subjects) => Found(joins, entries, acked, e, subjects, {})
    case Complete(subjects) => Erased(joins, acked, e)
    case Incomplete(_) => true
  }

  predicate SlotWorkOk(k: Work, v: Slot, acked: set<Guest>) {
    v.cleanup.Some? &&
    match k
    case Claimed => true
    case Listing(todo, found) => false
    case Calling(subjects) => subjects == {v.subject}
    case Complete(subjects) => v.subject in acked
    case Incomplete(_) => true
  }

  ghost predicate WorkItemOk(k: Work, x: Write<Key, Value>, joins: Joins, entries: Entries, acked: set<Guest>) {
    match x.value
    case EventV(ev) => ev.state == Deleting && EventWorkOk(k, ev.id, joins, entries, acked)
    case SlotV(v) => SlotWorkOk(k, v, acked)
    case _ => false
  }

  ghost predicate WorkOk(work: map<nat, Work>, written: Written, joins: Joins, entries: Entries, acked: set<Guest>) {
    forall rc :: rc in work ==> rc in written && WorkItemOk(work[rc], written[rc], joins, entries, acked)
  }

  // ---------- Mints ----------

  predicate IsIndexed(joins: Joins, x: Guest) {
    x.generation in joins && joins[x.generation].eventId == x.eventId && joins[x.generation].phase == Indexed
  }

  ghost predicate MintsOk(minted: set<Guest>, joins: Joins) {
    forall x :: x in minted ==> IsIndexed(joins, x)
  }

  ghost predicate RenewalsOk(renewals: set<nat>, written: Written, joins: Joins) {
    forall r :: r in renewals ==> IsSlot(written, r) && IsIndexed(joins, SlotAt(written, r).subject)
  }

  /** Every invitation some process still holds was drawn before. */
  ghost predicate HeldDrawn(opening: map<Id, Digest>, offers: map<Digest, Offer>, drawn: Id) {
    && (forall e :: e in opening ==> e < drawn && opening[e].secret < drawn)
    && (forall d: Digest :: d in offers ==> d.secret < drawn)
  }

  ghost predicate Parts(w: World) {
    && Consistent(w.store)
    && Typed(w.store.written, w.joins, w.doomed, w.drawn)
    && JoinsBorn(w.joins, w.store.written, w.drawn)
    && JoinsSafe(w.joins, w.store.entries, w.acked)
    && DoomOk(w.doomed, w.store.entries, w.drawn)
    && ReceiptsOk(w.store.entries, w.joins, w.acked)
    && WorkOk(w.work, w.store.written, w.joins, w.store.entries, w.acked)
    && MintsOk(w.minted, w.joins)
    && RenewalsOk(w.renewals, w.store.written, w.joins)
    && HeldDrawn(w.opening, w.offers, w.drawn)
  }

  /** The invariant is `Parts(w)`, stated behind a quantifier so that a proof
      sees the parts only after asking for them with `Show`. */
  ghost predicate Inv(w: World) {
    forall b: bool :: Shown(w, b) ==> Parts(w)
  }

  predicate Shown(w: World, b: bool) {
    true
  }

  lemma Show(w: World)
    requires Inv(w)
    ensures Parts(w)
  {
    assert Shown(w, true);
  }

  lemma Hide(w: World)
    requires Parts(w)
    ensures Inv(w)
  {
  }

  lemma InvInit(cfg: Config, start: Time)
    ensures Inv(Init(cfg, start))
  {
    Hide(Init(cfg, start));
  }

  // ---------- How the parts of the invariant survive a change ----------

  ghost predicate Extends(written: Written, written': Written) {
    forall r :: r in written ==> r in written' && written'[r] == written[r]
  }

  /** Joins keep their place and identity, and an indexed one stays indexed. */
  predicate SameJoin(j: Join, j': Join) {
    j' == j.(phase := j'.phase) && (j.phase == Indexed ==> j'.phase == Indexed)
  }

  ghost predicate JoinsGrow(joins: Joins, joins': Joins) {
    forall g :: g in joins ==> g in joins' && SameJoin(joins[g], joins'[g])
  }

  ghost predicate DoomGrows(doomed: Doomed, doomed': Doomed) {
    forall e :: e in doomed ==> e in doomed' && doomed'[e] == doomed[e]
  }

  lemma TypedPut(written: Written, joins: Joins, doomed: Doomed, drawn: Id, r: nat, x: Write<Key, Value>)
    requires Typed(written, joins, doomed, drawn) && WriteOk(joins, doomed, drawn, x)
    ensures Typed(written[r := x], joins, doomed, drawn)
  {
  }

  lemma TypedGrows(written: Written, joins: Joins, doomed: Doomed, drawn: Id, joins': Joins, doomed': Doomed,
                   drawn': Id)
    requires Typed(written, joins, doomed, drawn)
    requires JoinsGrow(joins, joins') && DoomGrows(doomed, doomed') && drawn <= drawn'
    ensures Typed(written, joins', doomed', drawn')
  {
    forall r | r in written ensures WriteOk(joins', doomed', drawn', written[r]) {
      assert WriteOk(joins, doomed, drawn, written[r]);
    }
  }

  lemma BornGrows(joins: Joins, written: Written, drawn: Id, written': Written, drawn': Id)
    requires JoinsBorn(joins, written, drawn) && Extends(written, written') && drawn <= drawn'
    ensures JoinsBorn(joins, written', drawn')
  {
  }

  lemma BornPhase(joins: Joins, written: Written, drawn: Id, g: Id, phase: Phase)
    requires JoinsBorn(joins, written, drawn) && g in joins
    ensures JoinsBorn(joins[g := joins[g].(phase := phase)], written, drawn)
  {
  }

  lemma PhaseGrows(joins: Joins, g: Id, phase: Phase)
    requires g in joins && (joins[g].phase == Indexed ==> phase == Indexed)
    ensures JoinsGrow(joins, joins[g := joins[g].(phase := phase)])
  {
  }

  /** No join loses its slot unless it is acknowledged, refused or purged. */
  predicate StaysAt(j: Join, g: Id, entries: Entries, entries': Entries, acked: set<Guest>) {
    j.phase != Refused && Holds(entries, j, g) ==>
      || Holds(entries', j, g)
      || Guest(j.eventId, g) in acked
      || (j.phase == Created && HasReceipt(entries', j.eventId))
  }

  ghost predicate Stays(joins: Joins, entries: Entries, entries': Entries, acked: set<Guest>) {
    && (forall g :: g in joins ==> StaysAt(joins[g], g, entries, entries', acked))
    && (forall e :: HasReceipt(entries, e) ==> HasReceipt(entries', e))
  }

  lemma StaysPut(joins: Joins, entries: Entries, acked: set<Guest>, k: Key, v: Entry<Value>)
    requires k in entries && k.SlotKey? ==>
               entries[k].value.SlotV? && v.value.SlotV? && v.value.slot.generation == entries[k].value.slot.generation
    ensures Stays(joins, entries, entries[k := v], acked)
  {
  }

  lemma StaysRemove(joins: Joins, entries: Entries, acked: set<Guest>, k: Key)
    requires !k.ReceiptKey?
    requires k in entries && k.SlotKey? && entries[k].value.SlotV? ==>
               var g := entries[k].value.slot.generation;
               g in joins ==>
                 (joins[g].phase == Refused || Guest(joins[g].eventId, g) in acked ||
                  (joins[g].phase == Created && HasReceipt(entries, joins[g].eventId)))
    ensures Stays(joins, entries, entries - {k}, acked)
  {
  }

  lemma SafeKept(joins: Joins, entries: Entries, entries': Entries, acked: set<Guest>)
    requires JoinsSafe(joins, entries, acked) && Stays(joins, entries, entries', acked)
    ensures JoinsSafe(joins, entries', acked)
  {
    forall g | g in joins ensures Safe(joins[g], g, entries', acked) {
      assert Safe(joins[g], g, entries, acked) && StaysAt(joins[g], g, entries, entries', acked);
    }
  }

  /** Joins may pass the recheck only for events that are not deleted. */
  ghost predicate PassesLate(joins: Joins, joins': Joins, doomed: Doomed) {
    forall g :: g in joins' && Passed(joins'[g].phase) ==>
      || (g in joins && joins[g] == joins'[g].(phase := joins[g].phase) && Passed(joins[g].phase))
      || joins'[g].eventId !in doomed
  }

  lemma ErasedKept(joins: Joins, joins': Joins, acked: set<Guest>, acked': set<Guest>, doomed: Doomed, e: Id)
    requires Erased(joins, acked, e) && PassesLate(joins, joins', doomed) && acked <= acked' && e in doomed
    ensures Erased(joins', acked', e)
  {
  }

  lemma FoundKept(joins: Joins, joins': Joins, entries: Entries, entries': Entries, acked: set<Guest>,
                  acked': set<Guest>, doomed: Doomed, e: Id, found: set<Guest>, todo: set<nat>)
    requires Found(joins, entries, acked, e, found, todo)
    requires PassesLate(joins, joins', doomed) && acked <= acked' && e in doomed
    requires Stays(joins, entries, entries', acked')
    ensures Found(joins', entries', acked', e, found, todo)
  {
    forall g | g in joins' && joins'[g].eventId == e && Passed(joins'[g].phase)
      ensures || Guest(e, g) in acked'
              || Guest(e, g) in found
              || (Holds(entries', joins'[g], g) && joins'[g].number in todo)
    {
      assert g in joins && Passed(joins[g].phase) && joins[g].eventId == e;
      assert StaysAt(joins[g], g, entries, entries', acked');
      assert Holds(entries', joins[g], g) ==> Holds(entries', joins'[g], g);
    }
  }

  lemma WorkKept(work: map<nat, Work>, written: Written, joins: Joins, entries: Entries, acked: set<Guest>,
                 doomed: Doomed, drawn: Id, written': Written, joins': Joins, entries': Entries, acked': set<Guest>)
    requires WorkOk(work, written, joins, entries, acked) && Typed(written, joins, doomed, drawn)
    requires Extends(written, written') && PassesLate(joins, joins', doomed) && acked <= acked'
    requires Stays(joins, entries, entries', acked')
    ensures WorkOk(work, written', joins', entries', acked')
  {
    forall rc | rc in work ensures rc in written' && WorkItemOk(work[rc], written'[rc], joins', entries', acked') {
      assert WorkItemOk(work[rc], written[rc], joins, entries, acked);
      assert WriteOk(joins, doomed, drawn, written[rc]);
      if written[rc].value.EventV? {
        var e := written[rc].value.event.id;
        match work[rc] {
          case Listing(todo, found) =>
            FoundKept(joins, joins', entries, entries', acked, acked', doomed, e, found, todo);
          case Calling(subjects) => FoundKept(joins, joins', entries, entries', acked, acked', doomed, e, subjects, {});
          case Complete(_) => ErasedKept(joins, joins', acked, acked', doomed, e);
          case _ =>
        }
      }
    }
  }

  lemma ReceiptsKept(entries: Entries, entries': Entries, joins: Joins, joins': Joins,
                     acked: set<Guest>, acked': set<Guest>, doomed: Doomed)
    requires ReceiptsOk(entries, joins, acked) && PassesLate(joins, joins', doomed) && acked <= acked'
    requires forall e :: ReceiptKey(e) in entries ==> e in doomed
    requires forall e :: ReceiptKey(e) in entries' ==> ReceiptKey(e) in entries || Erased(joins', acked', e)
    ensures ReceiptsOk(entries', joins', acked')
  {
    forall e | ReceiptKey(e) in entries' ensures Erased(joins', acked', e) {
      if ReceiptKey(e) in entries {
        ErasedKept(joins, joins', acked, acked', doomed, e);
      }
    }
  }

  lemma ReceiptsAreDoomed(s: Store<Key, Value>, joins: Joins, doomed: Doomed, drawn: Id)
    requires Consistent(s) && Typed(s.written, joins, doomed, drawn)
    ensures forall e :: ReceiptKey(e) in s.entries ==> e in doomed
  {
    forall e | ReceiptKey(e) in s.entries ensures e in doomed {
      assert WriteOk(joins, doomed, drawn, s.written[s.entries[ReceiptKey(e)].revision]);
    }
  }

  lemma PutConsistent<K(!new), V>(s: Store<K, V>, k: K, v: V)
    requires Consistent(s)
    ensures Consistent(Put(s, k, v).0) && Put(s, k, v).0.revision !in s.written
  {
  }

  lemma PutDoom(entries: Entries, doomed: Doomed, drawn: Id, k: Key, v: Entry<Value>, doomed': Doomed, drawn': Id)
    requires DoomOk(doomed, entries, drawn) && drawn <= drawn'
    requires forall e :: e in doomed' && e !in doomed ==> k == EventKey(e) && e < drawn'
    requires k.EventKey? && v.value.EventV? && k.eventId in doomed' ==> v.value.event.state == Deleting
    ensures DoomOk(doomed', entries[k := v], drawn')
  {
  }

  lemma IndexedStay(minted: set<Guest>, renewals: set<nat>, written: Written, joins: Joins, joins': Joins,
                    written': Written)
    requires MintsOk(minted, joins) && RenewalsOk(renewals, written, joins)
    requires JoinsGrow(joins, joins') && Extends(written, written')
    ensures MintsOk(minted, joins') && RenewalsOk(renewals, written', joins')
  {
  }

  // ---------- What the invariant says of one version ----------

  /** The entry live at a key is the version its revision names. */
  lemma LiveVersion(w: World, k: Key)
    requires Inv(w) && k in w.store.entries
    ensures var r := w.store.entries[k].revision;
            && r in w.store.written && w.store.written[r] == Write(k, w.store.entries[k].value)
            && WriteOk(w.joins, w.doomed, w.drawn, w.store.written[r])
  {
    Show(w);
  }

  lemma WriteTyped(w: World, r: nat)
    requires Inv(w) && r in w.store.written
    ensures WriteOk(w.joins, w.doomed, w.drawn, w.store.written[r])
    ensures 1 <= r <= w.store.revision
  {
    Show(w);
  }

  lemma WorkTyped(w: World, rc: nat)
    requires Inv(w) && rc in w.work
    ensures rc in w.store.written && WorkItemOk(w.work[rc], w.store.written[rc], w.joins, w.store.entries, w.acked)
  {
    Show(w);
  }

  lemma NextRevisionUnclaimed(w: World)
    requires Inv(w)
    ensures w.store.revision + 1 !in w.work
  {
    Show(w);
    assert w.store.revision + 1 in w.work ==> w.store.revision + 1 in w.store.written;
  }

  lemma JoinTyped(w: World, g: Id)
    requires Inv(w) && g in w.joins
    ensures JoinOk(w.joins[g], g, w.store.written, w.drawn) && Safe(w.joins[g], g, w.store.entries, w.acked)
  {
    Show(w);
  }

  lemma DoomedTyped(w: World, e: Id)
    requires Inv(w)
    ensures e in w.doomed ==> e < w.drawn && Deletes(w.store.entries, e)
  {
    Show(w);
  }

  lemma ReceiptTyped(w: World, e: Id)
    requires Inv(w) && HasReceipt(w.store.entries, e)
    ensures e in w.doomed && Erased(w.joins, w.acked, e)
  {
    Show(w);
    LiveVersion(w, ReceiptKey(e));
  }

  lemma MintTyped(w: World)
    requires Inv(w)
    ensures MintsOk(w.minted, w.joins) && RenewalsOk(w.renewals, w.store.written, w.joins)
    ensures HeldDrawn(w.opening, w.offers, w.drawn)
  {
    Show(w);
  }

  // ---------- One change at a time ----------

  /** What a write may do to the entry it replaces. */
  ghost predicate PutAllowed(w: World, k: Key, v: Value, doomed': Doomed) {
    match k
    case SlotKey(e, n) =>
      k in w.store.entries && w.store.entries[k].value.SlotV? && v.SlotV? &&
      v.slot.generation == w.store.entries[k].value.slot.generation
    case EventKey(e) => v.EventV? && (e in doomed' ==> v.event.state == Deleting)
    case ReceiptKey(e) => Erased(w.joins, w.acked, e)
    case _ => true
  }

  /** The parts that speak of versions, after a write. */
  lemma PutVersions(s: Store<Key, Value>, joins: Joins, doomed: Doomed, drawn: Id, k: Key, v: Value, doomed': Doomed,
                    drawn': Id)
    requires Consistent(s) && Typed(s.written, joins, doomed, drawn) && JoinsBorn(joins, s.written, drawn)
    requires DoomGrows(doomed, doomed') && drawn <= drawn'
    requires WriteOk(joins, doomed', drawn', Write(k, v))
    ensures var s' := Put(s, k, v).0;
            && Consistent(s') && Typed(s'.written, joins, doomed', drawn') && JoinsBorn(joins, s'.written, drawn')
            && Extends(s.written, s'.written)
  {
    var s' := Put(s, k, v).0;
    PutConsistent(s, k, v);
    TypedGrows(s.written, joins, doomed, drawn, joins, doomed', drawn');
    TypedPut(s.written, joins, doomed', drawn', s'.revision, Write(k, v));
    BornGrows(joins, s.written, drawn, s'.written, drawn');
  }

  lemma PutKeeps(w: World, k: Key, v: Value, doomed': Doomed, drawn': Id)
    requires Inv(w)
    requires DoomGrows(w.doomed, doomed') && w.drawn <= drawn'
    requires forall e :: e in doomed' && e !in w.doomed ==> k == EventKey(e) && e < drawn'
    requires WriteOk(w.joins, doomed', drawn', Write(k, v)) && PutAllowed(w, k, v, doomed')
    ensures Inv(w.(store := Put(w.store, k, v).0, doomed := doomed', drawn := drawn'))
  {
    Show(w);
    var s' := Put(w.store, k, v).0;
    var w' := w.(store := s', doomed := doomed', drawn := drawn');
    PutVersions(w.store, w.joins, w.doomed, w.drawn, k, v, doomed', drawn');
    StaysPut(w.joins, w.store.entries, w.acked, k, Entry(v, s'.revision));
    ReceiptsAreDoomed(w.store, w.joins, w.doomed, w.drawn);
    ReceiptsKept(w.store.entries, s'.entries, w.joins, w.joins, w.acked, w.acked, w.doomed);
    PutDoom(w.store.entries, w.doomed, w.drawn, k, Entry(v, s'.revision), doomed', drawn');
    SameJoinsKeep(w, w');
  }

  /** With joins unchanged, the rest follows from what happens to slots. */
  lemma SameJoinsKeep(w: World, w': World)
    requires Parts(w)
    requires w' == w.(store := w'.store, doomed := w'.doomed, drawn := w'.drawn) && w.drawn <= w'.drawn
    requires Consistent(w'.store) && Typed(w'.store.written, w.joins, w'.doomed, w'.drawn)
    requires JoinsBorn(w.joins, w'.store.written, w'.drawn) && Extends(w.store.written, w'.store.written)
    requires DoomOk(w'.doomed, w'.store.entries, w'.drawn) && ReceiptsOk(w'.store.entries, w.joins, w.acked)
    requires Stays(w.joins, w.store.entries, w'.store.entries, w.acked)
    ensures Inv(w')
  {
    SafeKept(w.joins, w.store.entries, w'.store.entries, w.acked);
    WorkKept(w.work, w.store.written, w.joins, w.store.entries, w.acked, w.doomed, w.drawn,
             w'.store.written, w.joins, w'.store.entries, w.acked);
    IndexedStay(w.minted, w.renewals, w.store.written, w.joins, w.joins, w'.store.written);
    Hide(w');
  }

  /** What may be removed: never a receipt, and a slot only once its join is
      refused, acknowledged, or overtaken by a finished deletion. */
  ghost predicate RemoveAllowed(w: World, k: Key) {
    && !k.ReceiptKey?
    && (k.SlotKey? && k in w.store.entries && w.store.entries[k].value.SlotV? ==>
          var g := w.store.entries[k].value.slot.generation;
          g in w.joins ==>
            (w.joins[g].phase == Refused || Guest(w.joins[g].eventId, g) in w.acked ||
             (w.joins[g].phase == Created && HasReceipt(w.store.entries, w.joins[g].eventId))))
  }

  lemma RemoveKeeps(w: World, k: Key)
    requires Inv(w) && RemoveAllowed(w, k)
    ensures Inv(w.(store := Remove(w.store, k).0))
  {
    Show(w);
    var s' := Remove(w.store, k).0;
    StaysRemove(w.joins, w.store.entries, w.acked, k);
    ReceiptsAreDoomed(w.store, w.joins, w.doomed, w.drawn);
    ReceiptsKept(w.store.entries, s'.entries, w.joins, w.joins, w.acked, w.acked, w.doomed);
    SameJoinsKeep(w, w.(store := s'));
  }

  lemma HeldKeeps(w: World, opening': map<Id, Digest>, offers': map<Digest, Offer>)
    requires Inv(w) && HeldDrawn(opening', offers', w.drawn)
    ensures Inv(w.(opening := opening', offers := offers'))
  {
    Show(w);
    Hide(w.(opening := opening', offers := offers'));
  }

  /** The fields the invariant does not speak of. */
  lemma OthersKeep(w: World, clock': Time, dropped': map<Digest, nat>)
    requires Inv(w)
    ensures Inv(w.(clock := clock', dropped := dropped'))
  {
    Show(w);
    Hide(w.(clock := clock', dropped := dropped'));
  }

  lemma WorkKeeps(w: World, rc: nat, k: Work)
    requires Inv(w) && rc in w.store.written
    requires WorkItemOk(k, w.store.written[rc], w.joins, w.store.entries, w.acked)
    ensures Inv(w.(work := w.work[rc := k]))
  {
    Show(w);
    assert WorkOk(w.work[rc := k], w.store.written, w.joins, w.store.entries, w.acked);
    Hide(w.(work := w.work[rc := k]));
  }

  lemma RenewalKeeps(w: World, r: nat)
    requires Inv(w) && IsSlot(w.store.written, r) && IsIndexed(w.joins, SlotAt(w.store.written, r).subject)
    ensures Inv(w.(renewals := w.renewals + {r}))
  {
    Show(w);
    Hide(w.(renewals := w.renewals + {r}));
  }

  lemma MintKeeps(w: World, x: Guest)
    requires Inv(w) && IsIndexed(w.joins, x)
    ensures Inv(w.(minted := w.minted + {x}))
  {
    Show(w);
    Hide(w.(minted := w.minted + {x}));
  }

  lemma AckKeeps(w: World, acked': set<Guest>)
    requires Inv(w) && w.acked <= acked'
    ensures Inv(w.(acked := acked'))
  {
    Show(w);
    assert Stays(w.joins, w.store.entries, w.store.entries, acked');
    WorkKept(w.work, w.store.written, w.joins, w.store.entries, w.acked, w.doomed, w.drawn,
             w.store.written, w.joins, w.store.entries, acked');
    ReceiptsAreDoomed(w.store, w.joins, w.doomed, w.drawn);
    ReceiptsKept(w.store.entries, w.store.entries, w.joins, w.joins, w.acked, acked', w.doomed);
    Hide(w.(acked := acked'));
  }

  /** A join moves on: never out of `Indexed`, and past the recheck only while
      its event is not being deleted. */
  lemma PhaseKeeps(w: World, g: Id, phase: Phase)
    requires Inv(w) && g in w.joins
    requires w.joins[g].phase == Indexed ==> phase == Indexed
    requires phase == Refused || Passed(w.joins[g].phase) ||
             (w.joins[g].phase == Created && w.joins[g].eventId !in w.doomed)
    requires phase != Created
    ensures Inv(InPhase(w, g, phase))
  {
    Show(w);
    var joins' := w.joins[g := w.joins[g].(phase := phase)];
    PhaseGrows(w.joins, g, phase);
    TypedGrows(w.store.written, w.joins, w.doomed, w.drawn, joins', w.doomed, w.drawn);
    BornPhase(w.joins, w.store.written, w.drawn, g, phase);
    ReceiptsAreDoomed(w.store, w.joins, w.doomed, w.drawn);
    PhaseSafe(w.joins, w.store.entries, w.acked, g, phase);
    PhaseLate(w.joins, w.doomed, g, phase);
    WorkKept(w.work, w.store.written, w.joins, w.store.entries, w.acked, w.doomed, w.drawn,
             w.store.written, joins', w.store.entries, w.acked);
    ReceiptsKept(w.store.entries, w.store.entries, w.joins, joins', w.acked, w.acked, w.doomed);
    IndexedStay(w.minted, w.renewals, w.store.written, w.joins, joins', w.store.written);
    Hide(InPhase(w, g, phase));
  }

  lemma PhaseSafe(joins: Joins, entries: Entries, acked: set<Guest>, g: Id, phase: Phase)
    requires JoinsSafe(joins, entries, acked) && g in joins && phase != Created
    requires phase == Refused || Passed(joins[g].phase) ||
             (joins[g].phase == Created && !HasReceipt(entries, joins[g].eventId))
    ensures JoinsSafe(joins[g := joins[g].(phase := phase)], entries, acked)
    ensures Stays(joins, entries, entries, acked)
  {
    assert Safe(joins[g], g, entries, acked);
  }

  lemma PhaseLate(joins: Joins, doomed: Doomed, g: Id, phase: Phase)
    requires g in joins
    requires Passed(phase) ==> Passed(joins[g].phase) || joins[g].eventId !in doomed
    ensures PassesLate(joins, joins[g := joins[g].(phase := phase)], doomed)
  {
  }

  // ---------- A slot created by a join ----------

  /** The record of a join that has just created the slot `v`. */
  function JoinOf(v: Slot, revision: nat, source: nat): Join {
    Join(v.eventId, v.number, v.digest, revision, source, Created)
  }

  predicate FreshSlot(s: Store<Key, Value>, drawn: Id, v: Slot, r: nat) {
    && SlotKey(v.eventId, v.number) !in s.entries
    && v.generation == drawn && v.digest == Digest(drawn + 1) && v.subject == Guest(v.eventId, drawn)
    && !v.reserved && v.cleanup.None?
    && IsEvent(s.written, r) && EventAt(s.written, r).id == v.eventId
    && 1 <= v.number <= EventAt(s.written, r).capacity
  }

  lemma NewJoinTyped(s: Store<Key, Value>, joins: Joins, doomed: Doomed, drawn: Id, v: Slot, r: nat)
    requires Consistent(s) && Typed(s.written, joins, doomed, drawn) && JoinsBorn(joins, s.written, drawn)
    requires FreshSlot(s, drawn, v, r) && drawn !in joins
    ensures var s' := Put(s, SlotKey(v.eventId, v.number), SlotV(v)).0;
            var joins' := joins[drawn := JoinOf(v, s'.revision, r)];
            Typed(s'.written, joins', doomed, drawn + 2) && JoinsBorn(joins', s'.written, drawn + 2)
  {
    var k := SlotKey(v.eventId, v.number);
    var s' := Put(s, k, SlotV(v)).0;
    var joins' := joins[drawn := JoinOf(v, s'.revision, r)];
    PutConsistent(s, k, SlotV(v));
    TypedGrows(s.written, joins, doomed, drawn, joins', doomed, drawn + 2);
    TypedPut(s.written, joins', doomed, drawn + 2, s'.revision, Write(k, SlotV(v)));
    BornGrows(joins, s.written, drawn, s'.written, drawn + 2);
  }

  lemma NextDrawIsNew(joins: Joins, written: Written, drawn: Id)
    requires JoinsBorn(joins, written, drawn)
    ensures drawn !in joins
  {
    assert drawn in joins ==> JoinOk(joins[drawn], drawn, written, drawn);
  }

  lemma NewJoinSafe(s: Store<Key, Value>, joins: Joins, acked: set<Guest>, drawn: Id, v: Slot, r: nat)
    requires JoinsSafe(joins, s.entries, acked) && FreshSlot(s, drawn, v, r)
    ensures var s' := Put(s, SlotKey(v.eventId, v.number), SlotV(v)).0;
            && JoinsSafe(joins[drawn := JoinOf(v, s'.revision, r)], s'.entries, acked)
            && Stays(joins, s.entries, s'.entries, acked)
  {
    var k := SlotKey(v.eventId, v.number);
    var s' := Put(s, k, SlotV(v)).0;
    StaysPut(joins, s.entries, acked, k, Entry(SlotV(v), s'.revision));
    SafeKept(joins, s.entries, s'.entries, acked);
    assert Holds(s'.entries, JoinOf(v, s'.revision, r), drawn);
  }

  lemma NewJoinGrows(joins: Joins, doomed: Doomed, g: Id, j: Join)
    requires g !in joins && j.phase == Created
    ensures JoinsGrow(joins, joins[g := j]) && PassesLate(joins, joins[g := j], doomed)
  {
  }

  /** The parts that do not speak of the new join. */
  lemma NewJoinRest(w: World, s': Store<Key, Value>, joins': Joins)
    requires Parts(w) && JoinsGrow(w.joins, joins') && PassesLate(w.joins, joins', w.doomed)
    requires Extends(w.store.written, s'.written)
    requires Stays(w.joins, w.store.entries, s'.entries, w.acked)
    requires forall e :: ReceiptKey(e) in s'.entries ==> ReceiptKey(e) in w.store.entries
    ensures WorkOk(w.work, s'.written, joins', s'.entries, w.acked) && ReceiptsOk(s'.entries, joins', w.acked)
    ensures MintsOk(w.minted, joins') && RenewalsOk(w.renewals, s'.written, joins')
  {
    WorkKept(w.work, w.store.written, w.joins, w.store.entries, w.acked, w.doomed, w.drawn,
             s'.written, joins', s'.entries, w.acked);
    ReceiptsAreDoomed(w.store, w.joins, w.doomed, w.drawn);
    ReceiptsKept(w.store.entries, s'.entries, w.joins, joins', w.acked, w.acked, w.doomed);
    IndexedStay(w.minted, w.renewals, w.store.written, w.joins, joins', s'.written);
  }

  lemma NewJoinVersions(w: World, v: Slot, r: nat)
    requires Parts(w) && FreshSlot(w.store, w.drawn, v, r)
    ensures var s' := Put(w.store, SlotKey(v.eventId, v.number), SlotV(v)).0;
            var joins' := w.joins[w.drawn := JoinOf(v, s'.revision, r)];
            && w.drawn !in w.joins && Consistent(s') && Extends(w.store.written, s'.written)
            && Typed(s'.written, joins', w.doomed, w.drawn + 2) && JoinsBorn(joins', s'.written, w.drawn + 2)
            && DoomOk(w.doomed, s'.entries, w.drawn + 2) && HeldDrawn(w.opening, w.offers, w.drawn + 2)
  {
    var k := SlotKey(v.eventId, v.number);
    NextDrawIsNew(w.joins, w.store.written, w.drawn);
    NewJoinTyped(w.store, w.joins, w.doomed, w.drawn, v, r);
    PutConsistent(w.store, k, SlotV(v));
    PutDoom(w.store.entries, w.doomed, w.drawn, k, Entry(SlotV(v), w.store.revision + 1), w.doomed, w.drawn + 2);
    HeldStill(w.opening, w.offers, w.drawn);
  }

  lemma NewJoinKeeps(w: World, v: Slot, r: nat)
    requires Inv(w) && FreshSlot(w.store, w.drawn, v, r)
    ensures var s' := Put(w.store, SlotKey(v.eventId, v.number), SlotV(v)).0;
            Inv(w.(store := s', drawn := w.drawn + 2, joins := w.joins[w.drawn := JoinOf(v, s'.revision, r)]))
  {
    Show(w);
    var s' := Put(w.store, SlotKey(v.eventId, v.number), SlotV(v)).0;
    var joins' := w.joins[w.drawn := JoinOf(v, s'.revision, r)];
    NewJoinVersions(w, v, r);
    NewJoinSafe(w.store, w.joins, w.acked, w.drawn, v, r);
    NewJoinGrows(w.joins, w.doomed, w.drawn, JoinOf(v, s'.revision, r));
    NewJoinRest(w, s', joins');
    Hide(w.(store := s', drawn := w.drawn + 2, joins := joins'));
  }

  lemma HeldStill(opening: map<Id, Digest>, offers: map<Digest, Offer>, drawn: Id)
    requires HeldDrawn(opening, offers, drawn)
    ensures HeldDrawn(opening, offers, drawn + 2)
  {
  }
}
