/** Safety of the lease and cleanup protocol, over every run. */
module Guarantees {
  import opened KvStore
  import opened Model
  import opened Protocol
  import opened Invariants
  import opened Preservation
  import opened Fates
  import opened Runs

  // ---------- Erasure ----------

  /** Once an event has a receipt, every subject minted for it, before the
      receipt or after, has been acknowledged by the cleaner. */
  lemma ReceiptMeansErased(w: World, run: seq<Action>, e: Id, x: Guest)
    requires Reachable(w) && HasReceipt(w.store.entries, e)
    requires x in Exec(w, run).minted && x.eventId == e
    ensures x in Exec(w, run).acked
  {
    InvHolds(w);
    RunGrows(w, run);
    var u := Exec(w, run);
    MintTyped(u);
    assert IsIndexed(u.joins, x);
    ReceiptTyped(u, e);
  }

  /** A subject ever minted is still in its slot or has been acknowledged. */
  lemma MintedIsHeldOrErased(w: World, run: seq<Action>, x: Guest)
    requires Reachable(w) && x in w.minted
    ensures var u := Exec(w, run);
            && x.generation in u.joins
            && (x in u.acked ||
                (&& HasSlot(u.store.entries, x.eventId, u.joins[x.generation].number)
                 && SlotNow(u.store.entries, x.eventId, u.joins[x.generation].number).subject == x))
  {
    InvHolds(w);
    RunGrows(w, run);
    var u := Exec(w, run);
    MintTyped(u);
    assert IsIndexed(u.joins, x);
    JoinTyped(u, x.generation);
    var n := u.joins[x.generation].number;
    if Holds(u.store.entries, u.joins[x.generation], x.generation) {
      LiveVersion(u, SlotKey(x.eventId, n));
    }
  }

  /** A new generation is created at a slot number only after every generation
      minted there before was acknowledged. */
  lemma ReuseOnlyAfterPurge(w: World, r: nat, n: nat, now: Time, x: Guest)
    requires Reachable(w) && Enabled(w, CreateSlot(r, n, now)) && PerformCreateSlot(w, r, n, now).1.Ok?
    requires x in w.minted && x.generation in w.joins
    requires x.eventId == EventAt(w.store.written, r).id && w.joins[x.generation].number == n
    ensures x in w.acked
  {
    MintedIsHeldOrErased(w, [], x);
  }

  // ---------- Stale workers ----------

  /** The slot version a worker holds when it acts on a claim, old or not. */
  predicate WorksOn(w: World, a: Action, v: Slot) {
    match a
    case UpdateSlot(r, _) => IsSlot(w.store.written, r) && SlotAt(w.store.written, r) == v
    case DropIndex(rc) => IsSlot(w.store.written, rc) && SlotAt(w.store.written, rc) == v
    case DropSlot(rc) => IsSlot(w.store.written, rc) && SlotAt(w.store.written, rc) == v
    case _ => false
  }

  /** Whatever a worker does with an old version of a slot, the slot entry and
      the session index of every other generation stay exactly as they are. */
  lemma StaleWorkerIsHarmless(w: World, a: Action, v: Slot, g: Id)
    requires Reachable(w) && Enabled(w, a) && WorksOn(w, a, v)
    requires g in w.joins && g != v.generation
    ensures var w' := Perform(w, a).0;
            var j := w.joins[g];
            && (Holds(w.store.entries, j, g) ==> Unchanged(w, w'.store, SlotKey(j.eventId, j.number)))
            && (Unchanged(w, w'.store, SessionKey(j.digest)) || StillAbsent(w, w'.store, SessionKey(j.digest)))
  {
    InvHolds(w);
    StoreFollows(w, a);
    var j := w.joins[g];
    JoinTyped(w, g);
    IndexFate(w, a, j.digest);
    if a.DropIndex? {
      WriteTyped(w, a.claim);
    }
    if Holds(w.store.entries, j, g) {
      LiveVersion(w, SlotKey(j.eventId, j.number));
      SlotFate(w, a, j.eventId, j.number);
    }
  }

  // ---------- Claims are one-way ----------

  /** A slot generation that has left its place, or never was there. */
  predicate Gone(w: World, e: Id, n: nat, g: Id) {
    g < w.drawn && (HasSlot(w.store.entries, e, n) ==> SlotNow(w.store.entries, e, n).generation != g)
  }

  /** The action is a compare-and-swap on slot `n` that succeeds. */
  predicate Hits(w: World, a: Action, e: Id, n: nat) {
    && Enabled(w, a) && a.UpdateSlot? && SlotKey(e, n) in w.store.entries
    && w.store.entries[SlotKey(e, n)].revision == a.revision
  }

  function ClaimsIn(w: World, run: seq<Action>, e: Id, n: nat): nat {
    if run == [] then 0
    else
      var front, a := run[..|run| - 1], run[|run| - 1];
      ClaimsIn(w, front, e, n) + if Hits(Exec(w, front), a, e, n) && a.update.Claim? then 1 else 0
  }

  lemma GoneForGood(w: World, a: Action, e: Id, n: nat, g: Id)
    requires Inv(w) && Enabled(w, a) && Gone(w, e, n, g)
    ensures Gone(Perform(w, a).0, e, n, g)
  {
    StoreFollows(w, a);
    if HasSlot(w.store.entries, e, n) {
      SlotFate(w, a, e, n);
    } else if SlotKey(e, n) in w.store.entries {
      LiveVersion(w, SlotKey(e, n));
    } else {
      SlotBirth(w, a, e, n);
    }
  }

  /** `v'` is the claimed slot `v` after `claims` further claims. */
  predicate SameClaim(v: Slot, v': Slot, claims: nat) {
    && v.cleanup.Some? && v'.cleanup.Some?
    && v' == v.(cleanup := v'.cleanup)
    && v'.cleanup.value.id == v.cleanup.value.id
    && v'.cleanup.value.attempts == v.cleanup.value.attempts + claims
  }

  lemma ClaimStep(w: World, a: Action, e: Id, n: nat)
    requires Inv(w) && Enabled(w, a) && HasSlot(w.store.entries, e, n)
    requires SlotNow(w.store.entries, e, n).cleanup.Some?
    ensures var w' := Perform(w, a).0;
            var v := SlotNow(w.store.entries, e, n);
            || Gone(w', e, n, v.generation)
            || (HasSlot(w'.store.entries, e, n) &&
                SameClaim(v, SlotNow(w'.store.entries, e, n), if Hits(w, a, e, n) && a.update.Claim? then 1 else 0))
  {
    StoreFollows(w, a);
    LiveVersion(w, SlotKey(e, n));
    JoinTyped(w, SlotNow(w.store.entries, e, n).generation);
    SlotFate(w, a, e, n);
  }

  /** Once a slot carries a claim, then as long as that entry lives its intent
      keeps its ID, attempts rise by one per claim, and nothing else in the
      slot changes: it is never renewed, reserved or reused. */
  lemma {:induction false} ClaimIsOneWay(w: World, run: seq<Action>, e: Id, n: nat)
    requires Inv(w) && HasSlot(w.store.entries, e, n) && SlotNow(w.store.entries, e, n).cleanup.Some?
    ensures var u := Exec(w, run);
            var v := SlotNow(w.store.entries, e, n);
            || Gone(u, e, n, v.generation)
            || (HasSlot(u.store.entries, e, n) &&
                SameClaim(v, SlotNow(u.store.entries, e, n), ClaimsIn(w, run, e, n)))
  {
    if run != [] {
      var front, a := run[..|run| - 1], run[|run| - 1];
      ClaimIsOneWay(w, front, e, n);
      InvExec(w, front);
      var u := Exec(w, front);
      if Enabled(u, a) {
        if Gone(u, e, n, SlotNow(w.store.entries, e, n).generation) {
          GoneForGood(u, a, e, n, SlotNow(w.store.entries, e, n).generation);
        } else {
          ClaimStep(u, a, e, n);
        }
      }
    }
  }
}
