/** Listing the slots of an event. The in-memory store answers with a snapshot;
    here every slot is read on its own, as a remote store would, and the
    snapshot is the case in which nothing runs in between. */
module Listing {
  import opened KvStore
  import opened Model
  import opened Protocol
  import opened Invariants
  import opened Interference
  import opened ClusterApi

  /** A version of a slot of event `e` that was once stored. */
  predicate SlotRead(w: World, e: Id, x: Versioned<Slot>) {
    && IsSlot(w.store.written, x.revision) && SlotAt(w.store.written, x.revision) == x.value
    && x.value.eventId == e && SlotOk(w.joins, e, x.value.number, x.value)
  }

  lemma SlotStillRead(w: World, w': World, e: Id, x: Versioned<Slot>)
    requires Since(w, w') && SlotRead(w, e, x)
    ensures SlotRead(w', e, x)
  {
    SinceSlot(w, w', x.revision);
    SinceSlotOk(w, w', e, x.value);
  }

  lemma SlotsStillRead(w: World, w': World, e: Id, slots: seq<Versioned<Slot>>)
    requires Since(w, w') && forall x :: x in slots ==> SlotRead(w, e, x)
    ensures forall x :: x in slots ==> SlotRead(w', e, x)
  {
    forall x | x in slots ensures SlotRead(w', e, x) {
      SlotStillRead(w, w', e, x);
    }
  }

  predicate Lists(slots: seq<Versioned<Slot>>, g: Id) {
    exists i :: 0 <= i < |slots| && slots[i].value.generation == g
  }

  /** Every slot holding its place since before the listing is in it. */
  ghost predicate Covers(w: World, w': World, e: Id, todo: set<nat>, slots: seq<Versioned<Slot>>) {
    forall g :: g in w.joins && w.joins[g].eventId == e && Holds(w'.store.entries, w.joins[g], g) ==>
      w.joins[g].number in todo || Lists(slots, g)
  }

  /** No number is listed twice, nor still to be read. */
  predicate ListedOnce(slots: seq<Versioned<Slot>>, todo: set<nat>) {
    && (forall x :: x in slots ==> x.value.number !in todo)
    && (forall i, j :: 0 <= i < j < |slots| ==> slots[i].value.number != slots[j].value.number)
  }

  /** With nothing running in between: each live slot, once. */
  ghost predicate ListsExactly(w: World, e: Id, todo: set<nat>, slots: seq<Versioned<Slot>>) {
    && (forall i :: 0 <= i < |slots| ==>
          && SlotKey(e, slots[i].value.number) in w.store.entries && slots[i].value.number !in todo
          && w.store.entries[SlotKey(e, slots[i].value.number)] == Entry(SlotV(slots[i].value), slots[i].revision))
    && (forall i, j :: 0 <= i < j < |slots| ==> slots[i].value.number != slots[j].value.number)
    && (forall n :: SlotKey(e, n) in w.store.entries ==>
          n in todo || exists i :: 0 <= i < |slots| && slots[i].value.number == n)
  }

  /** A slot seen reserved or claimed is still in a safe place. */
  ghost predicate SecuredAsSeen(w: World, slots: seq<Versioned<Slot>>) {
    forall x :: x in slots && (x.value.reserved || x.value.cleanup.Some?) ==> SafePlace(w.store.entries, x.value)
  }

  lemma CoversLater(w: World, u: World, w': World, e: Id, todo: set<nat>, slots: seq<Versioned<Slot>>)
    requires Since(w, u) && Since(u, w') && Covers(w, u, e, todo, slots)
    ensures Covers(w, w', e, todo, slots)
  {
    ShowSince(w, u);
    ShowSince(u, w');
  }

  lemma CoversStart(w: World, w': World, e: Id)
    requires Since(w, w')
    ensures Covers(w, w', e, SlotNumbers(w'.store.entries, e), [])
  {
    forall g | g in w.joins && w.joins[g].eventId == e && Holds(w'.store.entries, w.joins[g], g)
      ensures w.joins[g].number in SlotNumbers(w'.store.entries, e)
    {
      assert SlotKey(e, w.joins[g].number) in w'.store.entries;
    }
  }

  lemma CoversNext(w: World, w': World, e: Id, todo: set<nat>, slots: seq<Versioned<Slot>>, n: nat,
                   found: Option<Versioned<Slot>>)
    requires Covers(w, w', e, todo, slots)
    requires found.None? <==> !HasSlot(w'.store.entries, e, n)
    requires found.Some? ==> SlotNow(w'.store.entries, e, n) == found.value.value
    ensures Covers(w, w', e, todo - {n}, if found.Some? then slots + [found.value] else slots)
  {
    var slots' := if found.Some? then slots + [found.value] else slots;
    forall g | g in w.joins && w.joins[g].eventId == e && Holds(w'.store.entries, w.joins[g], g)
      ensures w.joins[g].number in todo - {n} || Lists(slots', g)
    {
      if Lists(slots, g) {
        var i :| 0 <= i < |slots| && slots[i].value.generation == g;
        assert slots'[i].value.generation == g;
      } else if w.joins[g].number == n {
        assert slots'[|slots|].value.generation == g;
      }
    }
  }

  lemma SecuredLater(w: World, w': World, e: Id, slots: seq<Versioned<Slot>>)
    requires Quietly(w, w', e) && Closed(w.store.entries, e) && SecuredAsSeen(w, slots)
    requires forall x :: x in slots ==> SlotRead(w, e, x)
    ensures SecuredAsSeen(w', slots)
  {
    forall x | x in slots && (x.value.reserved || x.value.cleanup.Some?) ensures SafePlace(w'.store.entries, x.value) {
      QuietlyKeepsPlace(w, w', e, x.value);
    }
  }

  lemma ExactNext(w: World, e: Id, todo: set<nat>, slots: seq<Versioned<Slot>>, n: nat, found: Option<Versioned<Slot>>)
    requires ListsExactly(w, e, todo, slots) && n in todo
    requires found.None? <==> SlotKey(e, n) !in w.store.entries
    requires found.Some? ==>
               && found.value.value.number == n
               && w.store.entries[SlotKey(e, n)] == Entry(SlotV(found.value.value), found.value.revision)
    ensures ListsExactly(w, e, todo - {n}, if found.Some? then slots + [found.value] else slots)
  {
    var slots' := if found.Some? then slots + [found.value] else slots;
    forall m | SlotKey(e, m) in w.store.entries
      ensures m in todo - {n} || exists i :: 0 <= i < |slots'| && slots'[i].value.number == m
    {
      if m == n {
        assert slots'[|slots|].value.number == m;
      } else if m !in todo {
        var i :| 0 <= i < |slots| && slots[i].value.number == m;
        assert slots'[i].value.number == m;
      }
    }
  }

  method ListSlots(c: Cluster, ghost rely: Rely, e: Id) returns (slots: seq<Versioned<Slot>>)
    requires c.Valid()
    modifies c
    ensures c.Valid() && Since(old(c.w), c.w)
    ensures forall x :: x in slots ==> SlotRead(c.w, e, x)
    ensures Covers(old(c.w), c.w, e, {}, slots) && ListedOnce(slots, {})
    ensures rely.alone ==> c.w == old(c.w) && ListsExactly(c.w, e, {}, slots)
    ensures rely.quiet == Some(e) ==> Quietly(old(c.w), c.w, e)
    ensures rely.quiet == Some(e) && Closed(old(c.w).store.entries, e) ==> SecuredAsSeen(c.w, slots)
  {
    ghost var w0 := c.w;
    var todo := c.SlotKeys(rely, e);
    CoversStart(w0, c.w, e);
    if rely.quiet == Some(e) {
      MeanwhileQuietly(w0, c.w, rely);
    }
    slots := [];
    assert rely.alone ==> ListsExactly(c.w, e, todo, slots) by {
      assert forall n :: SlotKey(e, n) in c.w.store.entries ==> n in SlotNumbers(c.w.store.entries, e);
    }
    while todo != {}
      invariant c.Valid() && Since(w0, c.w)
      invariant forall x :: x in slots ==> SlotRead(c.w, e, x)
      invariant Covers(w0, c.w, e, todo, slots) && ListedOnce(slots, todo)
      invariant rely.alone ==> c.w == w0 && ListsExactly(c.w, e, todo, slots)
      invariant rely.quiet == Some(e) ==> Quietly(w0, c.w, e)
      invariant rely.quiet == Some(e) && Closed(w0.store.entries, e) ==> SecuredAsSeen(c.w, slots)
      decreases todo
    {
      var n :| n in todo;
      ghost var w1 := c.w;
      var found := c.LoadSlot(rely, e, n);
      ListedNext(w0, w1, c.w, rely, e, todo, slots, n, found);
      todo := todo - {n};
      if found.Some? {
        slots := slots + [found.value];
      }
    }
  }

  /** One slot more: what the loop of `ListSlots` keeps. */
  lemma ListedNext(w0: World, w1: World, w: World, rely: Rely, e: Id, todo: set<nat>, slots: seq<Versioned<Slot>>,
                   n: nat, found: Option<Versioned<Slot>>)
    requires Since(w0, w1) && Since(w1, w) && Meanwhile(w1, w, rely) && (rely.alone ==> w == w1 == w0) && n in todo
    requires forall x :: x in slots ==> SlotRead(w1, e, x)
    requires Covers(w0, w1, e, todo, slots)
    requires rely.alone ==> ListsExactly(w1, e, todo, slots)
    requires rely.quiet == Some(e) ==> Quietly(w0, w1, e)
    requires rely.quiet == Some(e) && Closed(w0.store.entries, e) ==> SecuredAsSeen(w1, slots)
    requires found.Some? <==> HasSlot(w.store.entries, e, n)
    requires found.None? <==> SlotKey(e, n) !in w.store.entries
    requires found.Some? ==>
               && SlotRead(w, e, found.value) && found.value.value.number == n
               && w.store.entries[SlotKey(e, n)] == Entry(SlotV(found.value.value), found.value.revision)
    ensures var slots' := if found.Some? then slots + [found.value] else slots;
            && Since(w0, w) && (forall x :: x in slots' ==> SlotRead(w, e, x))
            && Covers(w0, w, e, todo - {n}, slots')
            && (rely.alone ==> ListsExactly(w, e, todo - {n}, slots'))
            && (rely.quiet == Some(e) ==> Quietly(w0, w, e))
            && (rely.quiet == Some(e) && Closed(w0.store.entries, e) ==> SecuredAsSeen(w, slots'))
  {
    SinceChain(w0, w1, w);
    SlotsStillRead(w1, w, e, slots);
    CoversLater(w0, w1, w, e, todo, slots);
    CoversNext(w0, w, e, todo, slots, n, found);
    if rely.alone {
      ExactNext(w, e, todo, slots, n, found);
    }
    if rely.quiet == Some(e) {
      MeanwhileQuietly(w1, w, rely);
      QuietlyChain(w0, w1, w, e);
      if Closed(w0.store.entries, e) {
        QuietlyClosed(w0, w1, e);
        SecuredLater(w1, w, e, slots);
      }
    }
  }
}
