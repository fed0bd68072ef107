/** The recovery loop (internal/recovery/controller.go:31-68): pass after pass,
    time passing in between, and how soon it reaches each intent. */
module Controller {
  import opened KvStore
  import opened Model
  import opened Protocol
  import opened Interference
  import opened ClusterApi
  import opened Cleanup
  import opened Scheduler
  import opened Recovery
  import opened Counting

  /** The intents a pass at time `now` finds, with their due times. */
  ghost function Stored(entries: Entries, now: Time): map<Key, Time> {
    map k | k in entries && IntentAt(entries, now, k).Some? :: IntentAt(entries, now, k).value
  }

  lemma ListsStored(entries: Entries, now: Time, order: seq<Due<Task>>)
    requires KeysApart(order) && ListsAllIntents(entries, now, order)
    ensures DueTimes(Keyed(order)) == Stored(entries, now)
  {
    forall k: Key
      ensures k in DueTimes(Keyed(order)) <==> k in Stored(entries, now)
      ensures k in Stored(entries, now) ==> DueTimes(Keyed(order))[k] == Stored(entries, now)[k]
    {
      assert IntentAt(entries, now, k).Some? ==> k in entries;
    }
  }

  /** An intent found at `now` is found at any later time, with the same due
      time; one found only later falls due after `now`. */
  lemma IntentsStay(entries: Entries, now: Time, later: Time, k: Key)
    requires now <= later && IntentAt(entries, later, k).Some?
    ensures if IntentAt(entries, now, k).Some? then IntentAt(entries, now, k) == IntentAt(entries, later, k)
            else IntentAt(entries, later, k).value > now
  {
  }

  lemma IntentRemains(entries: Entries, now: Time, later: Time, k: Key)
    requires now <= later && IntentAt(entries, now, k).Some?
    ensures IntentAt(entries, later, k) == IntentAt(entries, now, k)
  {
  }

  /** The pass that attempted the first `n` intents of `order`, seen from the
      next one, which begins at `later`. */
  ghost function PassMade(w: World, w': World, order: seq<Due<Task>>, n: nat, later: Time): Pass<Key>
    requires n <= |order|
  {
    Pass(w.clock, Stored(w.store.entries, w.clock), Intents(Keyed(order)[..n]), Stored(w'.store.entries, later))
  }

  lemma PassIsFair(w: World, w': World, order: seq<Due<Task>>, n: nat, batch: nat, later: Time)
    requires KeysApart(order) && n <= |order| && w.clock <= later
    requires ListsAllIntents(w.store.entries, w.clock, order) && Swept(w, w', w.clock, order, n)
    requires AttemptsEarliest(PassOver(order, n, w.clock), batch)
    ensures FairPass(PassMade(w, w', order, n, later), batch)
  {
    var now, p := w.clock, PassMade(w, w', order, n, later);
    ListsStored(w.store.entries, now, order);
    assert DueSet(p) == DueSet(PassOver(order, n, now));
    forall k: Key ensures k in p.attempted <==> AmongTasks(order, n, k) {
      IntentsAt(Keyed(order), n, k);
    }
    forall k | k in p.after
      ensures k in p.attempted ==> p.after[k] > now
      ensures k !in p.attempted ==> if k in p.before then p.after[k] == p.before[k] else p.after[k] > now
    {
      if k !in p.attempted {
        IntentsStay(w.store.entries, now, later, k);
      }
    }
    forall x | IsDue(p, x) && x !in p.attempted ensures x in p.after && p.after[x] == p.before[x] {
      IntentRemains(w.store.entries, now, later, x);
      assert IntentAt(w'.store.entries, later, x).Some? ==> x in w'.store.entries;
    }
  }

  /** What was stored at `k` is gone, or carries as many attempts and `more`. */
  predicate GoneOrTried(w: World, w': World, k: Key, more: nat) {
    k in w'.store.entries ==>
      k in w.store.entries && Attempts(w'.store.entries, k) >= Attempts(w.store.entries, k) + more
  }

  /** No cleanup is forgotten, and those of `attempted` have one attempt more. */
  ghost predicate Advances(w: World, w': World, attempted: set<Key>) {
    forall k: Key :: k.EventKey? || k.SlotKey? ==> GoneOrTried(w, w', k, if k in attempted then 1 else 0)
  }

  lemma AdvancesOn(w: World, u: World, w': World, attempted: set<Key>, more: set<Key>)
    requires Advances(w, u, attempted) && Advances(u, w', more)
    ensures Advances(w, w', attempted + more)
  {
    forall k: Key | k.EventKey? || k.SlotKey?
      ensures GoneOrTried(w, w', k, if k in attempted + more then 1 else 0)
    {
      assert GoneOrTried(w, u, k, if k in attempted then 1 else 0);
      assert GoneOrTried(u, w', k, if k in more then 1 else 0);
    }
  }

  lemma SweptAdvances(w: World, u: World, w': World, now: Time, order: seq<Due<Task>>, n: nat)
    requires n <= |order| && Swept(w, u, now, order, n) && w'.store == u.store
    ensures Advances(w, w', Intents(Keyed(order)[..n]))
  {
    forall k: Key | k.EventKey? || k.SlotKey?
      ensures GoneOrTried(w, w', k, if k in Intents(Keyed(order)[..n]) then 1 else 0)
    {
      IntentsAt(Keyed(order), n, k);
      assert if AmongTasks(order, n, k) then Tried(w, u, k) else Untried(w, u, k);
    }
  }

  /** A fair pass begun at `w`, whose successor begins at `w'`. */
  ghost predicate Leads(pass: Pass<Key>, batch: nat, w: World, w': World) {
    && FairPass(pass, batch) && pass.now == w.clock <= w'.clock && Advances(w, w', pass.attempted)
    && pass.before == Stored(w.store.entries, w.clock)
    && pass.after == Stored(w'.store.entries, w'.clock)
  }

  function AllAttempted(made: seq<Pass<Key>>): set<Key> {
    if made == [] then {} else AllAttempted(made[..|made| - 1]) + made[|made| - 1].attempted
  }

  lemma {:induction false} AttemptedIn(made: seq<Pass<Key>>, i: nat, k: Key)
    requires i < |made| && k in made[i].attempted
    ensures k in AllAttempted(made)
  {
    if i < |made| - 1 {
      AttemptedIn(made[..|made| - 1], i, k);
    }
  }

  /** Consecutive passes that lead from `w` to `w'`. */
  ghost predicate Follows(made: seq<Pass<Key>>, batch: nat, w: World, w': World) {
    && Consecutive(made, batch) && (made == [] ==> w' == w) && Advances(w, w', AllAttempted(made))
    && (made != [] ==>
          && made[0].now == w.clock && made[0].before == Stored(w.store.entries, w.clock)
          && made[|made| - 1].now <= w'.clock && made[|made| - 1].after == Stored(w'.store.entries, w'.clock))
  }

  lemma AttemptedNext(made: seq<Pass<Key>>, w: World, u: World, w': World, pass: Pass<Key>)
    requires Advances(w, u, AllAttempted(made)) && Advances(u, w', pass.attempted)
    ensures Advances(w, w', AllAttempted(made + [pass]))
  {
    assert (made + [pass])[..|made|] == made;
    AdvancesOn(w, u, w', AllAttempted(made), pass.attempted);
  }

  lemma FollowsNext(made: seq<Pass<Key>>, batch: nat, w: World, u: World, w': World, pass: Pass<Key>)
    requires Follows(made, batch, w, u) && Leads(pass, batch, u, w')
    ensures Follows(made + [pass], batch, w, w')
  {
    ConsecutiveNext(made, batch, pass);
    AttemptedNext(made, w, u, w', pass);
  }

  /** Each intent due at `w`, with k others due no later, is among those
      attempted by the first k / batch + 1 passes. */
  ghost predicate AllInTime(made: seq<Pass<Key>>, batch: nat, w: World)
    requires batch >= 1
  {
    var dues := Stored(w.store.entries, w.clock);
    forall x :: x in dues && dues[x] <= w.clock && |Ahead(dues, x)| / batch < |made| ==>
      exists i :: 0 <= i <= |Ahead(dues, x)| / batch && i < |made| && x in made[i].attempted
  }

  lemma FollowsInTime(made: seq<Pass<Key>>, batch: nat, w: World, w': World)
    requires batch >= 1 && Follows(made, batch, w, w')
    ensures AllInTime(made, batch, w)
  {
    var dues := Stored(w.store.entries, w.clock);
    forall x | x in dues && dues[x] <= w.clock && |Ahead(dues, x)| / batch < |made|
      ensures exists i :: 0 <= i <= |Ahead(dues, x)| / batch && i < |made| && x in made[i].attempted
    {
      var i := AttemptedInTime(made, batch, x);
    }
  }

  /** The slot has something to do now: its next attempt is due, or it is neither
      claimed nor reserved, its event open, and its grace over. */
  predicate SlotIsDue(entries: Entries, e: Id, n: nat, now: Time) {
    && HasEvent(entries, e) && EventNow(entries, e).state != Deleting && HasSlot(entries, e, n)
    && var v := SlotNow(entries, e, n);
       if v.cleanup.Some? then v.cleanup.value.nextAttemptAt <= now
       else EventNow(entries, e).state == Open && !v.reserved && v.graceExpiresAt <= now
  }

  predicate EventIsDue(entries: Entries, e: Id, now: Time) {
    && HasEvent(entries, e) && EventNow(entries, e).state == Deleting
    && (EventNow(entries, e).cleanup.Some? ==> EventNow(entries, e).cleanup.value.nextAttemptAt <= now)
  }

  /** In the terms of the records: each slot and each deletion due at `w`, with k
      others due no later, is gone after k / batch + 1 passes, or carries an
      attempt more. */
  ghost predicate AllReached(w: World, w': World, batch: nat, rounds: nat)
    requires batch >= 1
  {
    && (forall e, n :: SlotIsDue(w.store.entries, e, n, w.clock) ==>
          Reached(w, w', SlotKey(e, n), batch, rounds))
    && (forall e :: EventIsDue(w.store.entries, e, w.clock) ==> Reached(w, w', EventKey(e), batch, rounds))
  }

  ghost predicate Reached(w: World, w': World, k: Key, batch: nat, rounds: nat)
    requires batch >= 1
  {
    var dues := Stored(w.store.entries, w.clock);
    k in dues && (|Ahead(dues, k)| / batch < rounds ==> GoneOrTried(w, w', k, 1))
  }

  lemma DueIsReached(made: seq<Pass<Key>>, batch: nat, w: World, w': World, k: Key)
    requires batch >= 1 && Follows(made, batch, w, w') && AllInTime(made, batch, w) && (k.EventKey? || k.SlotKey?)
    requires k in Stored(w.store.entries, w.clock) && Stored(w.store.entries, w.clock)[k] <= w.clock
    ensures Reached(w, w', k, batch, |made|)
  {
    var dues := Stored(w.store.entries, w.clock);
    if |Ahead(dues, k)| / batch < |made| {
      var i :| 0 <= i <= |Ahead(dues, k)| / batch && i < |made| && k in made[i].attempted;
      AttemptedIn(made, i, k);
    }
  }

  lemma EveryoneIsReached(made: seq<Pass<Key>>, batch: nat, w: World, w': World)
    requires batch >= 1 && Follows(made, batch, w, w') && AllInTime(made, batch, w)
    ensures AllReached(w, w', batch, |made|)
  {
    forall e, n | SlotIsDue(w.store.entries, e, n, w.clock) ensures Reached(w, w', SlotKey(e, n), batch, |made|) {
      DueIsReached(made, batch, w, w', SlotKey(e, n));
    }
    forall e | EventIsDue(w.store.entries, e, w.clock) ensures Reached(w, w', EventKey(e), batch, |made|) {
      DueIsReached(made, batch, w, w', EventKey(e));
    }
  }

  lemma PassLeads(w: World, u: World, w': World, now: Time, order: seq<Due<Task>>, n: nat, batch: nat)
    requires KeysApart(order) && n <= |order| && w'.store == u.store && u.clock <= w'.clock && now == w.clock
    requires ListsAllIntents(w.store.entries, now, order) && Swept(w, u, now, order, n)
    requires AttemptsEarliest(PassOver(order, n, now), batch)
    ensures Leads(PassMade(w, u, order, n, w'.clock), batch, w, w')
  {
    PassIsFair(w, u, order, n, batch, w'.clock);
    SweptAdvances(w, u, w', now, order, n);
  }

  lemma PassCounts(order: seq<Due<Task>>, n: nat, now: Time)
    requires KeysApart(order) && n <= |order|
    ensures |PassOver(order, n, now).attempted| == n
  {
    CountIntents(Keyed(order)[..n]);
  }

  class Controller {
    const interval: int
    const batch: int
    var report: Report
    var passes: nat
    var completed: nat
    var failures: nat

    constructor (interval: int, batch: int)
      ensures this.interval == interval && this.batch == batch
      ensures passes == 0 && completed == 0 && failures == 0
    {
      this.interval, this.batch := interval, batch;
      report, passes, completed, failures := Report(0, 0, 0, 0), 0, 0, 0;
    }

    /** One pass, added to the counts; `order` and `now` are what it found. */
    method Tick(c: Cluster, ghost rely: Rely) returns (ghost order: seq<Due<Task>>, ghost now: Time)
      requires c.Valid() && batch >= 1
      modifies this, c
      ensures c.Valid() && Since(old(c.w), c.w)
      ensures passes == old(passes) + 1
      ensures completed == old(completed) + report.completed && failures == old(failures) + report.failed
      ensures KeysApart(order) && report.attempted <= |order|
      ensures AttemptsEarliest(PassOver(order, report.attempted, now), batch)
      ensures rely.alone ==>
                && now == old(c.w).clock && ListsAllIntents(old(c.w).store.entries, now, order)
                && Swept(old(c.w), c.w, now, order, report.attempted)
    {
      var found;
      ghost var outcomes: seq<Option<Problem>>;
      found, order, outcomes, now := Reconcile(c, rely, batch);
      report, passes := found, passes + 1;
      completed, failures := completed + report.completed, failures + report.failed;
    }

    /** A pass and the wait for the next one. */
    method TickAndWait(c: Cluster, ghost rely: Rely) returns (ghost pass: Pass<Key>)
      requires c.Valid() && batch >= 1
      modifies this, c
      ensures c.Valid() && Since(old(c.w), c.w) && passes == old(passes) + 1
      ensures AttemptsEarliest(pass, batch) && |pass.attempted| == report.attempted
      ensures rely.alone ==> Leads(pass, batch, old(c.w), c.w)
    {
      ghost var w0 := c.w;
      ghost var order, now := Tick(c, rely);
      ghost var w1 := c.w;
      c.Wait(rely);
      SinceChain(w0, w1, c.w);
      PassCounts(order, report.attempted, now);
      pass := PassOver(order, report.attempted, now);
      if rely.alone {
        PassLeads(w0, w1, c.w, now, order, report.attempted, batch);
        pass := PassMade(w0, w1, order, report.attempted, c.w.clock);
      }
    }

    /** The loop, ended by its context after `rounds` passes. While nobody else
        acts it reaches every due intent in time. */
    method Run(c: Cluster, ghost rely: Rely, rounds: nat) returns (ghost made: seq<Pass<Key>>)
      requires c.Valid()
      modifies this, c
      ensures c.Valid() && Since(old(c.w), c.w)
      ensures interval <= 0 || batch < 1 ==> made == [] && c.w == old(c.w) && passes == old(passes)
      ensures interval > 0 && batch >= 1 ==>
                && |made| == rounds && passes == old(passes) + rounds
                && (forall p :: p in made ==> AttemptsEarliest(p, batch))
                && (rely.alone ==>
                      && Follows(made, batch, old(c.w), c.w) && AllInTime(made, batch, old(c.w))
                      && AllReached(old(c.w), c.w, batch, rounds))
    {
      ghost var w0 := c.w;
      made := [];
      SinceSelf(w0);
      if interval <= 0 || batch < 1 {
        return;
      }
      for i := 0 to rounds
        invariant c.Valid() && Since(w0, c.w) && |made| == i && passes == old(passes) + i
        invariant forall p :: p in made ==> AttemptsEarliest(p, batch)
        invariant rely.alone ==> Follows(made, batch, w0, c.w)
      {
        ghost var w1 := c.w;
        ghost var pass := TickAndWait(c, rely);
        SinceChain(w0, w1, c.w);
        if rely.alone {
          FollowsNext(made, batch, w0, w1, c.w, pass);
        }
        made := made + [pass];
      }
      if rely.alone {
        FollowsInTime(made, batch, w0, c.w);
        EveryoneIsReached(made, batch, w0, c.w);
      }
    }
  }
}
