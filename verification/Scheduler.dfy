/** The recovery batch: oldest-due first, and what that means for fairness
    (internal/access/recovery.go:211-280). */
module Scheduler {
  import opened KvStore
  import opened Model
  import opened Counting

  // ---------- Sorting tasks by due time ----------

  /** Anything with a due time, such as a cleanup task. */
  datatype Due<+T> = Due(task: T, due: Time)

  predicate Sorted<T>(s: seq<Due<T>>) {
    forall i, j :: 0 <= i < j < |s| ==> s[i].due <= s[j].due
  }

  function Inserted<T>(x: Due<T>, s: seq<Due<T>>): seq<Due<T>> {
    if s == [] then [x]
    else if x.due < s[0].due then [x] + s
    else [s[0]] + Inserted(x, s[1..])
  }

  function SortByDue<T>(s: seq<Due<T>>): seq<Due<T>> {
    if s == [] then [] else Inserted(s[|s| - 1], SortByDue(s[..|s| - 1]))
  }

  lemma {:induction false} InsertedKeepsTasks<T>(x: Due<T>, s: seq<Due<T>>)
    ensures multiset(Inserted(x, s)) == multiset(s) + multiset{x}
  {
    if s != [] && s[0].due <= x.due {
      InsertedKeepsTasks(x, s[1..]);
      assert s == [s[0]] + s[1..];
    }
  }

  lemma {:induction false} InsertedIsSorted<T>(x: Due<T>, s: seq<Due<T>>)
    requires Sorted(s)
    ensures Sorted(Inserted(x, s))
    ensures s != [] ==> Inserted(x, s)[0].due == if x.due < s[0].due then x.due else s[0].due
  {
    if s != [] && s[0].due <= x.due {
      InsertedIsSorted(x, s[1..]);
      var t := Inserted(x, s[1..]);
      assert t[0].due >= s[0].due;
      assert forall j :: 0 <= j < |t| ==> s[0].due <= t[0].due <= t[j].due;
    }
  }

  lemma {:induction false} SortByDueSorts<T>(s: seq<Due<T>>)
    ensures Sorted(SortByDue(s)) && multiset(SortByDue(s)) == multiset(s)
  {
    if s != [] {
      var front, last := s[..|s| - 1], s[|s| - 1];
      SortByDueSorts(front);
      InsertedIsSorted(last, SortByDue(front));
      InsertedKeepsTasks(last, SortByDue(front));
      assert s == front + [last];
    }
  }

  function DueCount<T>(s: seq<Due<T>>, now: Time): nat {
    if s == [] then 0 else DueCount(s[..|s| - 1], now) + if s[|s| - 1].due <= now then 1 else 0
  }

  /** In a sorted list the tasks that are due come first. */
  lemma {:induction false} DueIsPrefix<T>(s: seq<Due<T>>, now: Time)
    requires Sorted(s)
    ensures DueCount(s, now) <= |s|
    ensures forall i :: 0 <= i < |s| ==> (s[i].due <= now <==> i < DueCount(s, now))
  {
    if s != [] {
      DueIsPrefix(s[..|s| - 1], now);
    }
  }

  // ---------- Bounded overtaking ----------

  /** One recovery pass: the intents with their due times as it found them, what
      it attempted, and what was left. */
  datatype Pass<!K(==)> = Pass(now: Time, before: map<K, Time>, attempted: set<K>, after: map<K, Time>)

  predicate IsDue<K(==)>(p: Pass<K>, x: K) {
    x in p.before && p.before[x] <= p.now
  }

  function DueSet<K>(p: Pass<K>): set<K> {
    set x | x in p.before && p.before[x] <= p.now
  }

  /** The pass attempted a batch of the earliest-due intents, all of them if no
      more than a batch were due. */
  ghost predicate AttemptsEarliest<K(!new)>(p: Pass<K>, batch: nat) {
    && p.attempted <= DueSet(p)
    && |p.attempted| == Min(batch, |DueSet(p)|)
    && (forall a, b :: a in p.attempted && b in DueSet(p) - p.attempted ==> p.before[a] <= p.before[b])
  }

  // ---------- What a pass attempts ----------

  /** No intent appears twice. */
  predicate Apart<K(==)>(s: seq<Due<K>>) {
    forall i, j :: 0 <= i < j < |s| ==> s[i].task != s[j].task
  }

  function Intents<K>(s: seq<Due<K>>): set<K> {
    set i | 0 <= i < |s| :: s[i].task
  }

  function DueTimes<K(==)>(s: seq<Due<K>>): (dues: map<K, Time>)
    requires Apart(s)
    ensures dues.Keys == Intents(s) && forall i :: 0 <= i < |s| ==> s[i].task in dues && dues[s[i].task] == s[i].due
  {
    if s == [] then map[]
    else
      var front := s[..|s| - 1];
      assert Intents(s) == Intents(front) + {s[|s| - 1].task};
      DueTimes(front)[s[|s| - 1].task := s[|s| - 1].due]
  }

  lemma CountIntents<K>(s: seq<Due<K>>)
    requires Apart(s)
    ensures |Intents(s)| == |s|
  {
    var tasks := seq(|s|, i requires 0 <= i < |s| => s[i].task);
    CountDistinct(tasks);
    forall x | x in Intents(s) ensures x in Members(tasks) {
      var i :| 0 <= i < |s| && s[i].task == x;
      assert tasks[i] == x;
    }
    assert Intents(s) == Members(tasks);
  }

  lemma TwiceMeansTwo<T>(s: seq<T>, i: nat, j: nat)
    requires i < j < |s| && s[i] == s[j]
    ensures multiset(s)[s[i]] >= 2
  {
    assert s == s[..j] + s[j..];
    assert s[..j][i] == s[i] && s[j..][0] == s[i];
  }

  lemma {:induction false} TwoMeansTwice<T>(s: seq<T>, x: T)
    requires multiset(s)[x] >= 2
    ensures exists i, j :: 0 <= i < j < |s| && s[i] == x && s[j] == x
  {
    var front, last := s[..|s| - 1], s[|s| - 1];
    assert s == front + [last];
    if last == x {
      assert x in multiset(front);
      var i :| 0 <= i < |front| && front[i] == x;
      assert s[i] == x && s[|s| - 1] == x;
    } else {
      TwoMeansTwice(front, x);
      var i, j :| 0 <= i < j < |front| && front[i] == x && front[j] == x;
      assert s[i] == x && s[j] == x;
    }
  }

  lemma IntentsAt<K>(s: seq<Due<K>>, n: nat, x: K)
    requires n <= |s|
    ensures x in Intents(s[..n]) <==> exists i :: 0 <= i < n && s[i].task == x
  {
    if i :| 0 <= i < n && s[i].task == x {
      assert s[..n][i].task == x;
    }
  }

  lemma DueComeFirst<K>(s: seq<Due<K>>, now: Time, x: K)
    requires Sorted(s) && Apart(s)
    ensures DueCount(s, now) <= |s|
    ensures x in Intents(s[..DueCount(s, now)]) <==> x in DueTimes(s) && DueTimes(s)[x] <= now
  {
    DueIsPrefix(s, now);
    IntentsAt(s, DueCount(s, now), x);
    if x in DueTimes(s) {
      var i :| 0 <= i < |s| && s[i].task == x;
      assert DueTimes(s)[s[i].task] == s[i].due;
    }
  }

  lemma FrontNoLater<K>(s: seq<Due<K>>, m: nat, a: K, b: K)
    requires Sorted(s) && Apart(s) && m <= |s| && a in Intents(s[..m]) && b in Intents(s) && b !in Intents(s[..m])
    ensures DueTimes(s)[a] <= DueTimes(s)[b]
  {
    IntentsAt(s, m, a);
    IntentsAt(s, m, b);
    var i :| 0 <= i < m && s[i].task == a;
    var j :| 0 <= j < |s| && s[j].task == b;
    assert DueTimes(s)[s[i].task] == s[i].due && DueTimes(s)[s[j].task] == s[j].due;
  }

  /** Taking a batch off the front of the sorted list attempts the batch of
      earliest-due intents. */
  lemma FrontIsEarliest<K(!new)>(s: seq<Due<K>>, now: Time, batch: nat, after: map<K, Time>)
    requires Sorted(s) && Apart(s)
    ensures DueCount(s, now) <= |s|
    ensures AttemptsEarliest(Pass(now, DueTimes(s), Intents(s[..Min(batch, DueCount(s, now))]), after), batch)
  {
    DueIsPrefix(s, now);
    var due, m := DueCount(s, now), Min(batch, DueCount(s, now));
    var p := Pass(now, DueTimes(s), Intents(s[..m]), after);
    CountIntents(s[..m]);
    CountIntents(s[..due]);
    forall x ensures x in DueSet(p) <==> x in Intents(s[..due]) {
      DueComeFirst(s, now, x);
    }
    assert DueSet(p) == Intents(s[..due]);
    forall x | x in p.attempted ensures x in DueSet(p) {
      IntentsAt(s, m, x);
      IntentsAt(s, due, x);
    }
    forall a, b | a in p.attempted && b in DueSet(p) - p.attempted ensures p.before[a] <= p.before[b] {
      FrontNoLater(s, m, a, b);
    }
  }

  /** Every attempt completed its intent or moved its due time past the pass;
      other intents were not made due sooner, and none that arrived is due at or
      before `horizon`. */
  ghost predicate Settles<K(!new)>(p: Pass<K>, horizon: Time) {
    && (forall a :: a in p.attempted && a in p.after ==> p.after[a] > p.now)
    && (forall b :: b in p.before && b !in p.attempted && b in p.after ==> p.after[b] >= p.before[b])
    && (forall y :: y in p.after && y !in p.before ==> p.after[y] > horizon)
  }

  /** The other intents due no later than `x`. */
  function Ahead<K(==)>(dues: map<K, Time>, x: K): set<K>
    requires x in dues
  {
    set y | y in dues && y != x && dues[y] <= dues[x]
  }

  /** A pass that passes over a due intent takes a full batch from ahead of it. */
  lemma PassedOverByABatch<K(!new)>(p: Pass<K>, batch: nat, x: K)
    requires AttemptsEarliest(p, batch) && IsDue(p, x) && x !in p.attempted && Settles(p, p.before[x])
    requires x in p.after && p.after[x] == p.before[x]
    ensures |Ahead(p.after, x)| + batch <= |Ahead(p.before, x)|
  {
    var due := DueSet(p);
    assert x in due - p.attempted;
    assert p.attempted < due;
    SubsetIsSmaller(p.attempted, due);
    assert p.attempted <= Ahead(p.before, x);
    var rest := Ahead(p.before, x) - p.attempted;
    assert Ahead(p.after, x) <= rest;
    SubsetIsNoLarger(Ahead(p.after, x), rest);
    assert |rest| == |Ahead(p.before, x)| - |p.attempted|;
  }

  /** The pass leaves `x`, which is due, as it was. */
  ghost predicate PassesOver<K(!new)>(p: Pass<K>, batch: nat, x: K) {
    && AttemptsEarliest(p, batch) && IsDue(p, x) && x !in p.attempted && Settles(p, p.before[x])
    && x in p.after && p.after[x] == p.before[x]
  }

  /** Consecutive passes, all of which pass over `x`. */
  ghost predicate AllPassOver<K(!new)>(passes: seq<Pass<K>>, batch: nat, x: K) {
    && (forall i :: 0 <= i < |passes| ==> PassesOver(passes[i], batch, x))
    && (forall i :: 0 < i < |passes| ==> passes[i].before == passes[i - 1].after)
  }

  lemma {:induction false} PassesEatTheQueue<K(!new)>(passes: seq<Pass<K>>, batch: nat, x: K)
    requires passes != [] && AllPassOver(passes, batch, x)
    ensures x in passes[0].before && |passes| * batch <= |Ahead(passes[0].before, x)|
  {
    assert PassesOver(passes[0], batch, x);
    PassedOverByABatch(passes[0], batch, x);
    if |passes| > 1 {
      var rest := passes[1..];
      RestPassesOver(passes, batch, x);
      PassesEatTheQueue(rest, batch, x);
      OneMoreTimes(|rest|, batch);
    }
  }

  lemma RestPassesOver<K(!new)>(passes: seq<Pass<K>>, batch: nat, x: K)
    requires |passes| > 1 && AllPassOver(passes, batch, x)
    ensures AllPassOver(passes[1..], batch, x) && passes[1..][0].before == passes[0].after
  {
    forall i | 0 < i < |passes[1..]| ensures passes[1..][i].before == passes[1..][i - 1].after {
      assert passes[i + 1].before == passes[i].after;
    }
  }

  lemma OneMoreTimes(n: nat, batch: nat)
    ensures (n + 1) * batch == n * batch + batch
  {
  }

  /** A due intent with `k` others due no later cannot be passed over by
      k / batch + 1 passes: it is attempted within that many. */
  lemma BoundedOvertaking<K(!new)>(passes: seq<Pass<K>>, batch: nat, x: K)
    requires batch >= 1 && passes != [] && AllPassOver(passes, batch, x)
    ensures x in passes[0].before && |passes| < |Ahead(passes[0].before, x)| / batch + 1
  {
    PassesEatTheQueue(passes, batch, x);
    var k, m := |Ahead(passes[0].before, x)|, |passes|;
    QuotientBound(m, batch, k);
  }

  /** A pass that attempts the earliest, settles what it attempts, and leaves
      the due intents it did not reach as they were. */
  ghost predicate FairPass<K(!new)>(p: Pass<K>, batch: nat) {
    && AttemptsEarliest(p, batch) && Settles(p, p.now)
    && (forall x :: IsDue(p, x) && x !in p.attempted ==> x in p.after && p.after[x] == p.before[x])
  }

  /** Fair passes, each beginning where the one before it ended. */
  ghost predicate Consecutive<K(!new)>(passes: seq<Pass<K>>, batch: nat) {
    && (forall i :: 0 <= i < |passes| ==> FairPass(passes[i], batch))
    && (forall i :: 0 < i < |passes| ==>
          passes[i].before == passes[i - 1].after && passes[i - 1].now <= passes[i].now)
  }

  lemma ConsecutiveNext<K(!new)>(passes: seq<Pass<K>>, batch: nat, p: Pass<K>)
    requires Consecutive(passes, batch) && FairPass(p, batch)
    requires passes != [] ==> p.before == passes[|passes| - 1].after && passes[|passes| - 1].now <= p.now
    ensures Consecutive(passes + [p], batch)
  {
    var all := passes + [p];
    forall i | 0 <= i < |all| ensures FairPass(all[i], batch) {
      assert i < |passes| ==> FairPass(passes[i], batch);
    }
    forall i | 0 < i < |all| ensures all[i].before == all[i - 1].after && all[i - 1].now <= all[i].now {
      assert all[i - 1] == passes[i - 1];
    }
  }

  lemma {:induction false} StillWaiting<K(!new)>(passes: seq<Pass<K>>, batch: nat, x: K, n: nat)
    requires n < |passes| && Consecutive(passes, batch) && IsDue(passes[0], x)
    requires forall i :: 0 <= i < n ==> x !in passes[i].attempted
    ensures IsDue(passes[n], x) && passes[n].before[x] == passes[0].before[x]
  {
    if n > 0 {
      StillWaiting(passes, batch, x, n - 1);
      assert FairPass(passes[n - 1], batch);
    }
  }

  /** Among consecutive fair passes a due intent with `k` others due no later is
      attempted by one of the first k / batch + 1. */
  lemma AttemptedInTime<K(!new)>(passes: seq<Pass<K>>, batch: nat, x: K) returns (i: nat)
    requires batch >= 1 && passes != [] && Consecutive(passes, batch) && IsDue(passes[0], x)
    requires |passes| > |Ahead(passes[0].before, x)| / batch
    ensures i < |passes| && i <= |Ahead(passes[0].before, x)| / batch && x in passes[i].attempted
  {
    var n := |Ahead(passes[0].before, x)| / batch + 1;
    var first := passes[..n];
    if forall j :: 0 <= j < n ==> x !in passes[j].attempted {
      forall j | 0 <= j < n ensures PassesOver(first[j], batch, x) {
        StillWaiting(passes, batch, x, j);
      }
      BoundedOvertaking(first, batch, x);
    }
    i :| 0 <= i < n && x in passes[i].attempted;
  }

  lemma QuotientBound(m: nat, batch: nat, k: nat)
    requires batch >= 1 && m * batch <= k
    ensures m < k / batch + 1
  {
    assert k < (k / batch + 1) * batch;
    if m >= k / batch + 1 {
      MulGrows(k / batch + 1, m, batch);
    }
  }

  lemma MulGrows(a: nat, b: nat, c: nat)
    requires a <= b
    ensures a * c <= b * c
  {
  }
}
