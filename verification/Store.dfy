/** The revisioned compare-and-swap store (internal/store/memory.go).

    `Store` is the value of the store: its live entries, the global revision
    counter, and the history of every write by the revision it was given. The
    operations are functions on that value; `Memory` is the mutable object
    whose methods are proved to compute them. */
module KvStore {

  datatype Option<+T> = None | Some(value: T)

  datatype Entry<+V> = Entry(value: V, revision: nat)

  datatype Error = NotFound | Conflict | Exists

  /** What a store call returns; deletes report no revision and answer `Ok(0)`. */
  datatype Reply = Ok(revision: nat) | Failed(error: Error)

  datatype Write<+K, +V> = Write(key: K, value: V)

  datatype Store<!K(==), V> = Store(
    entries: map<K, Entry<V>>,
    revision: nat,
    written: map<nat, Write<K, V>>)

  function Empty<K, V>(): Store<K, V> {
    Store(map[], 0, map[])
  }

  function Put<K, V>(s: Store<K, V>, key: K, value: V): (Store<K, V>, Reply) {
    var r := s.revision + 1;
    (Store(s.entries[key := Entry(value, r)], r, s.written[r := Write(key, value)]), Ok(r))
  }

  function Remove<K, V>(s: Store<K, V>, key: K): (Store<K, V>, Reply) {
    (s.(entries := s.entries - {key}), Ok(0))
  }

  function Create<K, V>(s: Store<K, V>, key: K, value: V): (Store<K, V>, Reply) {
    if key in s.entries then (s, Failed(Exists)) else Put(s, key, value)
  }

  function Update<K, V>(s: Store<K, V>, key: K, value: V, revision: nat): (Store<K, V>, Reply) {
    if key !in s.entries then (s, Failed(NotFound))
    else if s.entries[key].revision != revision then (s, Failed(Conflict))
    else Put(s, key, value)
  }

  function Delete<K, V>(s: Store<K, V>, key: K): (Store<K, V>, Reply) {
    if key !in s.entries then (s, Failed(NotFound)) else Remove(s, key)
  }

  function DeleteRevision<K, V>(s: Store<K, V>, key: K, revision: nat): (Store<K, V>, Reply) {
    if key !in s.entries then (s, Failed(NotFound))
    else if s.entries[key].revision != revision then (s, Failed(Conflict))
    else Remove(s, key)
  }

  // ---------- Operation histories ----------

  datatype Op<+K, +V> =
    | CreateOp(key: K, value: V)
    | UpdateOp(key: K, value: V, revision: nat)
    | DeleteOp(key: K)
    | DeleteRevisionOp(key: K, revision: nat)

  function Apply<K, V>(s: Store<K, V>, op: Op<K, V>): (Store<K, V>, Reply) {
    match op
    case CreateOp(k, v) => Create(s, k, v)
    case UpdateOp(k, v, r) => Update(s, k, v, r)
    case DeleteOp(k) => Delete(s, k)
    case DeleteRevisionOp(k, r) => DeleteRevision(s, k, r)
  }

  /** The store after a history of calls, successful or not. */
  function After<K, V>(ops: seq<Op<K, V>>): Store<K, V> {
    if ops == [] then Empty() else Apply(After(ops[..|ops| - 1]), ops[|ops| - 1]).0
  }

  function ReplyAt<K(==), V>(ops: seq<Op<K, V>>, i: nat): Reply
    requires i < |ops|
  {
    Apply(After(ops[..i]), ops[i]).1
  }

  /** Call `i` wrote an entry and was given revision `r`. */
  predicate WroteAt<K(==), V>(ops: seq<Op<K, V>>, i: nat, r: nat)
    requires i < |ops|
  {
    (ops[i].CreateOp? || ops[i].UpdateOp?) && ReplyAt(ops, i) == Ok(r)
  }

  /** Call `i` changed, replaced or removed the entry at `key`. */
  predicate TouchedAt<K(==), V>(ops: seq<Op<K, V>>, i: nat, key: K)
    requires i < |ops|
  {
    ops[i].key == key && ReplyAt(ops, i).Ok?
  }

  /** The live entries are writes of the history, and the counter bounds it. */
  ghost predicate Consistent<K(!new), V>(s: Store<K, V>) {
    && (forall k :: k in s.entries ==>
          && s.entries[k].revision in s.written
          && s.written[s.entries[k].revision] == Write(k, s.entries[k].value))
    && (forall r :: r in s.written ==> 1 <= r <= s.revision)
  }

  lemma {:induction false} HistoryIsConsistent<K(!new), V>(ops: seq<Op<K, V>>)
    ensures Consistent(After(ops))
  {
    if ops != [] {
      HistoryIsConsistent(ops[..|ops| - 1]);
    }
  }

  lemma {:induction false} CounterNeverFalls<K(!new), V>(ops: seq<Op<K, V>>, i: nat)
    requires i <= |ops|
    ensures After(ops[..i]).revision <= After(ops).revision
  {
    if i == |ops| {
      assert ops[..i] == ops;
    } else {
      var front := ops[..|ops| - 1];
      CounterNeverFalls(front, i);
      assert front[..i] == ops[..i];
    }
  }

  /** Revisions strictly increase over every history, across all keys and
      through deletes and re-creations; so no revision is ever given twice. */
  lemma RevisionsIncrease<K(!new), V>(ops: seq<Op<K, V>>, i: nat, j: nat, r: nat, q: nat)
    requires i < j < |ops| && WroteAt(ops, i, r) && WroteAt(ops, j, q)
    ensures r < q
  {
    assert ops[..i + 1][..i] == ops[..i];
    assert After(ops[..i + 1]).revision == r;
    assert ops[..j][..i + 1] == ops[..i + 1];
    CounterNeverFalls(ops[..j], i + 1);
  }

  /** `Update` or `DeleteRevision` with revision `r` succeeds exactly when the
      live entry at the key is the one some earlier call wrote at `r`, with no
      call having replaced or removed it since. */
  lemma CasSucceedsExactlyOnTheLiveWrite<K(!new), V>(ops: seq<Op<K, V>>, key: K, value: V, r: nat)
    ensures Update(After(ops), key, value, r).1.Ok? <==> Live(ops, key, r)
    ensures DeleteRevision(After(ops), key, r).1.Ok? <==> Live(ops, key, r)
  {
    LiveMeansEntry(ops, key, r);
  }

  ghost predicate Live<K(!new), V>(ops: seq<Op<K, V>>, key: K, r: nat) {
    exists i: nat :: i < |ops| && LiveFrom(ops, i, key, r)
  }

  ghost predicate LiveFrom<K(!new), V>(ops: seq<Op<K, V>>, i: nat, key: K, r: nat)
    requires i < |ops|
  {
    && ops[i].key == key && WroteAt(ops, i, r)
    && forall j: nat :: i < j < |ops| ==> !TouchedAt(ops, j, key)
  }

  /** What call `i` did reads the same in a longer history. */
  lemma LongerHistory<K(!new), V>(ops: seq<Op<K, V>>, n: nat, i: nat, key: K, r: nat)
    requires i < n <= |ops|
    ensures ops[..n][..i] == ops[..i]
    ensures WroteAt(ops, i, r) <==> WroteAt(ops[..n], i, r)
    ensures TouchedAt(ops, i, key) <==> TouchedAt(ops[..n], i, key)
  {
  }

  lemma LiveLater<K(!new), V>(ops: seq<Op<K, V>>, key: K, r: nat)
    requires ops != []
    ensures Live(ops, key, r) <==>
            || LiveFrom(ops, |ops| - 1, key, r)
            || (!TouchedAt(ops, |ops| - 1, key) && Live(ops[..|ops| - 1], key, r))
  {
    var n := |ops| - 1;
    var front := ops[..n];
    forall i: nat | i < n ensures LiveFrom(ops, i, key, r) <==> !TouchedAt(ops, n, key) && LiveFrom(front, i, key, r) {
      LongerHistory(ops, n, i, key, r);
      forall j: nat | i < j < n ensures TouchedAt(ops, j, key) <==> TouchedAt(front, j, key) {
        LongerHistory(ops, n, j, key, r);
      }
    }
  }

  lemma {:induction false} LiveMeansEntry<K(!new), V>(ops: seq<Op<K, V>>, key: K, r: nat)
    ensures Live(ops, key, r) <==>
            key in After(ops).entries && After(ops).entries[key].revision == r
  {
    if ops != [] {
      LiveMeansEntry(ops[..|ops| - 1], key, r);
      HistoryIsConsistent(ops[..|ops| - 1]);
      LiveLater(ops, key, r);
    }
  }
}
