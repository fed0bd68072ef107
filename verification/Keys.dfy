/** The key space: how typed keys are spelled in the string store
    (internal/access/service.go:586-591, internal/store/memory.go:66-77). */
module Keys {
  import opened KvStore
  import opened Model
  import MemoryStore

  /** How identifiers and digests are spelled. */
  datatype Naming = Naming(id: Id -> string, digest: Digest -> string)

  /** Distinct spellings, and no dot in an identifier (UUIDs have none). */
  ghost predicate Proper(nm: Naming) {
    && (forall a: Id, b: Id :: nm.id(a) == nm.id(b) ==> a == b)
    && (forall a: Digest, b: Digest :: nm.digest(a) == nm.digest(b) ==> a == b)
    && (forall a: Id :: '.' !in nm.id(a))
  }

  function Digit(n: nat): char
    requires n < 10
  {
    ('0' as int + n) as char
  }

  function Decimal(n: nat): (s: string)
    ensures |s| > 0
  {
    if n < 10 then [Digit(n)] else Decimal(n / 10) + [Digit(n % 10)]
  }

  /** Zero-padded to three digits; longer numbers keep all theirs. */
  function Padded(n: nat): string {
    var d := Decimal(n);
    if |d| == 1 then "00" + d else if |d| == 2 then "0" + d else d
  }

  function Render(nm: Naming, k: Key): string {
    match k
    case EventKey(e) => "event." + nm.id(e)
    case InvitationKey(d) => "invitation." + nm.digest(d)
    case SessionKey(d) => "session." + nm.digest(d)
    case SlotKey(e, n) => SlotPrefix(nm, e) + Padded(n)
    case ReceiptKey(e) => "receipt." + nm.id(e)
  }

  function SlotPrefix(nm: Naming, e: Id): string {
    "slot." + nm.id(e) + "."
  }

  // ---------- Numbers are recovered from their digits ----------

  ghost function Parsed(s: string): int {
    if s == "" then 0 else 10 * Parsed(s[..|s| - 1]) + (s[|s| - 1] as int - '0' as int)
  }

  lemma {:induction false} ParsedDecimal(n: nat)
    ensures Parsed(Decimal(n)) == n
  {
    var d := Decimal(n);
    if n < 10 {
      assert d[..0] == "";
    } else {
      ParsedDecimal(n / 10);
      assert d[..|d| - 1] == Decimal(n / 10);
    }
  }

  lemma {:induction false} ParsedLeadingZero(s: string)
    ensures Parsed("0" + s) == Parsed(s)
  {
    if s == "" {
      assert "0"[..0] == "";
    } else {
      var t := "0" + s;
      ParsedLeadingZero(s[..|s| - 1]);
      assert t[..|t| - 1] == "0" + s[..|s| - 1];
    }
  }

  lemma ParsedPadded(n: nat)
    ensures Parsed(Padded(n)) == n
  {
    var d := Decimal(n);
    ParsedDecimal(n);
    ParsedLeadingZero(d);
    ParsedLeadingZero("0" + d);
    assert "0" + ("0" + d) == "00" + d;
  }

  lemma {:induction false} DecimalShape(n: nat)
    ensures var d := Decimal(n);
            && d[|d| - 1] == Digit(n % 10) && (n > 0 ==> d[0] != '0') && (|d| <= 3 <==> n < 1000)
            && (|d| <= 2 <==> n < 100) && (|d| <= 1 <==> n < 10)
  {
    if n >= 10 {
      DecimalShape(n / 10);
      assert (n / 10) / 10 == n / 100;
    }
  }

  lemma LastDigit(n: nat)
    ensures Decimal(n) == (if n < 10 then "" else Decimal(n / 10)) + [Digit(n % 10)]
  {
  }

  lemma ThreeDigits(n: nat)
    requires n < 1000
    ensures Padded(n) == [Digit(n / 100), Digit(n / 10 % 10), Digit(n % 10)]
  {
    DecimalShape(n);
    LastDigit(n);
    if n >= 10 {
      LastDigit(n / 10);
      if n >= 100 {
        LastDigit(n / 100);
        assert n / 100 < 10;
        assert (n / 10) / 10 == n / 100;
      }
    }
  }

  /** A slot key ends in the number: in three digits below a thousand, and in as
      many as it takes, without a leading zero, from there on. */
  lemma SlotKeySpelled(nm: Naming, e: Id, n: nat)
    ensures var d := Padded(n);
            && Render(nm, SlotKey(e, n)) == "slot." + nm.id(e) + "." + d
            && (n < 1000 ==> d == [Digit(n / 100), Digit(n / 10 % 10), Digit(n % 10)])
            && (n >= 1000 ==> |d| > 3 && d[0] != '0' && Parsed(d) == n)
  {
    DecimalShape(n);
    ParsedPadded(n);
    if n < 1000 {
      ThreeDigits(n);
    }
  }

  // ---------- Injectivity ----------

  /** A slot prefix that starts another slot's key names the same event. */
  lemma SlotPrefixNamesEvent(nm: Naming, a: Id, b: Id, n: nat)
    requires Proper(nm) && SlotPrefix(nm, a) <= Render(nm, SlotKey(b, n))
    ensures a == b
  {
    var x, y := nm.id(a), nm.id(b);
    var p, k := SlotPrefix(nm, a), Render(nm, SlotKey(b, n));
    assert forall i :: 0 <= i < |x| ==> p[5 + i] == x[i];
    assert forall i :: 0 <= i < |y| ==> k[5 + i] == y[i];
    assert p[5 + |x|] == '.' && k[5 + |y|] == '.';
    assert forall i :: 0 <= i < |p| ==> p[i] == k[i];
    if |x| < |y| {
      assert false;
    } else if |y| < |x| {
      assert false;
    }
    assert forall i :: 0 <= i < |x| ==> x[i] == p[5 + i] == k[5 + i] == y[i];
    assert x == y;
  }

  /** Which of the five key families a spelled key belongs to. */
  lemma FamilyIsVisible(nm: Naming, k: Key)
    ensures var s := Render(nm, k);
            && |s| >= 5
            && (k.EventKey? <==> s[0] == 'e')
            && (k.InvitationKey? <==> s[0] == 'i')
            && (k.ReceiptKey? <==> s[0] == 'r')
            && (k.SessionKey? <==> s[0] == 's' && s[1] == 'e')
            && (k.SlotKey? <==> s[0] == 's' && s[1] == 'l')
  {
  }

  lemma PrefixCancels(p: string, a: string, b: string)
    requires p + a == p + b
    ensures a == b
  {
    assert a == (p + a)[|p|..] && b == (p + b)[|p|..];
  }

  /** No two keys share a spelling, across all families and over every slot
      number, including those longer than three digits. */
  lemma RenderIsInjective(nm: Naming, k: Key, l: Key)
    requires Proper(nm) && Render(nm, k) == Render(nm, l)
    ensures k == l
  {
    FamilyIsVisible(nm, k);
    FamilyIsVisible(nm, l);
    match k {
      case EventKey(e) => PrefixCancels("event.", nm.id(e), nm.id(l.eventId));
      case InvitationKey(d) => PrefixCancels("invitation.", nm.digest(d), nm.digest(l.digest));
      case SessionKey(d) => PrefixCancels("session.", nm.digest(d), nm.digest(l.digest));
      case ReceiptKey(e) => PrefixCancels("receipt.", nm.id(e), nm.id(l.eventId));
      case SlotKey(e, n) =>
        SlotPrefixNamesEvent(nm, e, l.eventId, l.number);
        PrefixCancels(SlotPrefix(nm, e), Padded(n), Padded(l.number));
        ParsedPadded(n);
        ParsedPadded(l.number);
    }
  }

  /** Listing an event's slot prefix meets exactly that event's slot keys. */
  lemma SlotPrefixSelectsSlots(nm: Naming, e: Id, k: Key)
    requires Proper(nm)
    ensures SlotPrefix(nm, e) <= Render(nm, k) <==> k.SlotKey? && k.eventId == e
  {
    FamilyIsVisible(nm, k);
    if SlotPrefix(nm, e) <= Render(nm, k) {
      assert SlotPrefix(nm, e)[0] == 's' && SlotPrefix(nm, e)[1] == 'l';
      SlotPrefixNamesEvent(nm, e, k.eventId, k.number);
    }
  }

  // ---------- The string store carries the typed store ----------

  ghost predicate Represents<V(!new)>(nm: Naming, m: Store<string, V>, s: Store<Key, V>) {
    && m.revision == s.revision
    && (forall k :: k in s.entries ==> Render(nm, k) in m.entries && m.entries[Render(nm, k)] == s.entries[k])
    && (forall x :: x in m.entries ==> exists k :: k in s.entries && Render(nm, k) == x)
  }

  function RenderOp<V>(nm: Naming, op: Op<Key, V>): Op<string, V> {
    match op
    case CreateOp(k, v) => CreateOp(Render(nm, k), v)
    case UpdateOp(k, v, r) => UpdateOp(Render(nm, k), v, r)
    case DeleteOp(k) => DeleteOp(Render(nm, k))
    case DeleteRevisionOp(k, r) => DeleteRevisionOp(Render(nm, k), r)
  }

  lemma SameKeyMet<V(!new)>(nm: Naming, m: Store<string, V>, s: Store<Key, V>, k: Key)
    requires Proper(nm) && Represents(nm, m, s)
    ensures k in s.entries <==> Render(nm, k) in m.entries
    ensures k in s.entries ==> m.entries[Render(nm, k)] == s.entries[k]
  {
    if Render(nm, k) in m.entries {
      var l :| l in s.entries && Render(nm, l) == Render(nm, k);
      RenderIsInjective(nm, l, k);
    }
  }

  lemma PutSimulates<V(!new)>(nm: Naming, m: Store<string, V>, s: Store<Key, V>, k: Key, v: V)
    requires Proper(nm) && Represents(nm, m, s)
    ensures Represents(nm, Put(m, Render(nm, k), v).0, Put(s, k, v).0)
  {
    var m', s' := Put(m, Render(nm, k), v).0, Put(s, k, v).0;
    forall l | l in s'.entries ensures Render(nm, l) in m'.entries && m'.entries[Render(nm, l)] == s'.entries[l] {
      if Render(nm, l) == Render(nm, k) {
        RenderIsInjective(nm, l, k);
      }
    }
    forall x | x in m'.entries ensures exists l :: l in s'.entries && Render(nm, l) == x {
      if x == Render(nm, k) {
        assert k in s'.entries;
      } else {
        var l :| l in s.entries && Render(nm, l) == x;
        assert l in s'.entries;
      }
    }
  }

  lemma RemoveSimulates<V(!new)>(nm: Naming, m: Store<string, V>, s: Store<Key, V>, k: Key)
    requires Proper(nm) && Represents(nm, m, s)
    ensures Represents(nm, Remove(m, Render(nm, k)).0, Remove(s, k).0)
  {
    var m', s' := Remove(m, Render(nm, k)).0, Remove(s, k).0;
    forall l | l in s'.entries ensures Render(nm, l) in m'.entries && m'.entries[Render(nm, l)] == s'.entries[l] {
      if Render(nm, l) == Render(nm, k) {
        RenderIsInjective(nm, l, k);
      }
    }
    forall x | x in m'.entries ensures exists l :: l in s'.entries && Render(nm, l) == x {
      var l :| l in s.entries && Render(nm, l) == x;
      assert l in s'.entries;
    }
  }

  /** Every store call behaves on spelled keys as it does on typed keys. */
  lemma StringStoreSimulatesTyped<V(!new)>(nm: Naming, m: Store<string, V>, s: Store<Key, V>, op: Op<Key, V>)
    requires Proper(nm) && Represents(nm, m, s)
    ensures Apply(m, RenderOp(nm, op)).1 == Apply(s, op).1
    ensures Represents(nm, Apply(m, RenderOp(nm, op)).0, Apply(s, op).0)
  {
    SameKeyMet(nm, m, s, op.key);
    if op.CreateOp? || op.UpdateOp? {
      PutSimulates(nm, m, s, op.key, op.value);
    } else {
      RemoveSimulates(nm, m, s, op.key);
    }
  }

  /** The whole history of a string store is the spelled history of a typed one. */
  lemma {:induction false} StringHistorySimulatesTyped<V(!new)>(
      nm: Naming, ops: seq<Op<Key, V>>, spelled: seq<Op<string, V>>)
    requires Proper(nm) && |spelled| == |ops|
    requires forall i :: 0 <= i < |ops| ==> spelled[i] == RenderOp(nm, ops[i])
    ensures Represents(nm, After(spelled), After(ops))
  {
    if ops != [] {
      var n := |ops| - 1;
      StringHistorySimulatesTyped(nm, ops[..n], spelled[..n]);
      StringStoreSimulatesTyped(nm, After(spelled[..n]), After(ops[..n]), ops[n]);
    }
  }

  /** A `List` of an event's slot prefix returns exactly that event's slots. */
  lemma ListReturnsExactlyTheSlots<V(!new)>(nm: Naming, m: Store<string, V>, s: Store<Key, V>, e: Id, x: string)
    requires Proper(nm) && Represents(nm, m, s)
    ensures x in MemoryStore.Listed(m.entries, SlotPrefix(nm, e)) <==>
            exists n: nat :: SlotKey(e, n) in s.entries && x == Render(nm, SlotKey(e, n))
  {
    if x in MemoryStore.Listed(m.entries, SlotPrefix(nm, e)) {
      var k :| k in s.entries && Render(nm, k) == x;
      SlotPrefixSelectsSlots(nm, e, k);
      assert k == SlotKey(e, k.number);
    }
    forall n: nat | SlotKey(e, n) in s.entries && x == Render(nm, SlotKey(e, n))
      ensures x in MemoryStore.Listed(m.entries, SlotPrefix(nm, e))
    {
      SlotPrefixSelectsSlots(nm, e, SlotKey(e, n));
    }
  }
}
