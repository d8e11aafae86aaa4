/**
 * Shared vocabulary of the client model: optional values, results, the
 * lifecycle states of defs.kt, decimal rendering of integers and the
 * ordered key/value lists that stand for the source's hash maps.
 */
module Common {

  datatype Option<+T> = None | Some(value: T)

  /** An operation that either yields a value or fails with a message (an exception in the source). */
  datatype Result<+T> = Ok(value: T) | Failure(error: string)

  /** The lifecycle states shared by transports and the engine socket. */
  datatype State = Init | Opening | Open | Closing | Closed | Paused

  /** The character of one decimal digit. */
  function Digit(d: nat): (c: char)
    requires d < 10
    ensures '0' <= c <= '9'
  {
    (d + 48) as char
  }

  /** Decimal rendering of a natural number, most significant digit first, without leading zeros. */
  function Decimal(n: nat): (r: string)
    ensures |r| > 0
    ensures forall i :: 0 <= i < |r| ==> '0' <= r[i] <= '9'
    ensures n >= 10 ==> r[0] != '0'
    decreases n
  {
    if n < 10 then [Digit(n)] else Decimal(n / 10) + [Digit(n % 10)]
  }

  /** Numeric value of a string of decimal digits; inverse of Decimal. */
  function DigitsValue(s: string): int
  {
    if |s| == 0 then 0 else DigitsValue(s[..|s| - 1]) * 10 + (s[|s| - 1] as int - 48)
  }

  lemma {:induction false} DecimalValue(n: nat)
    ensures DigitsValue(Decimal(n)) == n
    decreases n
  {
    if n >= 10 {
      DecimalValue(n / 10);
      var r := Decimal(n);
      assert r[..|r| - 1] == Decimal(n / 10);
    }
  }

  /** Decimal is injective: distinct numbers render differently. */
  lemma DecimalInjective(a: nat, b: nat)
    requires Decimal(a) == Decimal(b)
    ensures a == b
  {
    DecimalValue(a);
    DecimalValue(b);
  }

  /** Kotlin's `Int + Int`: the exact sum wrapped into the 32-bit two's-complement range. */
  function AddInt32(a: int, b: int): (r: int)
    ensures -0x8000_0000 <= r < 0x8000_0000
    ensures (a + b - r) % 0x1_0000_0000 == 0
    ensures -0x8000_0000 <= a + b < 0x8000_0000 ==> r == a + b
  {
    (a + b + 0x8000_0000) % 0x1_0000_0000 - 0x8000_0000
  }

  /** Two non-negative `Int`s whose exact sum exceeds `Int.MAX_VALUE` add up to a negative number. */
  lemma AddInt32Overflows(a: int, b: int)
    requires 0 <= a < 0x8000_0000 && 0 <= b < 0x8000_0000
    ensures AddInt32(a, b) < 0 <==> a + b >= 0x8000_0000
    ensures a + b >= 0x8000_0000 ==> AddInt32(a, b) == a + b - 0x1_0000_0000
  {
  }

  /** A hash map of the source, seen as its entries in iteration order (keys distinct). */
  type Entries<K, V> = seq<(K, V)>

  predicate DistinctKeys<K(==), V>(es: Entries<K, V>)
  {
    forall i, j :: 0 <= i < j < |es| ==> es[i].0 != es[j].0
  }

  function Keys<K, V>(es: Entries<K, V>): set<K>
  {
    set i | 0 <= i < |es| :: es[i].0
  }

  /** `map[key]`: the value stored under `k`, if any. */
  function Lookup<K(==), V>(es: Entries<K, V>, k: K): (r: Option<V>)
    ensures r.Some? <==> exists i :: 0 <= i < |es| && es[i].0 == k
  {
    if |es| == 0 then None
    else if es[0].0 == k then Some(es[0].1)
    else Lookup(es[1..], k)
  }

  lemma KeysCons<K, V>(x: (K, V), rest: Entries<K, V>)
    ensures Keys([x] + rest) == {x.0} + Keys(rest)
  {
    var r := [x] + rest;
    forall y | y in Keys(r) ensures y in {x.0} + Keys(rest) {
      var i :| 0 <= i < |r| && r[i].0 == y;
      if i > 0 { assert rest[i - 1].0 == y; }
    }
    forall y | y in Keys(rest) ensures y in Keys(r) {
      var i :| 0 <= i < |rest| && rest[i].0 == y;
      assert r[i + 1].0 == y;
    }
    assert r[0].0 == x.0;
  }

  /** A map's tail is a map, and its first key is not among the tail's. */
  lemma DistinctTail<K, V>(es: Entries<K, V>)
    requires |es| > 0
    ensures DistinctKeys(es) ==> DistinctKeys(es[1..]) && es[0].0 !in Keys(es[1..])
  {
    if DistinctKeys(es) {
      forall i | 0 <= i < |es[1..]| ensures es[1..][i].0 != es[0].0 {
        assert es[1..][i] == es[i + 1];
      }
    }
  }

  /** A new key in front of a map gives a map. */
  lemma DistinctCons<K, V>(x: (K, V), rest: Entries<K, V>)
    ensures DistinctKeys(rest) && x.0 !in Keys(rest) ==> DistinctKeys([x] + rest)
  {
    var r := [x] + rest;
    forall i, j | DistinctKeys(rest) && x.0 !in Keys(rest) && 0 <= i < j < |r| ensures r[i].0 != r[j].0 {
      assert r[j] == rest[j - 1];
      if i == 0 {
        assert r[j].0 in Keys(rest);
      } else {
        assert r[i] == rest[i - 1];
      }
    }
  }

  /** `map[key] = value`: replaces the value in place when the key exists, else appends a new entry. */
  function Put<K(==,!new), V>(es: Entries<K, V>, k: K, v: V): (r: Entries<K, V>)
    ensures Lookup(r, k) == Some(v)
    ensures forall k' :: k' != k ==> Lookup(r, k') == Lookup(es, k')
    ensures DistinctKeys(es) ==> DistinctKeys(r)
    ensures Keys(r) == Keys(es) + {k}
  {
    if |es| == 0 then [(k, v)]
    else
      assert es == [es[0]] + es[1..];
      KeysCons(es[0], es[1..]);
      if es[0].0 == k then
        KeysCons((k, v), es[1..]);
        DistinctTail(es);
        DistinctCons((k, v), es[1..]);
        [(k, v)] + es[1..]
      else
        var rest := Put(es[1..], k, v);
        KeysCons(es[0], rest);
        DistinctTail(es);
        DistinctCons(es[0], rest);
        [es[0]] + rest
  }

  /** Removing the element at `k` from a tail commutes with putting a head in front. */
  lemma SpliceCons<X>(x: X, t: seq<X>, k: nat)
    requires k < |t|
    ensures [x] + (t[..k] + t[k + 1..]) == ([x] + t)[..k + 1] + ([x] + t)[k + 2..]
  {
    assert ([x] + t)[..k + 1] == [x] + t[..k];
    assert ([x] + t)[k + 2..] == t[k + 1..];
  }

  /** A sequence is the prefix of anything appended to it. */
  lemma PrefixOfAppend<X>(a: seq<X>, b: seq<X>)
    ensures |a| <= |a + b| && (a + b)[..|a|] == a
  {
  }

  /** The same, for a sequence followed by two others. */
  lemma PrefixOfAppend3<X>(a: seq<X>, b: seq<X>, c: seq<X>)
    ensures |a| <= |a + b + c| && (a + b + c)[..|a|] == a
  {
    assert a + b + c == a + (b + c);
  }
}
