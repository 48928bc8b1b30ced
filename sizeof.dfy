/**
 * The size estimator of the log system: an approximate byte footprint
 * ("cost") of any JSON-shaped value, used to account for the log buffer.
 *
 * A JavaScript value is modelled by `Value`. An object is the sequence of its
 * own enumerable properties in `Object.keys` order; an array is the sequence
 * of its elements, whose keys are the decimal index strings "0", "1", ...
 */
module SizeOf {

  datatype Option<T> = None | Some(value: T)

  /** The JSON-shaped values `sizeof` accepts (the `typeof` answers it knows). */
  datatype Value =
    | Undef
    | Bool(b: bool)
    | Num(n: int)
    | Str(s: string)
    | Null
    | Obj(fields: seq<(string, Value)>)
    | Arr(elems: seq<Value>)

  /** A JavaScript object never holds the same key twice. */
  predicate DistinctKeys(fs: seq<(string, Value)>) {
    forall i, j :: 0 <= i < j < |fs| ==> fs[i].0 != fs[j].0
  }

  /** Property access `o[k]` on an object: the value stored under `k`, if any. */
  function Lookup(fs: seq<(string, Value)>, k: string): (r: Option<Value>)
    ensures r.Some? <==> exists i :: 0 <= i < |fs| && fs[i].0 == k
    ensures r.Some? ==> exists i :: 0 <= i < |fs| && fs[i] == (k, r.value)
  {
    if fs == [] then None
    else if fs[0].0 == k then Some(fs[0].1)
    else
      var r := Lookup(fs[1..], k);
      assert r.Some? ==> exists i :: 0 <= i < |fs[1..]| && fs[1..][i] == (k, r.value);
      assert (exists i :: 0 <= i < |fs[1..]| && fs[1..][i].0 == k) <==>
             (exists i :: 1 <= i < |fs| && fs[i].0 == k);
      r
  }

  /** In an object with distinct keys, looking up any of its keys finds the value stored there. */
  lemma LookupDistinct(fs: seq<(string, Value)>, i: nat)
    requires DistinctKeys(fs) && i < |fs|
    ensures Lookup(fs, fs[i].0) == Some(fs[i].1)
  {
  }

  // ---------------------------------------------------------------------
  // Decimal index strings: the keys `Object.keys` gives an array.
  // ---------------------------------------------------------------------

  function Digit(d: nat): (c: char)
    requires d < 10
    ensures '0' <= c <= '9' && (c as int) - ('0' as int) == d
  {
    "0123456789"[d]
  }

  predicate IsDigits(s: string) {
    forall i :: 0 <= i < |s| ==> '0' <= s[i] <= '9'
  }

  /** The decimal string of `n`, without leading zeros: what `String(n)` gives. */
  function Decimal(n: nat): (s: string)
    ensures 1 <= |s| && IsDigits(s)
    ensures |s| == 1 <==> n < 10
    ensures s[0] == '0' ==> n == 0
    decreases n
  {
    if n < 10 then [Digit(n)] else Decimal(n / 10) + [Digit(n % 10)]
  }

  /** Reads a string of digits as a number (the reference for `Decimal`). */
  function DigitsValue(s: string): nat
    requires IsDigits(s)
  {
    if s == [] then 0
    else DigitsValue(s[..|s| - 1]) * 10 + ((s[|s| - 1] as int) - ('0' as int))
  }

  /** Reading back the index string of `n` gives `n`. */
  lemma {:induction false} DecimalRoundTrip(n: nat)
    ensures DigitsValue(Decimal(n)) == n
    decreases n
  {
    if n >= 10 {
      var s := Decimal(n);
      assert s[..|s| - 1] == Decimal(n / 10);
      DecimalRoundTrip(n / 10);
    }
  }

  /** Distinct indices have distinct keys. */
  lemma DecimalInjective(m: nat, n: nat)
    ensures Decimal(m) == Decimal(n) ==> m == n
  {
    DecimalRoundTrip(m);
    DecimalRoundTrip(n);
  }

  // ---------------------------------------------------------------------
  // The estimator.
  // ---------------------------------------------------------------------

  /** Cost of a string: two bytes per character. */
  function StrCost(s: string): int {
    2 * |s|
  }

  /**
   * `sizeof(v)`: 0 for undefined and null, 4 for a boolean, 8 for a number,
   * twice the length for a string, and for an object or an array the sum over
   * its keys of the key's cost plus the cost of the value stored there.
   */
  function Sizeof(v: Value): (r: int)
    ensures r >= 0
    ensures v.Str? ==> r == StrCost(v.s)
    decreases v, 1
  {
    match v
    case Undef => 0
    case Bool(_) => 4
    case Num(_) => 8
    case Str(s) => StrCost(s)
    case Null => 0
    case Obj(fs) => FieldsCost(fs)
    case Arr(es) => ElementsCost(es)
  }

  /**
   * `Object.keys(i).reduce((t, k) => f(k) + f(i[k]) + t, 0)` on an object:
   * a left fold, so the last key is added to the total of the keys before it.
   */
  function FieldsCost(fs: seq<(string, Value)>): (r: int)
    ensures r >= 0
    ensures fs == [] ==> r == 0
    decreases fs, 0
  {
    if fs == [] then 0
    else
      var last := fs[|fs| - 1];
      assert last in fs && last.1 < last;
      StrCost(last.0) + Sizeof(last.1) + FieldsCost(fs[..|fs| - 1])
  }

  /** The same fold on an array, whose key at position `i` is `Decimal(i)`. */
  function ElementsCost(es: seq<Value>): (r: int)
    ensures r >= 0
    ensures es == [] ==> r == 0
    decreases es, 0
  {
    if es == [] then 0
    else
      var i := |es| - 1;
      StrCost(Decimal(i)) + Sizeof(es[i]) + ElementsCost(es[..i])
  }

  // ---------------------------------------------------------------------
  // Properties of the estimator.
  // ---------------------------------------------------------------------

  /** The fixed costs of the scalar kinds, and the cost of empty composites. */
  lemma ScalarCosts(b: bool, n: int)
    ensures Sizeof(Undef) == 0 && Sizeof(Null) == 0
    ensures Sizeof(Bool(b)) == 4 && Sizeof(Num(n)) == 8
    ensures Sizeof(Obj([])) == 0 && Sizeof(Arr([])) == 0
  {
  }

  /** A string costs twice its length: always even, and linear in the length. */
  lemma StringCost(s: string, t: string)
    ensures Sizeof(Str(s)) == 2 * |s| && Sizeof(Str(s)) % 2 == 0
    ensures Sizeof(Str(s + t)) == Sizeof(Str(s)) + Sizeof(Str(t))
  {
  }

  /** Adding a property to an object adds the cost of its key and its value. */
  lemma ObjAppend(fs: seq<(string, Value)>, k: string, v: Value)
    ensures Sizeof(Obj(fs + [(k, v)])) == Sizeof(Obj(fs)) + 2 * |k| + Sizeof(v)
  {
    assert (fs + [(k, v)])[..|fs|] == fs;
  }

  /** Pushing `x` onto an array adds the cost of the new index key and of `x`. */
  lemma ArrAppend(es: seq<Value>, x: Value)
    ensures Sizeof(Arr(es + [x])) == Sizeof(Arr(es)) + 2 * |Decimal(|es|)| + Sizeof(x)
  {
    assert (es + [x])[..|es|] == es;
  }

  /** The fold over two runs of properties is the sum of the two folds. */
  lemma {:induction false} FieldsCostConcat(a: seq<(string, Value)>, b: seq<(string, Value)>)
    ensures FieldsCost(a + b) == FieldsCost(a) + FieldsCost(b)
    decreases |b|
  {
    if b == [] {
      assert a + b == a;
    } else {
      var b' := b[..|b| - 1];
      assert (a + b)[..|a + b| - 1] == a + b';
      var last := b[|b| - 1];
      assert (a + b)[|a + b| - 1] == last;
      FieldsCostConcat(a, b');
      calc {
        FieldsCost(a + b);
        StrCost(last.0) + Sizeof(last.1) + FieldsCost(a + b');
        StrCost(last.0) + Sizeof(last.1) + FieldsCost(a) + FieldsCost(b');
        FieldsCost(a) + FieldsCost(b);
      }
    }
  }

  /**
   * The cost does not depend on the order of the keys: any reordering of an
   * object's properties has the same cost.
   */
  lemma {:induction false} ObjOrderIndependent(fs: seq<(string, Value)>, gs: seq<(string, Value)>)
    requires multiset(fs) == multiset(gs)
    ensures Sizeof(Obj(fs)) == Sizeof(Obj(gs))
    decreases |fs|
  {
    if fs != [] {
      var last := fs[|fs| - 1];
      var init := fs[..|fs| - 1];
      assert fs == init + [last];
      assert last in multiset(gs);
      var j :| 0 <= j < |gs| && gs[j] == last;
      var rest := gs[..j] + gs[j + 1..];
      assert gs == gs[..j] + [last] + gs[j + 1..];
      assert multiset(fs) == multiset(init) + multiset{last};
      assert multiset(gs) == multiset(gs[..j]) + multiset{last} + multiset(gs[j + 1..]);
      assert multiset(rest) == multiset(gs[..j]) + multiset(gs[j + 1..]);
      assert multiset(init) == multiset(fs) - multiset{last};
      assert multiset(rest) == multiset(gs) - multiset{last};
      ObjOrderIndependent(init, rest);
      FieldsCostConcat(gs[..j] + [last], gs[j + 1..]);
      FieldsCostConcat(gs[..j], [last]);
      FieldsCostConcat(gs[..j], gs[j + 1..]);
    } else {
      assert |gs| == |multiset(gs)| == 0;
    }
  }

  /** The array's elements keyed by their decimal index strings, as `Object.keys` lists them. */
  function Indexed(es: seq<Value>): (fs: seq<(string, Value)>)
    ensures |fs| == |es|
    ensures forall i :: 0 <= i < |es| ==> fs[i] == (Decimal(i), es[i])
  {
    seq(|es|, i requires 0 <= i < |es| => (Decimal(i), es[i]))
  }

  /** An array's index keys are distinct, so its indexed view is a well-formed object. */
  lemma IndexedKeysDistinct(es: seq<Value>)
    ensures DistinctKeys(Indexed(es))
  {
    forall i, j | 0 <= i < j < |es| ensures Indexed(es)[i].0 != Indexed(es)[j].0 {
      DecimalInjective(i, j);
    }
  }

  /** An array costs exactly what the object with keys "0", "1", ... and the same values costs. */
  lemma {:induction false} ArrayAsObject(es: seq<Value>)
    ensures Sizeof(Arr(es)) == Sizeof(Obj(Indexed(es)))
    decreases |es|
  {
    if es != [] {
      var i := |es| - 1;
      assert Indexed(es)[..i] == Indexed(es[..i]);
      ArrayAsObject(es[..i]);
    }
  }
}
