/**
 * Python's `dict` as the proposal generator uses it: a map that remembers the
 * order in which its keys were first inserted. Assigning to a key that is
 * already present replaces the value and keeps the key's position.
 */
module PyDicts {

  /** No element of `s` appears twice. */
  predicate Distinct<T(==)>(s: seq<T>) {
    forall i, j :: 0 <= i < j < |s| ==> s[i] != s[j]
  }

  /** An insertion-ordered dictionary: `keys` in insertion order, `vals` the contents. */
  datatype Dict<K(==,!new), V> = Dict(keys: seq<K>, vals: map<K, V>) {

    /** The representation invariant every Python dict satisfies. */
    ghost predicate Valid() {
      Distinct(keys) && forall k :: k in vals <==> k in keys
    }

    /** Python's `len(d)`. */
    function Len(): nat {
      |keys|
    }

    /** Python's `d.get(k, default)`. */
    function Get(k: K, default: V): (v: V)
      ensures k in vals ==> v == vals[k]
      ensures k !in vals ==> v == default
    {
      if k in vals then vals[k] else default
    }
  }

  /** Python's `{}`. */
  function Empty<K(==,!new), V>(): (d: Dict<K, V>)
    ensures d.Valid() && d.keys == [] && d.vals == map[]
  {
    Dict([], map[])
  }

  /**
   * Python's `d[k] = v`: the key keeps its position when present and is
   * appended otherwise; the result is again a valid dict.
   */
  function Put<K(==,!new), V>(d: Dict<K, V>, k: K, v: V): (r: Dict<K, V>)
    requires d.Valid()
    ensures r.Valid()
    ensures r.vals == d.vals[k := v]
    ensures k in d.vals ==> r.keys == d.keys
    ensures k !in d.vals ==> r.keys == d.keys + [k]
  {
    if k in d.vals then Dict(d.keys, d.vals[k := v])
    else Dict(d.keys + [k], d.vals[k := v])
  }

  /** Appending three elements one at a time appends the three of them. */
  lemma AnexarTres<T>(xs: seq<T>, a: T, b: T, c: T)
    ensures xs + [a] + [b] + [c] == xs + [a, b, c]
  {
  }

  /** Appending five elements one at a time appends the five of them. */
  lemma AnexarCinco<T>(xs: seq<T>, a: T, b: T, c: T, d: T, e: T)
    ensures xs + [a] + [b] + [c] + [d] + [e] == xs + [a, b, c, d, e]
  {
  }

  /** A sequence without its later repetitions: each element where it first appears. */
  function Dedup<T(==,!new)>(xs: seq<T>): (r: seq<T>)
    ensures Distinct(r)
    ensures forall x :: x in r <==> x in xs
    ensures |r| <= |xs|
    decreases |xs|
  {
    if xs == [] then []
    else
      var front := Dedup(xs[..|xs| - 1]);
      var last := xs[|xs| - 1];
      assert xs == xs[..|xs| - 1] + [last];
      if last in front then front else front + [last]
  }

  /** Removing repetitions from a longer sequence looks only at the new last element. */
  lemma DedupSnoc<T(!new)>(xs: seq<T>, x: T)
    ensures Dedup(xs + [x]) == if x in Dedup(xs) then Dedup(xs) else Dedup(xs) + [x]
  {
    assert (xs + [x])[..|xs + [x]| - 1] == xs;
  }

  /**
   * Removing repetitions keeps first-seen order: wherever the `b`-th element
   * of `Dedup(xs)` occurs in `xs`, every element listed before it has already
   * occurred.
   */
  lemma {:induction false} DedupOrden<T(!new)>(xs: seq<T>, a: nat, b: nat, i: nat)
    requires a < b < |Dedup(xs)| && i < |xs| && xs[i] == Dedup(xs)[b]
    ensures Dedup(xs)[a] in xs[..i]
    decreases |xs|
  {
    var front := xs[..|xs| - 1];
    var last := xs[|xs| - 1];
    var d := Dedup(front);
    assert xs == front + [last];
    DedupSnoc(front, last);
    if i < |xs| - 1 {
      assert xs[..i] == front[..i];
      if b < |d| {
        DedupOrden(front, a, b, i);
      }
    } else {
      assert Dedup(xs)[a] in d;
    }
  }

  /** A sequence without repetitions has as many elements as its set. */
  lemma {:induction false} DistinctCardinality<T>(s: seq<T>)
    requires Distinct(s)
    ensures |set x | x in s| == |s|
    decreases |s|
  {
    if s != [] {
      var last := s[|s| - 1];
      var front := s[..|s| - 1];
      assert Distinct(front);
      DistinctCardinality(front);
      assert last !in front;
      assert (set x | x in s) == (set x | x in front) + {last};
    }
  }

  /** Removing repetitions leaves one element per distinct value. */
  lemma DedupLength<T(!new)>(xs: seq<T>)
    ensures |Dedup(xs)| == |set x | x in xs|
  {
    DistinctCardinality(Dedup(xs));
    assert (set x | x in Dedup(xs)) == (set x | x in xs);
  }

  /** `p` is a prefix of `k`. */
  predicate HasPrefix(k: string, p: string) {
    |p| <= |k| && k[..|p|] == p
  }

  /** `p + n` for every name `n`, in order (the keys the source builds with f-strings). */
  function Prefixed(p: string, names: seq<string>): (r: seq<string>)
    ensures |r| == |names|
    ensures forall i :: 0 <= i < |names| ==> r[i] == p + names[i]
  {
    seq(|names|, i requires 0 <= i < |names| => p + names[i])
  }

  /** Prefixing the same text keeps distinct names distinct. */
  lemma PrefixedInjective(p: string, a: string, b: string)
    requires p + a == p + b
    ensures a == b
  {
    assert a == (p + a)[|p|..];
    assert b == (p + b)[|p|..];
  }

  /** Prefixed names are as many as the distinct names. */
  lemma PrefixedDistinctCount(p: string, names: seq<string>)
    ensures |Dedup(Prefixed(p, names))| == |set n | n in names|
  {
    var ks := Prefixed(p, names);
    DedupLength(ks);
    var keySet := set k | k in ks;
    var nameSet := set n | n in names;
    var f := (n: string) => p + n;
    assert keySet == set n | n in nameSet :: f(n) by {
      forall k | k in keySet ensures k in set n | n in nameSet :: f(n) {
        var i :| 0 <= i < |ks| && ks[i] == k;
        assert names[i] in nameSet;
      }
    }
    forall a, b | a in nameSet && b in nameSet && f(a) == f(b) ensures a == b {
      PrefixedInjective(p, a, b);
    }
    InjectiveImageCardinality(nameSet, f);
  }

  /** An injective function maps a set onto a set of the same size. */
  lemma {:induction false} InjectiveImageCardinality(s: set<string>, f: string -> string)
    requires forall a, b :: a in s && b in s && f(a) == f(b) ==> a == b
    ensures |set n | n in s :: f(n)| == |s|
    decreases |s|
  {
    if s != {} {
      var x :| x in s;
      var rest := s - {x};
      InjectiveImageCardinality(rest, f);
      assert (set n | n in s :: f(n)) == (set n | n in rest :: f(n)) + {f(x)};
      assert f(x) !in (set n | n in rest :: f(n));
    }
  }

  /** What the loop of `PutEach` has built after its first `i` names. */
  ghost predicate PutEachDone<V>(d: Dict<string, V>, p: string, names: seq<string>, value: string -> V,
                                 i: nat, r: Dict<string, V>)
    requires i <= |names|
  {
    && r.Valid()
    && r.keys == d.keys + Dedup(Prefixed(p, names[..i]))
    && (forall k :: k in d.vals ==> k in r.vals && r.vals[k] == d.vals[k])
    && (forall j :: 0 <= j < i ==> p + names[j] in r.vals && r.vals[p + names[j]] == value(names[j]))
  }

  /** One turn of the loop of `PutEach` keeps `PutEachDone`. */
  lemma PutEachStep<V>(d: Dict<string, V>, p: string, names: seq<string>, value: string -> V,
                       i: nat, r: Dict<string, V>)
    requires i < |names|
    requires d.Valid() && forall k :: k in d.keys ==> !HasPrefix(k, p)
    requires PutEachDone(d, p, names, value, i, r)
    ensures PutEachDone(d, p, names, value, i + 1, Put(r, p + names[i], value(names[i])))
  {
    var k := p + names[i];
    assert HasPrefix(k, p) by { assert k[..|p|] == p; }
    assert k !in d.vals;
    var r' := Put(r, k, value(names[i]));
    PutEachStepKeys(d.keys, p, names, i, r.keys, k in r.vals);
    forall j | 0 <= j < i + 1
      ensures p + names[j] in r'.vals && r'.vals[p + names[j]] == value(names[j])
    {
      if j < i && p + names[j] == k {
        PrefixedInjective(p, names[j], names[i]);
      }
    }
  }

  /** The key order after one more turn of the loop of `PutEach`. */
  lemma PutEachStepKeys(old0: seq<string>, p: string, names: seq<string>, i: nat, keys: seq<string>, present: bool)
    requires i < |names|
    requires p + names[i] !in old0
    requires keys == old0 + Dedup(Prefixed(p, names[..i]))
    requires present <==> p + names[i] in keys
    ensures (if present then keys else keys + [p + names[i]]) == old0 + Dedup(Prefixed(p, names[..i + 1]))
  {
    var k := p + names[i];
    assert Prefixed(p, names[..i + 1]) == Prefixed(p, names[..i]) + [k];
    DedupSnoc(Prefixed(p, names[..i]), k);
  }

  /**
   * The loop `for n in names: d[p + n] = value(n)`. When no key already in
   * the dict starts with `p`, the new keys follow the old ones in first-seen
   * order, old entries keep their values, and each new key maps to the value
   * of its name.
   */
  method PutEach<V>(d: Dict<string, V>, p: string, names: seq<string>, value: string -> V)
    returns (r: Dict<string, V>)
    requires d.Valid()
    requires forall k :: k in d.keys ==> !HasPrefix(k, p)
    ensures r.Valid()
    ensures r.keys == d.keys + Dedup(Prefixed(p, names))
    ensures forall k :: k in d.vals ==> k in r.vals && r.vals[k] == d.vals[k]
    ensures forall i :: 0 <= i < |names| ==> p + names[i] in r.vals && r.vals[p + names[i]] == value(names[i])
  {
    r := d;
    for i := 0 to |names|
      invariant PutEachDone(d, p, names, value, i, r)
    {
      PutEachStep(d, p, names, value, i, r);
      r := Put(r, p + names[i], value(names[i]));
    }
    assert names[..|names|] == names;
  }
}
