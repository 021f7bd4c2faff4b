/** Ruby's insertion-ordered Hash, reduced to what the request assembly uses:
    `h[k]`, `delete`, `merge`, and the truthiness that `||` tests. */
module RubyHash {

  /** Hash keys (Ruby symbols), identified by their names. */
  type Key = string

  /** The Ruby values a parameter or options hash holds; `Nil` is Ruby's nil. */
  datatype Value =
    | Nil
    | Bool(b: bool)
    | Int(i: int)
    | Str(s: string)
    | List(items: seq<Value>)
    | Object(fields: seq<(Key, Value)>)

  /** The pairs of a hash in insertion order. */
  type Entries = seq<(Key, Value)>

  function Keys(e: Entries): (ks: seq<Key>)
    ensures |ks| == |e|
  {
    if e == [] then [] else [e[0].0] + Keys(e[1..])
  }

  /** A Ruby hash never holds a key twice. */
  predicate DistinctKeys(e: Entries) {
    e == [] || (e[0].0 !in Keys(e[1..]) && DistinctKeys(e[1..]))
  }

  /** `h[k]`: the value stored under `k`, or nil when `k` is absent. */
  function Lookup(e: Entries, k: Key): (v: Value)
    ensures k !in Keys(e) ==> v == Nil
  {
    if e == [] then Nil
    else if e[0].0 == k then e[0].1
    else Lookup(e[1..], k)
  }

  /** The value a merge onto the default `d` leaves under `k`: the caller's
      value when the caller's hash has the key (even a nil one), else `d`. */
  function ValueOr(e: Entries, k: Key, d: Value): Value {
    if k in Keys(e) then Lookup(e, k) else d
  }

  /** Ruby truthiness: everything except nil and false. */
  predicate Truthy(v: Value) {
    v != Nil && v != Bool(false)
  }

  /** Ruby's `a || b`: `a` when it is truthy, otherwise `b`, whatever `b` is. */
  function Or(a: Value, b: Value): (r: Value)
    ensures Truthy(a) ==> r == a
    ensures !Truthy(a) ==> r == b
    ensures Truthy(r) <==> Truthy(a) || Truthy(b)
  {
    if Truthy(a) then a else b
  }

  /** Storing `v` under `k` into a copy: an existing key keeps its position
      and takes the new value, a new key is appended at the end. */
  function Store(e: Entries, k: Key, v: Value): (r: Entries)
    ensures Keys(r) == if k in Keys(e) then Keys(e) else Keys(e) + [k]
    ensures Lookup(r, k) == v
    ensures forall j :: j != k ==> Lookup(r, j) == Lookup(e, j)
    ensures DistinctKeys(e) ==> DistinctKeys(r)
  {
    if e == [] then [(k, v)]
    else if e[0].0 == k then [(k, v)] + e[1..]
    else [e[0]] + Store(e[1..], k, v)
  }

  /** `a.merge(b)`: a new hash made by storing b's pairs, in b's order, into a copy of a. */
  function Merge(a: Entries, b: Entries): (r: Entries)
    ensures forall k :: k in Keys(r) <==> k in Keys(a) || k in Keys(b)
    ensures forall k :: k !in Keys(b) ==> Lookup(r, k) == Lookup(a, k)
    ensures DistinctKeys(b) ==> forall k :: k in Keys(b) ==> Lookup(r, k) == Lookup(b, k)
    ensures DistinctKeys(a) ==> DistinctKeys(r)
    decreases |b|
  {
    if b == [] then a else Merge(Store(a, b[0].0, b[0].1), b[1..])
  }

  /** The pairs of `e` other than the one under `k`, in their order: what `delete(k)` leaves. */
  function Without(e: Entries, k: Key): (r: Entries)
    ensures k !in Keys(r)
    ensures forall j :: j != k ==> (j in Keys(r) <==> j in Keys(e)) && Lookup(r, j) == Lookup(e, j)
    ensures k !in Keys(e) ==> r == e
    ensures DistinctKeys(e) ==> DistinctKeys(r)
  {
    if e == [] then []
    else if e[0].0 == k then Without(e[1..], k)
    else [e[0]] + Without(e[1..], k)
  }

  /** Deleting a key the hash holds cuts out exactly the one pair under it:
      the pairs before it and the pairs after it stay, in their order. */
  lemma {:induction false} WithoutRemovesOne(e: Entries, k: Key) returns (i: nat)
    requires DistinctKeys(e)
    requires k in Keys(e)
    ensures i < |e| && e[i].0 == k
    ensures Without(e, k) == e[..i] + e[i+1..]
  {
    assert Keys(e) == [e[0].0] + Keys(e[1..]);
    if e[0].0 == k {
      i := 0;
      assert Without(e[1..], k) == e[1..];
    } else {
      var j := WithoutRemovesOne(e[1..], k);
      i := j + 1;
      assert e[..i] == [e[0]] + e[1..][..j];
      assert e[i+1..] == e[1..][j+1..];
    }
  }

  /** `e.merge({k => v})` is storing `v` under `k`. */
  lemma MergeOne(e: Entries, k: Key, v: Value)
    ensures Merge(e, [(k, v)]) == Store(e, k, v)
  {
    assert [(k, v)][1..] == [];
  }

  /** Storing a key the hash does not have appends it. */
  lemma {:induction false} StoreAppends(e: Entries, k: Key, v: Value)
    requires k !in Keys(e)
    ensures Store(e, k, v) == e + [(k, v)]
  {
    if e != [] {
      assert Keys(e) == [e[0].0] + Keys(e[1..]);
      StoreAppends(e[1..], k, v);
      assert Store(e, k, v) == [e[0]] + (e[1..] + [(k, v)]);
      assert e == [e[0]] + e[1..];
    }
  }

  /** Merging in a hash whose keys are all new appends its pairs in order. */
  lemma {:induction false} MergeAppends(a: Entries, b: Entries)
    requires DistinctKeys(b)
    requires forall k :: k in Keys(b) ==> k !in Keys(a)
    ensures Merge(a, b) == a + b
    decreases |b|
  {
    if b != [] {
      var k0 := b[0].0;
      assert Keys(b) == [k0] + Keys(b[1..]);
      assert k0 !in Keys(a);
      StoreAppends(a, k0, b[0].1);
      var a' := a + [b[0]];
      KeysAppend(a, b[0]);
      forall k | k in Keys(b[1..])
        ensures k !in Keys(a')
      {
        assert k != k0 && k in Keys(b);
      }
      assert Store(a, k0, b[0].1) == a';
      assert Merge(a, b) == Merge(a', b[1..]);
      MergeAppends(a', b[1..]);
      SplitFirst(a, b);
    }
  }

  /** Moving the first element of `b` onto the end of `a` keeps `a + b`. */
  lemma SplitFirst<T>(a: seq<T>, b: seq<T>)
    requires b != []
    ensures (a + [b[0]]) + b[1..] == a + b
  {
  }

  /** The keys of a hash with one pair appended. */
  lemma {:induction false} KeysAppend(e: Entries, p: (Key, Value))
    ensures Keys(e + [p]) == Keys(e) + [p.0]
  {
    if e != [] {
      assert (e + [p])[1..] == e[1..] + [p];
      KeysAppend(e[1..], p);
    }
  }

  /** Merging onto a hash that starts with `k`: `k` stays first and takes
      the merged-in value if there is one; the rest merges without `k`. */
  lemma {:induction false} MergeUnderLeading(k: Key, d: Value, x: Entries, p: Entries)
    requires k !in Keys(x)
    requires DistinctKeys(p)
    ensures Merge([(k, d)] + x, p) == [(k, ValueOr(p, k, d))] + Merge(x, Without(p, k))
    decreases |p|
  {
    if p == [] {
    } else {
      var j, v := p[0].0, p[0].1;
      var h := [(k, d)] + x;
      assert h[0].0 == k && h[1..] == x;
      if j == k {
        assert Store(h, j, v) == [(k, v)] + x;
        MergeUnderLeading(k, v, x, p[1..]);
        assert k !in Keys(p[1..]);
      } else {
        assert Store(h, j, v) == [(k, d)] + Store(x, j, v);
        MergeUnderLeading(k, d, Store(x, j, v), p[1..]);
        assert Without(p, k) == [(j, v)] + Without(p[1..], k);
        assert Merge(x, Without(p, k)) == Merge(Store(x, j, v), Without(p[1..], k));
      }
    }
  }

  /** `{k => d}.merge(p)`: `k` comes first, holding p's value when p has `k`
      and `d` otherwise; p's other pairs follow in p's order. */
  lemma MergeOntoDefault(k: Key, d: Value, p: Entries)
    requires DistinctKeys(p)
    ensures Merge([(k, d)], p) == [(k, ValueOr(p, k, d))] + Without(p, k)
  {
    MergeUnderLeading(k, d, [], p);
    assert [(k, d)] + [] == [(k, d)];
    MergeAppends([], Without(p, k));
    assert [] + Without(p, k) == Without(p, k);
  }

  /** `{k1 => d1, k2 => d2}.merge(p)`: `k1` then `k2` lead, each holding
      p's value when p has it; p's other pairs follow in p's order. */
  lemma MergeOntoDefaults(k1: Key, d1: Value, k2: Key, d2: Value, p: Entries)
    requires k1 != k2
    requires DistinctKeys(p)
    ensures Merge([(k1, d1), (k2, d2)], p)
         == [(k1, ValueOr(p, k1, d1)), (k2, ValueOr(p, k2, d2))] + Without(Without(p, k1), k2)
  {
    assert [(k1, d1), (k2, d2)] == [(k1, d1)] + [(k2, d2)];
    MergeUnderLeading(k1, d1, [(k2, d2)], p);
    MergeOntoDefault(k2, d2, Without(p, k1));
  }

  /** Deleting two keys leaves the same hash in either order. */
  lemma {:induction false} WithoutCommutes(e: Entries, a: Key, b: Key)
    ensures Without(Without(e, a), b) == Without(Without(e, b), a)
  {
    if e != [] {
      WithoutCommutes(e[1..], a, b);
    }
  }

  /** A Ruby hash object whose pairs its methods change in place. */
  class Hash {
    var entries: Entries

    ghost predicate Valid()
      reads this
    {
      DistinctKeys(entries)
    }

    constructor (e: Entries)
      requires DistinctKeys(e)
      ensures Valid() && entries == e
    {
      entries := e;
    }

    /** `h.delete(k)`: removes `k` in place and returns its value, or nil. */
    method Delete(k: Key) returns (v: Value)
      requires Valid()
      modifies this
      ensures Valid()
      ensures v == Lookup(old(entries), k)
      ensures entries == Without(old(entries), k)
      ensures k !in Keys(entries)
    {
      v := Lookup(entries, k);
      entries := Without(entries, k);
    }
  }
}
