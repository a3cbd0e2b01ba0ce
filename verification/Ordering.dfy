/** Byte order on strings and sorted key lists: map iteration has no order, so everything
    the driver emits from a map goes through a sort. */
module Ordering {

  predicate Less(a: string, b: string) {
    if b == "" then false
    else if a == "" then true
    else if a[0] != b[0] then a[0] < b[0]
    else Less(a[1..], b[1..])
  }

  lemma {:induction false} LessTotal(a: string, b: string)
    requires a != b
    ensures Less(a, b) != Less(b, a)
  {
    if a != "" && b != "" && a[0] == b[0] {
      assert a == [a[0]] + a[1..] && b == [b[0]] + b[1..];
      LessTotal(a[1..], b[1..]);
    }
  }

  lemma {:induction false} LessIrreflexive(a: string)
    ensures !Less(a, a)
  {
    if a != "" {
      LessIrreflexive(a[1..]);
    }
  }

  lemma {:induction false} LessTransitive(a: string, b: string, c: string)
    requires Less(a, b) && Less(b, c)
    ensures Less(a, c)
  {
    if a != "" && a[0] == b[0] && b[0] == c[0] {
      LessTransitive(a[1..], b[1..], c[1..]);
    }
  }

  predicate Sorted(ks: seq<string>) {
    ks == [] || ((forall k | k in ks[1..] :: Less(ks[0], k)) && Sorted(ks[1..]))
  }

  function Insert(k: string, ks: seq<string>): (r: seq<string>)
    requires Sorted(ks) && k !in ks
    ensures Sorted(r) && (forall x :: x in r <==> x == k || x in ks)
  {
    if ks == [] then [k]
    else if Less(k, ks[0]) then
      assert forall x | x in ks :: Less(k, x) by { BelowAll(k, ks); }
      assert ([k] + ks)[1..] == ks;
      [k] + ks
    else
      assert Less(ks[0], k) by { LessTotal(k, ks[0]); }
      var rest := Insert(k, ks[1..]);
      assert ([ks[0]] + rest)[1..] == rest;
      [ks[0]] + rest
  }

  lemma BelowAll(k: string, ks: seq<string>)
    requires Sorted(ks) && ks != [] && Less(k, ks[0])
    ensures forall x | x in ks :: Less(k, x)
  {
    forall x | x in ks ensures Less(k, x) {
      if x != ks[0] {
        assert x in ks[1..];
        LessTransitive(k, ks[0], x);
      }
    }
  }

  /** The keys in ascending order. */
  ghost function SortedKeys(keys: set<string>): (ks: seq<string>)
    ensures Sorted(ks) && (forall k :: k in ks <==> k in keys)
  {
    if keys == {} then []
    else
      var k :| k in keys;
      Insert(k, SortedKeys(keys - {k}))
  }

  /** A set has one ascending order, so the order in which a map is ranged over is gone. */
  lemma {:induction false} SortedUnique(a: seq<string>, b: seq<string>)
    requires Sorted(a) && Sorted(b) && (forall k :: k in a <==> k in b)
    ensures a == b
  {
    if a != [] || b != [] {
      assert a != [] && b != [] by {
        assert a != [] ==> a[0] in a;
        assert b != [] ==> b[0] in b;
      }
      SameHead(a, b);
      forall k ensures k in a[1..] <==> k in b[1..] {
        InTail(a, k);
        InTail(b, k);
      }
      SortedUnique(a[1..], b[1..]);
      assert a == [a[0]] + a[1..] && b == [b[0]] + b[1..];
    }
  }

  lemma SameHead(a: seq<string>, b: seq<string>)
    requires Sorted(a) && Sorted(b) && a != [] && b != [] && (forall k :: k in a <==> k in b)
    ensures a[0] == b[0]
  {
    InTail(a, b[0]);
    InTail(b, a[0]);
    assert a[0] in a && b[0] in b;
    if a[0] != b[0] {
      LessTotal(a[0], b[0]);
    }
  }

  lemma InTail(a: seq<string>, k: string)
    requires Sorted(a) && a != []
    ensures k in a[1..] <==> k in a && k != a[0]
  {
    LessIrreflexive(a[0]);
    assert a == [a[0]] + a[1..];
  }

  /** Ranging over a map and sorting what comes out. */
  method SortKeys<V>(m: map<string, V>) returns (ks: seq<string>)
    ensures ks == SortedKeys(m.Keys)
  {
    ks := [];
    var todo := m.Keys;
    while todo != {}
      invariant todo <= m.Keys && Sorted(ks)
      invariant forall k :: k in ks <==> k in m.Keys - todo
      decreases |todo|
    {
      var k :| k in todo;
      ks := Insert(k, ks);
      todo := todo - {k};
    }
    SortedUnique(ks, SortedKeys(m.Keys));
  }
}
