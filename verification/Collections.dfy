/** Listings of dictionaries, and dictionaries filled by repeated assignment. */
module Collections {

  datatype Entry<V> = Entry(key: string, value: V)

  /** The keys and the values of a dictionary, in one of its possible orders. */
  ghost predicate Lists<V>(ks: seq<string>, vs: seq<V>, m: map<string, V>) {
    && |ks| == |vs|
    && (forall i :: 0 <= i < |ks| ==> ks[i] in m && vs[i] == m[ks[i]])
    && (forall i, j :: 0 <= i < j < |ks| ==> ks[i] != ks[j])
    && (forall k :: k in m ==> k in ks)
  }

  method Values<V>(m: map<string, V>) returns (ghost ks: seq<string>, vs: seq<V>)
    ensures Lists(ks, vs, m)
  {
    ks, vs := [], [];
    var todo := m;
    ghost var done: map<string, V> := map[];
    while todo.Keys != {}
      invariant done.Keys !! todo.Keys && done + todo == m
      invariant Lists(ks, vs, done)
      decreases todo.Keys
    {
      var k :| k in todo.Keys;
      ks, vs, done := ks + [k], vs + [todo[k]], done[k := todo[k]];
      todo := todo - {k};
    }
    assert done == m;
  }

  lemma ListsLess<V>(ks: seq<string>, vs: seq<V>, m: map<string, V>)
    requires Lists(ks, vs, m) && ks != []
    ensures Lists(ks[1..], vs[1..], m - {ks[0]})
  {
    forall k | k in m - {ks[0]}
      ensures k in ks[1..]
    {
      var i :| 0 <= i < |ks| && ks[i] == k;
      assert ks[1..][i - 1] == k;
    }
  }

  /** The values of a dictionary, each as often as it occurs. */
  ghost function Bag(m: map<string, string>): (b: multiset<string>)
    decreases m.Keys
  {
    if m.Keys == {} then multiset{}
    else
      var k :| k in m.Keys;
      multiset{m[k]} + Bag(m - {k})
  }

  lemma BagPicks(m: map<string, string>) returns (k: string)
    requires m.Keys != {}
    ensures k in m && Bag(m) == multiset{m[k]} + Bag(m - {k})
  {
    k :| k in m.Keys && Bag(m) == multiset{m[k]} + Bag(m - {k});
  }

  lemma BagTakes(m: map<string, string>, k: string)
    requires k in m
    ensures Bag(m) == multiset{m[k]} + Bag(m - {k})
    decreases m.Keys
  {
    hide Bag;
    var c := BagPicks(m);
    if c != k {
      BagTakes(m - {c}, k);
      BagTakes(m - {k}, c);
      assert m - {c} - {k} == m - {k} - {c};
    }
  }

  lemma ListsHead<V>(ks: seq<string>, vs: seq<V>, m: map<string, V>)
    requires Lists(ks, vs, m)
    ensures |ks| == |vs| && (ks == [] ==> m.Keys == {}) && (ks != [] ==> ks[0] in m && vs[0] == m[ks[0]])
  {
  }

  lemma BagEmpty(m: map<string, string>)
    requires m.Keys == {}
    ensures Bag(m) == multiset{}
  {
  }

  lemma BagHead(vs: seq<string>)
    requires vs != []
    ensures multiset(vs) == multiset{vs[0]} + multiset(vs[1..])
  {
    assert vs == [vs[0]] + vs[1..];
  }

  /** Every listing of a dictionary has the same values, as a bag. */
  lemma {:induction false} BagOfListing(ks: seq<string>, vs: seq<string>, m: map<string, string>)
    requires Lists(ks, vs, m)
    ensures multiset(vs) == Bag(m)
    decreases |ks|
  {
    hide Bag, Lists;
    ListsHead(ks, vs, m);
    if ks == [] {
      BagEmpty(m);
    } else {
      ListsLess(ks, vs, m);
      BagOfListing(ks[1..], vs[1..], m - {ks[0]});
      BagTakes(m, ks[0]);
      BagHead(vs);
    }
  }

  /** A bag as a sequence, in some order. */
  ghost function Arrange(b: multiset<string>): (s: seq<string>)
    ensures multiset(s) == b
    decreases |b|
  {
    if b == multiset{} then []
    else
      var x :| x in b;
      assert b == multiset{x} + (b - multiset{x});
      [x] + Arrange(b - multiset{x})
  }

  // ----- dictionaries filled by assignment

  function InsertAll<V>(m: map<string, V>, es: seq<Entry<V>>): map<string, V> {
    if es == [] then m
    else
      var e := es[|es| - 1];
      InsertAll(m, es[..|es| - 1])[e.key := e.value]
  }

  /** No key is assigned two different values. */
  ghost predicate Consistent<V(!new)>(es: seq<Entry<V>>) {
    forall x, y :: x in es && y in es && x.key == y.key ==> x == y
  }

  lemma {:induction false} InsertAllHas<V(!new)>(m: map<string, V>, es: seq<Entry<V>>)
    ensures forall k :: k in InsertAll(m, es) <==> k in m || exists e :: e in es && e.key == k
    ensures forall k :: k in InsertAll(m, es) ==>
                          || (exists e :: e in es && e.key == k && e.value == InsertAll(m, es)[k])
                          || (k in m && InsertAll(m, es)[k] == m[k] && forall e :: e in es ==> e.key != k)
  {
    if es != [] {
      var front, last := es[..|es| - 1], es[|es| - 1];
      InsertAllHas(m, front);
      assert es == front + [last];
      assert last in es;
      forall k | k in InsertAll(m, es)
        ensures || (exists e :: e in es && e.key == k && e.value == InsertAll(m, es)[k])
                || (k in m && InsertAll(m, es)[k] == m[k] && forall e :: e in es ==> e.key != k)
      {
        if k != last.key {
          assert InsertAll(m, es)[k] == InsertAll(m, front)[k];
          if e :| e in front && e.key == k && e.value == InsertAll(m, front)[k] {
            assert e in es;
          }
        }
      }
    }
  }

  /** Consistent assignments give the same dictionary in every order. */
  lemma InsertAllCommutes<V(!new)>(m: map<string, V>, a: seq<Entry<V>>, b: seq<Entry<V>>)
    requires Consistent(a) && forall e :: e in a <==> e in b
    ensures InsertAll(m, a) == InsertAll(m, b)
  {
    InsertAllHas(m, a);
    InsertAllHas(m, b);
    var ra, rb := InsertAll(m, a), InsertAll(m, b);
    hide InsertAll;
    assert ra.Keys == rb.Keys;
    forall k | k in ra
      ensures ra[k] == rb[k]
    {
      if e :| e in a && e.key == k {
        assert e in b;
      }
    }
  }

  lemma {:induction false} InsertAllKeeps<V(!new)>(m: map<string, V>, es: seq<Entry<V>>, p: (string, V) -> bool)
    requires forall k :: k in m ==> p(k, m[k])
    requires forall e :: e in es ==> p(e.key, e.value)
    ensures forall k :: k in InsertAll(m, es) ==> p(k, InsertAll(m, es)[k])
  {
    if es != [] {
      assert es[|es| - 1] in es;
      InsertAllKeeps(m, es[..|es| - 1], p);
    }
  }

  function FlatMap<A, B>(s: seq<A>, f: A -> seq<B>): seq<B> {
    if s == [] then [] else FlatMap(s[..|s| - 1], f) + f(s[|s| - 1])
  }

  lemma {:induction false} FlatMapMembers<A(!new), B(!new)>(s: seq<A>, f: A -> seq<B>)
    ensures forall y :: y in FlatMap(s, f) <==> exists x :: x in s && y in f(x)
  {
    if s != [] {
      var front, last := s[..|s| - 1], s[|s| - 1];
      FlatMapMembers(front, f);
      assert s == front + [last];
    }
  }

  lemma {:induction false} FlatMapConcatenates<A, B>(s: seq<A>, t: seq<A>, f: A -> seq<B>)
    ensures FlatMap(s + t, f) == FlatMap(s, f) + FlatMap(t, f)
    decreases |t|
  {
    if t == [] {
      assert s + t == s;
    } else {
      assert (s + t)[..|s + t| - 1] == s + t[..|t| - 1];
      FlatMapConcatenates(s, t[..|t| - 1], f);
    }
  }

  lemma BagAround<A>(left: seq<A>, x: A, right: seq<A>)
    ensures multiset(left + [x] + right) == multiset(left + right) + multiset{x}
  {
  }

  lemma Cancel<A>(p: multiset<A>, q: multiset<A>, x: A)
    requires p + multiset{x} == q + multiset{x}
    ensures p == q
  {
    assert p == (p + multiset{x}) - multiset{x};
    assert q == (q + multiset{x}) - multiset{x};
  }

  lemma Position<A>(x: A, s: seq<A>) returns (j: nat)
    requires x in multiset(s)
    ensures j < |s| && s[j] == x
  {
    j :| 0 <= j < |s| && s[j] == x;
  }

  lemma Extract<A>(a: seq<A>, b: seq<A>) returns (left: seq<A>, right: seq<A>)
    requires a != [] && multiset(a) == multiset(b)
    ensures b == left + [a[|a| - 1]] + right
    ensures multiset(a[..|a| - 1]) == multiset(left + right)
  {
    var front, last := a[..|a| - 1], a[|a| - 1];
    assert last in multiset(a);
    var j := Position(last, b);
    left, right := b[..j], b[j + 1..];
    assert b == left + [last] + right && a == front + [last] + [];
    BagAround(left, last, right);
    BagAround(front, last, []);
    assert front + [] == front;
    Cancel(multiset(front), multiset(left + right), last);
  }

  lemma FlatMapAround<A, B>(left: seq<A>, x: A, right: seq<A>, f: A -> seq<B>)
    ensures FlatMap(left + [x] + right, f) == FlatMap(left, f) + f(x) + FlatMap(right, f)
  {
    FlatMapConcatenates(left + [x], right, f);
    assert (left + [x])[..|left|] == left;
  }

  /** A rearranged input gives a rearranged output. */
  lemma {:induction false} FlatMapPermutes<A, B>(a: seq<A>, b: seq<A>, f: A -> seq<B>)
    requires multiset(a) == multiset(b)
    ensures multiset(FlatMap(a, f)) == multiset(FlatMap(b, f))
    decreases |a|
  {
    if a == [] {
      assert |b| == |multiset(b)|;
    } else {
      var left, right := Extract(a, b);
      FlatMapPermutes(a[..|a| - 1], left + right, f);
      FlatMapAround(left, a[|a| - 1], right, f);
      FlatMapConcatenates(left, right, f);
    }
  }

  lemma PermutedMembers<A>(a: seq<A>, b: seq<A>)
    requires multiset(a) == multiset(b)
    ensures forall x :: x in a <==> x in b
  {
    assert forall x :: x in a <==> x in multiset(a);
    assert forall x :: x in b <==> x in multiset(b);
  }

  lemma FlatMapStep<A, B>(s: seq<A>, i: nat, f: A -> seq<B>)
    requires i < |s|
    ensures FlatMap(s[..i + 1], f) == FlatMap(s[..i], f) + f(s[i])
  {
    assert s[..i + 1][..i] == s[..i];
  }

  lemma InsertAllStep<V>(m: map<string, V>, es: seq<Entry<V>>, e: Entry<V>)
    ensures InsertAll(m, es + [e]) == InsertAll(m, es)[e.key := e.value]
    ensures es + [] == es
  {
    assert (es + [e])[..|es|] == es;
  }
}
