/** Small facts about finite sets. */
module Sets {

  lemma SomeMember(s: set<int>)
    ensures s == {} || exists x :: x in s
  {
    if forall x :: x !in s { assert s == {}; }
  }

  lemma SubsetSize(a: set<int>, b: set<int>)
    requires a <= b
    ensures |a| <= |b|
  {
    assert b == a + (b - a);
  }

  predicate Least(s: set<int>, m: int) { m in s && forall k :: k in s ==> m <= k }

  lemma {:induction false} LeastExists(s: set<int>)
    requires s != {}
    ensures exists m :: Least(s, m)
  {
    SomeMember(s);
    var x :| x in s;
    var rest := s - {x};
    if rest == {} {
      assert s == {x};
      assert Least(s, x);
    } else {
      LeastExists(rest);
      var m :| Least(rest, m);
      assert forall k :: k in s ==> k == x || k in rest;
      assert Least(s, if x < m then x else m);
    }
  }

  function Min(s: set<int>): (m: int)
    requires s != {}
    ensures Least(s, m)
  {
    LeastExists(s);
    var m :| Least(s, m);
    m
  }

  function Span(first: int, n: nat): (s: set<int>)
    ensures forall k :: k in s <==> first <= k < first + n
  {
    if n == 0 then {} else Span(first, n - 1) + {first + n - 1}
  }

  lemma {:induction false} SpanSize(first: int, n: nat)
    ensures |Span(first, n)| == n
  {
    if n > 0 { SpanSize(first, n - 1); }
  }

  /** n different numbers from 1 to n are all of them. */
  lemma Pigeonhole(s: set<int>, k: int)
    requires forall j :: j in s ==> 1 <= j <= |s|
    requires 1 <= k <= |s|
    ensures k in s
  {
    var all := Span(1, |s|);
    SpanSize(1, |s|);
    if k !in s {
      assert s <= all - {k};
      SubsetSize(s, all - {k});
    }
  }
}
