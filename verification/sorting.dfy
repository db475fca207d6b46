/** Finite integer sets in increasing order, as `sort.Ints` leaves the keys of a map. */
module Sorting {

  lemma Pick<T>(s: set<T>) returns (e: T)
    requires s != {}
    ensures e in s
  {
    e :| e in s;
  }

  lemma {:induction false} HasMinimum(s: set<int>)
    requires s != {}
    ensures exists m :: m in s && forall x :: x in s ==> m <= x
  {
    var e := Pick(s);
    var r := s - {e};
    assert forall x :: x in s ==> x == e || x in r;
    if r == {} {
      assert forall x :: x in s ==> e <= x;
    } else {
      HasMinimum(r);
      var m :| m in r && forall x :: x in r ==> m <= x;
      var k := if e < m then e else m;
      assert k in s && forall x :: x in s ==> k <= x;
    }
  }

  ghost function Minimum(s: set<int>): (m: int)
    requires s != {}
    ensures m in s && forall x :: x in s ==> m <= x
  {
    HasMinimum(s);
    var m :| m in s && forall x :: x in s ==> m <= x;
    m
  }

  ghost function Sorted(s: set<int>): (r: seq<int>)
    ensures forall x :: x in r <==> x in s
    ensures forall k :: 0 <= k < |r| ==> r[k] in s
    ensures forall j, k :: 0 <= j < k < |r| ==> r[j] < r[k]
  {
    if s == {} then [] else [Minimum(s)] + Sorted(s - {Minimum(s)})
  }

  /** Increasing order determines the sequence. */
  lemma {:induction false} SortedUnique(s: set<int>, r: seq<int>)
    requires forall x :: x in r <==> x in s
    requires forall j, k :: 0 <= j < k < |r| ==> r[j] < r[k]
    ensures r == Sorted(s)
  {
    if r == [] {
      if s != {} {
        var x := Pick(s);
        assert false;
      }
    } else {
      assert r[0] in r;
      var m := Minimum(s);
      assert m in r;
      assert m == r[0];
      forall x ensures x in r[1..] <==> x in s - {m} {
        if x in r[1..] {
          var k :| 0 <= k < |r[1..]| && r[1..][k] == x;
          assert x == r[k + 1];
        }
        if x in s - {m} {
          assert x in r;
          var k :| 0 <= k < |r| && r[k] == x;
          assert r[1..][k - 1] == x;
        }
      }
      SortedUnique(s - {m}, r[1..]);
      assert r == [m] + r[1..];
    }
  }

  lemma SortedAppend(s: set<int>, n: int)
    requires forall x :: x in s ==> x < n
    ensures Sorted(s + {n}) == Sorted(s) + [n]
  {
    var r := Sorted(s) + [n];
    forall j, k | 0 <= j < k < |r| ensures r[j] < r[k] {
      assert Sorted(s)[j] in s;
    }
    SortedUnique(s + {n}, r);
  }

  method Sort(s: set<int>) returns (r: seq<int>)
    ensures r == Sorted(s)
  {
    r := [];
    var rest := s;
    while rest != {}
      invariant rest <= s
      invariant forall x :: x in r <==> x in s - rest
      invariant forall j, k :: 0 <= j < k < |r| ==> r[j] < r[k]
      invariant forall k, y :: 0 <= k < |r| && y in rest ==> r[k] < y
      decreases |rest|
    {
      HasMinimum(rest);
      var m :| m in rest && forall x :: x in rest ==> m <= x;
      r := r + [m];
      rest := rest - {m};
    }
    SortedUnique(s, r);
  }
}
