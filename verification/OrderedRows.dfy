/** Finite sets of sequence numbers read in ascending order, and the top `n` of them. */
module OrderedRows {
  import opened JobTypes

  ghost predicate StrictlyAscending(s: seq<int>) {
    forall i, j :: 0 <= i < j < |s| ==> s[i] < s[j]
  }

  predicate IsMin(m: int, s: set<int>) {
    m in s && forall x :: x in s ==> m <= x
  }

  lemma {:induction false} MinExists(s: set<int>) returns (m: int)
    requires |s| > 0
    ensures IsMin(m, s)
    decreases |s|
  {
    var x := SomeElement(s);
    var rest := s - {x};
    if |rest| == 0 {
      m := x;
      assert s == {x};
    } else {
      var y := MinExists(rest);
      m := if x < y then x else y;
      assert forall z :: z in s ==> z == x || z in rest;
    }
  }

  /** The elements of `s` in ascending order. */
  ghost function Ascending(s: set<int>): (r: seq<int>)
    ensures StrictlyAscending(r)
    ensures forall x :: x in r <==> x in s
    ensures |r| == |s|
    decreases |s|
  {
    if s == {} then []
    else
      assert exists m :: IsMin(m, s) by { var m := MinExists(s); }
      var m :| IsMin(m, s);
      [m] + Ascending(s - {m})
  }

  /** A set has only one ascending enumeration. */
  lemma {:induction false} AscendingUnique(a: seq<int>, b: seq<int>)
    requires StrictlyAscending(a) && StrictlyAscending(b)
    requires forall x :: x in a <==> x in b
    ensures a == b
  {
    if a == [] {
      assert forall i :: 0 <= i < |b| ==> b[i] in b;
    } else {
      assert a[0] in a;
      assert b != [];
      assert b[0] in b;
      assert a[0] == b[0];
      forall x ensures x in a[1..] <==> x in b[1..] {
        assert x in a[1..] <==> x in a && x != a[0];
        assert x in b[1..] <==> x in b && x != b[0];
      }
      AscendingUnique(a[1..], b[1..]);
    }
  }

  function Above(s: set<int>, x: int): set<int> {
    set y | y in s && y > x
  }

  /** The elements whose descending row number is at most `n`. */
  ghost function TopN(s: set<int>, n: nat): set<int> {
    set x | x in s && |Above(s, x)| < n
  }

  /** Row numbers keep exactly `n` elements, or all of them when there are fewer. */
  lemma {:induction false} TopNSize(s: set<int>, n: nat)
    ensures |TopN(s, n)| == if |s| <= n then |s| else n
    ensures |s| <= n ==> TopN(s, n) == s
    decreases |s|
  {
    if |s| <= n {
      forall x | x in s ensures x in TopN(s, n) {
        SubsetSize(Above(s, x), s - {x});
      }
      assert TopN(s, n) == s;
    } else {
      var m := MinExists(s);
      var rest := s - {m};
      assert Above(s, m) == rest;
      forall x | x in rest ensures Above(s, x) == Above(rest, x) {
      }
      assert TopN(s, n) == TopN(rest, n);
      TopNSize(rest, n);
    }
  }

  /** Every kept element is larger than every dropped one. */
  lemma TopNDominates(s: set<int>, n: nat, kept: int, dropped: int)
    requires kept in TopN(s, n)
    requires dropped in s && dropped !in TopN(s, n)
    ensures kept > dropped
  {
    if kept < dropped {
      SubsetSize(Above(s, dropped), Above(s, kept));
    }
  }
}
