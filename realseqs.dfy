/** Sequences of reals: sums, ordering, spacing, and the ascending sort of Python's list.sort. */
module RealSeqs {

  function Abs(x: real): real { if x < 0.0 then -x else x }

  /** Sum of a sequence, adding the elements from first to last as a running total would. */
  function Sum(s: seq<real>): real
  {
    if s == [] then 0.0 else Sum(s[..|s| - 1]) + s[|s| - 1]
  }

  lemma SumSnoc(s: seq<real>, x: real)
    ensures Sum(s + [x]) == Sum(s) + x
  {
    assert (s + [x])[..|s|] == s;
  }

  lemma SumPrefixStep(s: seq<real>, i: nat)
    requires i < |s|
    ensures Sum(s[..i + 1]) == Sum(s[..i]) + s[i]
  {
    assert s[..i + 1] == s[..i] + [s[i]];
    SumSnoc(s[..i], s[i]);
  }

  /** Every element lies between lo and hi, so the sum lies between |s| * lo and |s| * hi. */
  lemma {:induction false} SumBounds(s: seq<real>, lo: real, hi: real)
    requires forall i :: 0 <= i < |s| ==> lo <= s[i] <= hi
    ensures |s| as real * lo <= Sum(s) <= |s| as real * hi
  {
    if s != [] {
      var n := |s| - 1;
      SumBounds(s[..n], lo, hi);
      assert |s| as real * lo == n as real * lo + lo;
      assert |s| as real * hi == n as real * hi + hi;
    }
  }

  predicate Sorted(s: seq<real>)
  {
    forall i, j :: 0 <= i < j < |s| ==> s[i] <= s[j]
  }

  /** Any two distinct positions of s hold values at least m apart. */
  predicate Spaced(s: seq<real>, m: real)
  {
    forall i, j :: 0 <= i < |s| && 0 <= j < |s| && i != j ==> Abs(s[i] - s[j]) >= m
  }

  /** x is at least m away from every element of s. */
  predicate FarFrom(x: real, s: seq<real>, m: real)
  {
    forall k :: 0 <= k < |s| ==> Abs(x - s[k]) >= m
  }

  /** A value no larger than every element of a sorted sequence can go in front of it. */
  lemma SortedCons(a: real, r: seq<real>)
    requires Sorted(r) && forall k :: 0 <= k < |r| ==> a <= r[k]
    ensures Sorted([a] + r)
  {
  }

  /** Everything in a rearrangement of s, plus x, is at least a lower bound of s and x. */
  lemma LowerBoundRearranged(a: real, x: real, s: seq<real>, r: seq<real>)
    requires a <= x && (forall k :: 0 <= k < |s| ==> a <= s[k])
    requires multiset(r) == multiset(s) + multiset{x}
    ensures forall k :: 0 <= k < |r| ==> a <= r[k]
  {
    forall k | 0 <= k < |r| ensures a <= r[k] {
      assert r[k] in multiset(r);
      if r[k] != x {
        assert r[k] in s;
      }
    }
  }

  /** Inserts x into a sorted sequence before the first element not smaller than it. */
  function Insert(x: real, s: seq<real>): (r: seq<real>)
    requires Sorted(s)
    ensures Sorted(r) && multiset(r) == multiset(s) + multiset{x}
  {
    if s == [] || x <= s[0] then [x] + s
    else
      var rest := Insert(x, s[1..]);
      assert s == [s[0]] + s[1..];
      LowerBoundRearranged(s[0], x, s[1..], rest);
      SortedCons(s[0], rest);
      [s[0]] + rest
  }

  /** Ascending sort (a model of Python's in-place list.sort on floats). */
  function Sort(s: seq<real>): (r: seq<real>)
    ensures Sorted(r) && multiset(r) == multiset(s) && |r| == |s|
  {
    if s == [] then []
    else
      assert s == [s[0]] + s[1..];
      Insert(s[0], Sort(s[1..]))
  }

  lemma AbsSymmetric(x: real, y: real)
    ensures Abs(x - y) == Abs(y - x)
  {
  }

  /** Putting in front of a spaced sequence a value far from all of it keeps it spaced. */
  lemma SpacedCons(x: real, s: seq<real>, m: real)
    requires Spaced(s, m) && FarFrom(x, s, m)
    ensures Spaced([x] + s, m)
  {
    var r := [x] + s;
    forall i, j | 0 <= i < |r| && 0 <= j < |r| && i != j
      ensures Abs(r[i] - r[j]) >= m
    {
      if i == 0 {
        assert r[j] == s[j - 1];
      } else if j == 0 {
        assert r[i] == s[i - 1];
        AbsSymmetric(x, s[i - 1]);
      } else {
        assert r[i] == s[i - 1] && r[j] == s[j - 1];
      }
    }
  }

  /** The tail of a spaced sequence is spaced, and its head is far from the tail. */
  lemma SpacedTail(s: seq<real>, m: real)
    requires s != [] && Spaced(s, m)
    ensures Spaced(s[1..], m) && FarFrom(s[0], s[1..], m)
  {
    var tail := s[1..];
    forall i, j | 0 <= i < |tail| && 0 <= j < |tail| && i != j
      ensures Abs(tail[i] - tail[j]) >= m
    {
      assert tail[i] == s[i + 1] && tail[j] == s[j + 1];
    }
    forall k | 0 <= k < |tail| ensures Abs(s[0] - tail[k]) >= m {
      assert tail[k] == s[k + 1];
    }
  }

  /** A value far from every element of s is far from every element of a rearrangement of s. */
  lemma FarFromRearranged(x: real, s: seq<real>, t: seq<real>, m: real)
    requires FarFrom(x, s, m) && multiset(t) <= multiset(s)
    ensures FarFrom(x, t, m)
  {
    forall k | 0 <= k < |t| ensures Abs(x - t[k]) >= m {
      assert t[k] in multiset(t);
      assert t[k] in s;
    }
  }

  lemma {:induction false} InsertKeepsSpaced(x: real, s: seq<real>, m: real)
    requires Sorted(s) && Spaced(s, m) && FarFrom(x, s, m)
    ensures Spaced(Insert(x, s), m)
  {
    if s == [] || x <= s[0] {
      SpacedCons(x, s, m);
    } else {
      var tail := s[1..];
      SpacedTail(s, m);
      assert FarFrom(x, tail, m) by {
        forall k | 0 <= k < |tail| ensures Abs(x - tail[k]) >= m {
          assert tail[k] == s[k + 1];
        }
      }
      InsertKeepsSpaced(x, tail, m);
      var rest := Insert(x, tail);
      assert FarFrom(s[0], rest, m) by {
        assert FarFrom(s[0], tail + [x], m) by {
          forall k | 0 <= k < |tail + [x]| ensures Abs(s[0] - (tail + [x])[k]) >= m {
            if k == |tail| {
              AbsSymmetric(x, s[0]);
            }
          }
        }
        assert multiset(tail + [x]) == multiset(tail) + multiset{x};
        FarFromRearranged(s[0], tail + [x], rest, m);
      }
      SpacedCons(s[0], rest, m);
    }
  }

  /** Sorting moves values but never brings two of them closer than they were. */
  lemma {:induction false} SortKeepsSpaced(s: seq<real>, m: real)
    requires Spaced(s, m)
    ensures Spaced(Sort(s), m)
  {
    if s != [] {
      var tail := s[1..];
      SpacedTail(s, m);
      SortKeepsSpaced(tail, m);
      FarFromRearranged(s[0], tail, Sort(tail), m);
      InsertKeepsSpaced(s[0], Sort(tail), m);
    }
  }

  /** Sorting keeps the set of values, so a bound that holds of every element still holds. */
  lemma SortKeepsElements(s: seq<real>, k: nat)
    requires k < |s|
    ensures Sort(s)[k] in s
  {
    assert Sort(s)[k] in multiset(Sort(s));
  }
}
