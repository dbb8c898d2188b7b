/** Sequence helpers shared by the layout code: sums accumulated
    left to right, and the stable sort behind Python's `sorted` and
    `list.sort`. */
module SeqUtil {

  /** The sum of `s`, accumulated from the left the way a `+=` loop does. */
  function Sum(s: seq<real>): real
  {
    if s == [] then 0.0 else Sum(s[..|s| - 1]) + s[|s| - 1]
  }

  /** Each element of `s` occurs once. */
  ghost predicate Distinct<T>(s: seq<T>)
  {
    forall i, j :: 0 <= i < j < |s| ==> s[i] != s[j]
  }

  /** `s` is in non-decreasing order of `key`. */
  ghost predicate SortedBy<T>(s: seq<T>, key: T -> real)
  {
    forall i, j :: 0 <= i < j < |s| ==> key(s[i]) <= key(s[j])
  }

  ghost predicate StrictlyAscending(s: seq<real>)
  {
    forall i, j :: 0 <= i < j < |s| ==> s[i] < s[j]
  }

  /** Some element of a non-empty set: the next key of a dictionary
      iteration whose order the result does not depend on. */
  method Choose<T>(s: set<T>) returns (x: T)
    requires s != {}
    ensures x in s
  {
    x :| x in s;
  }

  function Identity(x: real): real { x }

  /** Inserts `x` before the first element whose key is not smaller,
      so that equal keys keep their relative order. */
  function InsertBy<T>(x: T, s: seq<T>, key: T -> real): (r: seq<T>)
    ensures |r| == |s| + 1
    ensures multiset(r) == multiset(s) + multiset{x}
  {
    if s == [] || key(x) <= key(s[0]) then [x] + s
    else
      assert s == [s[0]] + s[1..];
      [s[0]] + InsertBy(x, s[1..], key)
  }

  /** Every element of `InsertBy(x, s, key)` is `x` or an element of `s`. */
  lemma InsertByElements<T>(x: T, s: seq<T>, key: T -> real, j: int)
    requires 0 <= j < |s| + 1
    ensures InsertBy(x, s, key)[j] == x || InsertBy(x, s, key)[j] in s
  {
    var r := InsertBy(x, s, key);
    assert r[j] in multiset(r);
  }

  lemma {:induction false} InsertBySorted<T>(x: T, s: seq<T>, key: T -> real)
    requires SortedBy(s, key)
    ensures SortedBy(InsertBy(x, s, key), key)
  {
    if s == [] || key(x) <= key(s[0]) {
    } else {
      var t := InsertBy(x, s[1..], key);
      InsertBySorted(x, s[1..], key);
      assert InsertBy(x, s, key) == [s[0]] + t;
      forall j | 0 <= j < |t| ensures key(s[0]) <= key(t[j]) {
        InsertByElements(x, s[1..], key, j);
        if t[j] != x {
          var k :| 0 <= k < |s[1..]| && s[1..][k] == t[j];
          assert s[k + 1] == t[j];
        }
      }
    }
  }

  lemma {:induction false} InsertByDistinct<T>(x: T, s: seq<T>, key: T -> real)
    requires Distinct(s) && x !in s
    ensures Distinct(InsertBy(x, s, key))
  {
    if s == [] || key(x) <= key(s[0]) {
    } else {
      var t := InsertBy(x, s[1..], key);
      assert x !in s[1..];
      assert Distinct(s[1..]) by {
        forall i, j | 0 <= i < j < |s[1..]| ensures s[1..][i] != s[1..][j] {
          assert s[1..][i] == s[i + 1] && s[1..][j] == s[j + 1];
        }
      }
      InsertByDistinct(x, s[1..], key);
      assert InsertBy(x, s, key) == [s[0]] + t;
      forall j | 0 <= j < |t| ensures s[0] != t[j] {
        InsertByElements(x, s[1..], key, j);
        if t[j] != x {
          var k :| 0 <= k < |s[1..]| && s[1..][k] == t[j];
          assert s[k + 1] == t[j];
        }
      }
    }
  }

  /** Insertion sort on `key`: a sorted permutation of `s`, duplicate-free
      when `s` is. */
  function SortBy<T>(s: seq<T>, key: T -> real): (r: seq<T>)
    ensures |r| == |s|
    ensures multiset(r) == multiset(s)
    ensures SortedBy(r, key)
    ensures Distinct(s) ==> Distinct(r)
  {
    if s == [] then []
    else
      assert s == [s[0]] + s[1..];
      var rest := SortBy(s[1..], key);
      InsertBySorted(s[0], rest, key);
      SortStepDistinct(s, rest, key);
      InsertBy(s[0], rest, key)
  }

  lemma SortStepDistinct<T>(s: seq<T>, rest: seq<T>, key: T -> real)
    requires s != [] && multiset(rest) == multiset(s[1..])
    requires Distinct(s[1..]) ==> Distinct(rest)
    ensures Distinct(s) ==> Distinct(InsertBy(s[0], rest, key))
  {
    if Distinct(s) {
      DistinctTail(s);
      PermutationMembers(s[1..], rest, s[0]);
      InsertByDistinct(s[0], rest, key);
    }
  }

  lemma DistinctTail<T>(s: seq<T>)
    requires s != []
    ensures Distinct(s) ==> Distinct(s[1..])
  {
    if Distinct(s) {
      forall i, j | 0 <= i < j < |s[1..]| ensures s[1..][i] != s[1..][j] {
        assert s[1..][i] == s[i + 1] && s[1..][j] == s[j + 1];
      }
    }
  }

  /** A duplicate-free sequence has as many elements as its set. */
  lemma {:induction false} DistinctCardinality<T>(s: seq<T>)
    requires Distinct(s)
    ensures |set x | x in s| == |s|
  {
    if s != [] {
      DistinctTail(s);
      DistinctCardinality(s[1..]);
      assert (set x | x in s) == {s[0]} + (set x | x in s[1..]);
      assert s[0] !in (set x | x in s[1..]) by {
        forall i | 0 <= i < |s[1..]| ensures s[1..][i] != s[0] {
          assert s[1..][i] == s[i + 1];
        }
      }
    }
  }

  /** An element of a sequence is an element of any permutation of it. */
  lemma PermutationMembers<T>(s: seq<T>, r: seq<T>, y: T)
    requires multiset(r) == multiset(s)
    ensures y in r <==> y in s
  {
    assert y in r <==> y in multiset(r);
    assert y in s <==> y in multiset(s);
  }

  /** Sorting a duplicate-free list of reals by value makes it strictly ascending. */
  lemma SortedDistinctAscending(s: seq<real>)
    requires SortedBy(s, Identity) && Distinct(s)
    ensures StrictlyAscending(s)
  {
    forall i, j | 0 <= i < j < |s| ensures s[i] < s[j] {
      assert Identity(s[i]) <= Identity(s[j]);
    }
  }
}
