/**
 Sequences without repetition, and removal of one element: the abstract value
 of every linked list in the kernel (free lists, process queues, wait queues).
 */
module Sequences {

  ghost predicate Distinct<T>(s: seq<T>) {
    forall i, j :: 0 <= i < j < |s| ==> s[i] != s[j]
  }

  /** `s` without the first occurrence of `x`. */
  function Without<T(==)>(s: seq<T>, x: T): (r: seq<T>)
    ensures |r| == if x in s then |s| - 1 else |s|
  {
    if s == [] then []
    else if s[0] == x then s[1..]
    else [s[0]] + Without(s[1..], x)
  }

  lemma {:induction false} WithoutAbsent<T>(s: seq<T>, x: T)
    requires x !in s
    ensures Without(s, x) == s
  {
    if s != [] {
      WithoutAbsent(s[1..], x);
      assert s == [s[0]] + s[1..];
    }
  }

  /** Removing `x` and appending another element commute. */
  lemma {:induction false} WithoutAppend<T>(s: seq<T>, a: T, x: T)
    requires x != a
    ensures Without(s + [a], x) == Without(s, x) + [a]
  {
    if s == [] {
      assert s + [a] == [a];
    } else {
      assert (s + [a])[1..] == s[1..] + [a];
      WithoutAppend(s[1..], a, x);
    }
  }

  /** Two removals commute. */
  lemma {:induction false} WithoutTwice<T>(s: seq<T>, x: T, y: T)
    ensures Without(Without(s, x), y) == Without(Without(s, y), x)
  {
    if s != [] {
      WithoutTwice(s[1..], x, y);
      if s[0] != x && s[0] != y {
        assert ([s[0]] + Without(s[1..], x))[1..] == Without(s[1..], x);
        assert ([s[0]] + Without(s[1..], y))[1..] == Without(s[1..], y);
      } else if s[0] == x && s[0] != y {
        assert ([s[0]] + Without(s[1..], y))[1..] == Without(s[1..], y);
      } else if s[0] == y && s[0] != x {
        assert ([s[0]] + Without(s[1..], x))[1..] == Without(s[1..], x);
      }
    }
  }

  /** Removal cuts out one index and keeps the order of the rest. */
  lemma {:induction false} WithoutAt<T>(s: seq<T>, i: nat)
    requires i < |s| && s[i] !in s[..i]
    ensures Without(s, s[i]) == s[..i] + s[i + 1..]
  {
    if i > 0 {
      assert s[0] == s[..i][0];
      var t := s[1..];
      assert t[..i - 1] == s[..i][1..];
      WithoutAt(t, i - 1);
      assert s[..i] + s[i + 1..] == [s[0]] + (t[..i - 1] + t[i..]);
    }
  }

  lemma DistinctAt<T>(s: seq<T>, i: nat, j: nat)
    requires Distinct(s) && i < |s| && j < |s| && i != j
    ensures s[i] != s[j]
  {
  }

  /** Cutting one index out of a sequence without repetition. */
  lemma CutMembers<T>(s: seq<T>, i: nat)
    requires i < |s| && Distinct(s)
    ensures Distinct(s[..i] + s[i + 1..])
    ensures forall a :: a in s[..i] + s[i + 1..] <==> a in s && a != s[i]
  {
    var r := s[..i] + s[i + 1..];
    CutDistinct(s, i);
    forall a | a in s && a != s[i] ensures a in r {
      var j :| 0 <= j < |s| && s[j] == a;
      assert r[if j < i then j else j - 1] == a;
    }
    forall a | a in r ensures a in s && a != s[i] {
      var j :| 0 <= j < |r| && r[j] == a;
      DistinctAt(s, if j < i then j else j + 1, i);
    }
  }

  lemma CutDistinct<T>(s: seq<T>, i: nat)
    requires i < |s| && Distinct(s)
    ensures Distinct(s[..i] + s[i + 1..])
  {
  }

  lemma WithoutMembers<T>(s: seq<T>, x: T)
    requires Distinct(s)
    ensures Distinct(Without(s, x))
    ensures forall y :: y in Without(s, x) <==> y in s && y != x
  {
    if x in s {
      var i :| 0 <= i < |s| && s[i] == x;
      assert s[i] !in s[..i];
      WithoutAt(s, i);
      CutMembers(s, i);
    } else {
      WithoutAbsent(s, x);
    }
  }

  lemma DistinctAppend<T>(s: seq<T>, x: T)
    requires Distinct(s) && x !in s
    ensures Distinct(s + [x]) && Distinct([x] + s)
  {
  }

  /** The entry a linked list has at index `i`, `none` past its end. */
  function Entry(s: seq<nat>, i: nat, none: int): int {
    if i < |s| then s[i] else none
  }

  /** Where the entries of `s` without index `i` come from, and what follows them. */
  lemma CutEntry(s: seq<nat>, i: nat, j: nat, none: int)
    requires i < |s| && j < |s| - 1
    ensures var t, k := s[..i] + s[i + 1..], if j < i then j else j + 1;
            && |t| == |s| - 1 && t[j] == s[k]
            && Entry(t, j + 1, none) == if k + 1 == i then Entry(s, i + 1, none) else Entry(s, k + 1, none)
  {
  }
}
