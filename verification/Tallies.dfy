/** Weighted counts over a population of processes. */
module Tallies {

  function Count<T>(s: seq<T>, w: T -> nat): (n: nat)
  {
    if s == [] then 0 else w(s[0]) + Count(s[1..], w)
  }

  lemma {:induction false} CountUpdate<T>(s: seq<T>, i: nat, v: T, w: T -> nat)
    requires i < |s|
    ensures Count(s[i := v], w) + w(s[i]) == Count(s, w) + w(v)
  {
    var t := s[i := v];
    if i == 0 {
      assert t[1..] == s[1..];
    } else {
      assert t[1..] == s[1..][i - 1 := v];
      CountUpdate(s[1..], i - 1, v, w);
    }
  }

  /** The count is at least the weight of any one member. */
  lemma {:induction false} CountAtLeast<T>(s: seq<T>, i: nat, w: T -> nat)
    requires i < |s|
    ensures Count(s, w) >= w(s[i])
  {
    if i > 0 { CountAtLeast(s[1..], i - 1, w); }
  }

  lemma {:induction false} CountZero<T>(s: seq<T>, w: T -> nat)
    requires forall i :: 0 <= i < |s| ==> w(s[i]) == 0
    ensures Count(s, w) == 0
  {
    if s != [] {
      forall i | 0 <= i < |s[1..]| ensures w(s[1..][i]) == 0 { assert s[1..][i] == s[i + 1]; }
      CountZero(s[1..], w);
    }
  }

  /** A positive count has a contributor. */
  lemma {:induction false} CountWitness<T>(s: seq<T>, w: T -> nat) returns (i: nat)
    requires Count(s, w) > 0
    ensures i < |s| && w(s[i]) > 0
  {
    if w(s[0]) > 0 {
      i := 0;
    } else {
      var j := CountWitness(s[1..], w);
      i := j + 1;
    }
  }

  /** Two different members contribute separately. */
  lemma CountTwo<T>(s: seq<T>, i: nat, j: nat, w: T -> nat)
    requires i < |s| && j < |s| && i != j
    ensures Count(s, w) >= w(s[i]) + w(s[j])
  {
    if i < j { CountPair(s, i, j, w); } else { CountPair(s, j, i, w); }
  }

  lemma {:induction false} CountPair<T>(s: seq<T>, i: nat, j: nat, w: T -> nat)
    requires i < j < |s|
    ensures Count(s, w) >= w(s[i]) + w(s[j])
  {
    if i == 0 { CountAtLeast(s[1..], j - 1, w); } else { CountPair(s[1..], i - 1, j - 1, w); }
  }

  /** A pointwise smaller weight gives a smaller count, strictly if strict anywhere. */
  lemma {:induction false} CountDominated<T>(s: seq<T>, w: T -> nat, v: T -> nat, i: nat)
    requires forall j :: 0 <= j < |s| ==> w(s[j]) <= v(s[j])
    requires i < |s| ==> w(s[i]) < v(s[i])
    ensures Count(s, w) <= Count(s, v)
    ensures i < |s| ==> Count(s, w) < Count(s, v)
  {
    if s != [] {
      forall j | 0 <= j < |s[1..]| ensures w(s[1..][j]) <= v(s[1..][j]) { assert s[1..][j] == s[j + 1]; }
      CountDominated(s[1..], w, v, if i == 0 then |s| else i - 1);
    }
  }

  /** Two populations whose members weigh the same except at `i`. */
  lemma {:induction false} CountDiffer<T>(s: seq<T>, t: seq<T>, i: nat, w: T -> nat)
    requires |s| == |t| && i < |s|
    requires forall j :: 0 <= j < |s| && j != i ==> w(s[j]) == w(t[j])
    ensures Count(t, w) + w(s[i]) == Count(s, w) + w(t[i])
  {
    if i == 0 {
      CountSame(s[1..], t[1..], w);
    } else {
      assert w(s[0]) == w(t[0]);
      forall j | 0 <= j < |s[1..]| && j != i - 1 ensures w(s[1..][j]) == w(t[1..][j]) {
        assert s[1..][j] == s[j + 1] && t[1..][j] == t[j + 1];
      }
      CountDiffer(s[1..], t[1..], i - 1, w);
    }
  }

  lemma {:induction false} CountSame<T>(s: seq<T>, t: seq<T>, w: T -> nat)
    requires |s| == |t| && forall j :: 0 <= j < |s| ==> w(s[j]) == w(t[j])
    ensures Count(t, w) == Count(s, w)
  {
    if s != [] {
      assert w(s[0]) == w(t[0]);
      CountSame(s[1..], t[1..], w);
    }
  }

  lemma {:induction false} CountNone<T>(s: seq<T>, w: T -> nat)
    requires Count(s, w) == 0
    ensures forall i :: 0 <= i < |s| ==> w(s[i]) == 0
  {
    forall i | 0 <= i < |s| ensures w(s[i]) == 0 { CountAtLeast(s, i, w); }
  }
}
