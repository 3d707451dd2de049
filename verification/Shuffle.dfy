/** The Fisher-Yates shuffle (lkh2/src/synthesis.rs), and why it is one: for a list of distinct
    elements its choice sequences and the list's permutations correspond one to one. */
module Shuffle {

  function Swap<T>(v: seq<T>, i: nat, j: nat): (w: seq<T>)
    requires i < |v| && j < |v|
    ensures |w| == |v|
  {
    v[i := v[j]][j := v[i]]
  }

  lemma SwapPermutes<T>(v: seq<T>, i: nat, j: nat)
    requires i < |v| && j < |v|
    ensures multiset(Swap(v, i, j)) == multiset(v)
  {
  }

  predicate Choices(js: seq<nat>, n: nat) {
    |js| == n && forall i :: 0 <= i < n ==> js[i] <= i
  }

  /** The loop from position `i` down to 1. */
  function ShuffleFrom<T>(v: seq<T>, js: seq<nat>, i: nat): (w: seq<T>)
    requires Choices(js, |v|) && (v == [] || i < |v|)
    ensures |w| == |v|
    decreases i
  {
    if v == [] || i == 0 then v else ShuffleFrom(Swap(v, i, js[i]), js, i - 1)
  }

  function Shuffled<T>(v: seq<T>, js: seq<nat>): (w: seq<T>)
    requires Choices(js, |v|)
    ensures |w| == |v|
  {
    if v == [] then v else ShuffleFrom(v, js, |v| - 1)
  }

  predicate Distinct<T(==)>(v: seq<T>) {
    forall i, j :: 0 <= i < j < |v| ==> v[i] != v[j]
  }

  lemma {:induction false} ShufflePermutes<T>(v: seq<T>, js: seq<nat>, i: nat)
    requires Choices(js, |v|) && i < |v|
    ensures multiset(ShuffleFrom(v, js, i)) == multiset(v)
    decreases i
  {
    if i > 0 {
      SwapPermutes(v, i, js[i]);
      ShufflePermutes(Swap(v, i, js[i]), js, i - 1);
    }
  }

  /** Positions above `i` are final; position `i` gets the element chosen for it. */
  lemma {:induction false} ShuffleFixes<T>(v: seq<T>, js: seq<nat>, i: nat)
    requires Choices(js, |v|) && i < |v|
    ensures var w := ShuffleFrom(v, js, i);
            && (forall k :: i < k < |v| ==> w[k] == v[k])
            && (i > 0 ==> w[i] == v[js[i]])
    decreases i
  {
    if i > 0 {
      ShuffleFixes(Swap(v, i, js[i]), js, i - 1);
    }
  }

  lemma {:induction false} ChoiceDetermined<T>(v: seq<T>, js: seq<nat>, ks: seq<nat>, i: nat, k: nat)
    requires Choices(js, |v|) && Choices(ks, |v|) && i < |v| && Distinct(v)
    requires ShuffleFrom(v, js, i) == ShuffleFrom(v, ks, i)
    requires k <= i
    ensures js[k] == ks[k]
    decreases i
  {
    if i > 0 {
      ShuffleFixes(v, js, i);
      ShuffleFixes(v, ks, i);
      assert v[js[i]] == v[ks[i]];
      assert js[i] == ks[i];
      if k < i {
        ChoiceDetermined(Swap(v, i, js[i]), js, ks, i - 1, k);
      }
    }
  }

  /** Different choices give different orders. */
  lemma ShuffleInjective<T>(v: seq<T>, js: seq<nat>, ks: seq<nat>)
    requires Choices(js, |v|) && Choices(ks, |v|) && Distinct(v)
    requires Shuffled(v, js) == Shuffled(v, ks)
    ensures js == ks
  {
    forall k | 0 <= k < |v|
      ensures js[k] == ks[k]
    {
      ChoiceDetermined(v, js, ks, |v| - 1, k);
    }
  }

  lemma Cancel<T>(a: multiset<T>, b: multiset<T>, c: multiset<T>)
    requires a + c == b + c
    ensures a == b
  {
    assert (a + c) - c == a && (b + c) - c == b;
  }

  lemma SameHead<T>(v: seq<T>, w: seq<T>, i: nat)
    requires |v| == |w| && i < |v| && multiset(v) == multiset(w)
    requires forall k :: i < k < |v| ==> w[k] == v[k]
    ensures w[i] in v[..i + 1]
  {
    var a, b := v[..i + 1], w[..i + 1];
    assert v[i + 1..] == w[i + 1..];
    assert v == a + v[i + 1..] && w == b + w[i + 1..];
    assert multiset(v) == multiset(a) + multiset(v[i + 1..]);
    assert multiset(w) == multiset(b) + multiset(w[i + 1..]);
    Cancel(multiset(a), multiset(b), multiset(v[i + 1..]));
    assert b[i] == w[i] && w[i] in multiset(b);
  }

  /** Choices that lead from `v` to `w`, read off from the top. */
  lemma {:induction false} FindChoices<T>(v: seq<T>, w: seq<T>, i: nat) returns (js: seq<nat>)
    requires |v| == |w| && i < |v| && multiset(v) == multiset(w)
    requires forall k :: i < k < |v| ==> w[k] == v[k]
    ensures Choices(js, |v|) && ShuffleFrom(v, js, i) == w
    decreases i
  {
    SameHead(v, w, i);
    if i == 0 {
      js := seq(|v|, k => 0);
      assert v[..1] == [v[0]];
      assert v == w;
    } else {
      var j :| 0 <= j <= i && v[..i + 1][j] == w[i];
      var u := Swap(v, i, j);
      SwapPermutes(v, i, j);
      var ks := FindChoices(u, w, i - 1);
      js := ks[i := j];
      ChoicesBelow(u, ks, js, i - 1);
    }
  }

  /** Only the choices up to `i` matter. */
  lemma {:induction false} ChoicesBelow<T>(v: seq<T>, js: seq<nat>, ks: seq<nat>, i: nat)
    requires Choices(js, |v|) && Choices(ks, |v|) && i < |v|
    requires forall k :: 0 <= k <= i ==> js[k] == ks[k]
    ensures ShuffleFrom(v, js, i) == ShuffleFrom(v, ks, i)
    decreases i
  {
    if i > 0 {
      ChoicesBelow(Swap(v, i, js[i]), js, ks, i - 1);
    }
  }

  /** Every order is reached. */
  lemma ShuffleSurjective<T>(v: seq<T>, w: seq<T>) returns (js: seq<nat>)
    requires multiset(v) == multiset(w)
    ensures Choices(js, |v|) && Shuffled(v, js) == w
  {
    assert |multiset(v)| == |v| && |multiset(w)| == |w|;
    if v == [] {
      js := [];
    } else {
      js := FindChoices(v, w, |v| - 1);
    }
  }
}
