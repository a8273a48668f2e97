/** Sums over sequences, grown and updated the way the ledger's tables are. */
module Totals {

  /** The sum of `f` over `s`. */
  function Total<T>(s: seq<T>, f: T -> int): int {
    if s == [] then 0 else Total(s[..|s| - 1], f) + f(s[|s| - 1])
  }

  lemma TotalSnoc<T>(s: seq<T>, x: T, f: T -> int)
    ensures Total(s + [x], f) == Total(s, f) + f(x)
  {
    assert (s + [x])[..|s|] == s;
  }

  lemma {:induction false} TotalAppend<T>(s: seq<T>, t: seq<T>, f: T -> int)
    ensures Total(s + t, f) == Total(s, f) + Total(t, f)
  {
    if t == [] {
      assert s + t == s;
    } else {
      var init, last := t[..|t| - 1], t[|t| - 1];
      assert s + t == (s + init) + [last];
      TotalSnoc(s + init, last, f);
      TotalAppend(s, init, f);
    }
  }

  lemma {:induction false} TotalUpdate<T>(s: seq<T>, i: nat, x: T, f: T -> int)
    requires i < |s|
    ensures Total(s[i := x], f) == Total(s, f) - f(s[i]) + f(x)
  {
    var n := |s| - 1;
    if i == n {
      assert s[i := x][..n] == s[..n];
    } else {
      assert s[i := x][..n] == s[..n][i := x];
      TotalUpdate(s[..n], i, x, f);
    }
  }

  /** Two measures that agree on every element have the same sum. */
  lemma {:induction false} TotalAgree<T>(s: seq<T>, f: T -> int, g: T -> int)
    requires forall i :: 0 <= i < |s| ==> f(s[i]) == g(s[i])
    ensures Total(s, f) == Total(s, g)
  {
    if s != [] {
      TotalAgree(s[..|s| - 1], f, g);
    }
  }

  /** A measure that splits in two at every element has a sum that splits in two. */
  lemma {:induction false} TotalSplit<T>(s: seq<T>, f: T -> int, g: T -> int, h: T -> int)
    requires forall i :: 0 <= i < |s| ==> f(s[i]) == g(s[i]) + h(s[i])
    ensures Total(s, f) == Total(s, g) + Total(s, h)
  {
    if s != [] {
      TotalSplit(s[..|s| - 1], f, g, h);
    }
  }

  /** A non-negative measure has a non-negative sum, zero exactly when it vanishes everywhere. */
  lemma {:induction false} TotalNonNegative<T>(s: seq<T>, f: T -> int)
    requires forall i :: 0 <= i < |s| ==> f(s[i]) >= 0
    ensures Total(s, f) >= 0
    ensures Total(s, f) == 0 <==> forall i :: 0 <= i < |s| ==> f(s[i]) == 0
  {
    if s != [] {
      var n := |s| - 1;
      TotalNonNegative(s[..n], f);
      assert forall i :: 0 <= i < n ==> s[..n][i] == s[i];
    }
  }

  /** One element of a non-negative measure never exceeds the sum. */
  lemma {:induction false} TotalAtLeast<T>(s: seq<T>, i: nat, f: T -> int)
    requires i < |s|
    requires forall j :: 0 <= j < |s| ==> f(s[j]) >= 0
    ensures f(s[i]) <= Total(s, f)
  {
    var n := |s| - 1;
    TotalNonNegative(s[..n], f);
    if i < n {
      TotalAtLeast(s[..n], i, f);
    }
  }
}
