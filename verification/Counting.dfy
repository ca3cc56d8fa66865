/** How many elements of a sequence have a property, kept up to date one element at a time. */
module Counting {

  function One(b: bool): nat { if b then 1 else 0 }

  function CountOf<T>(p: T -> bool, s: seq<T>): nat {
    if s == [] then 0 else CountOf(p, s[..|s| - 1]) + One(p(s[|s| - 1]))
  }

  lemma CountAppend<T>(p: T -> bool, s: seq<T>, x: T)
    ensures CountOf(p, s + [x]) == CountOf(p, s) + One(p(x))
  {
    assert (s + [x])[..|s|] == s;
  }

  lemma {:induction false} CountUpdate<T>(p: T -> bool, s: seq<T>, i: nat, x: T)
    requires i < |s|
    ensures CountOf(p, s[i := x]) == CountOf(p, s) - One(p(s[i])) + One(p(x))
  {
    var t := s[i := x];
    var n := |s| - 1;
    if i == n {
      assert t[..n] == s[..n];
    } else {
      assert t[..n] == s[..n][i := x];
      CountUpdate(p, s[..n], i, x);
    }
  }

  /** A property split into two exclusive ones is counted by the sum of their counts. */
  lemma {:induction false} CountSplit<T(!new)>(whole: T -> bool, p: T -> bool, q: T -> bool, s: seq<T>)
    requires forall x :: (whole(x) <==> p(x) || q(x)) && !(p(x) && q(x))
    ensures CountOf(whole, s) == CountOf(p, s) + CountOf(q, s)
  {
    if s != [] {
      CountSplit(whole, p, q, s[..|s| - 1]);
    }
  }

  lemma {:induction false} CountIsZeroIff<T>(p: T -> bool, s: seq<T>)
    ensures CountOf(p, s) == 0 <==> forall i | 0 <= i < |s| :: !p(s[i])
  {
    if s != [] {
      CountIsZeroIff(p, s[..|s| - 1]);
      assert forall i | 0 <= i < |s| - 1 :: s[..|s| - 1][i] == s[i];
    }
  }
}
