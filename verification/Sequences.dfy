// Splitting a sequence at its last element, the way the loops of the source grow their vectors.
module Sequences {
  function Front<T>(s: seq<T>): seq<T>
    requires s != []
  {
    s[..|s| - 1]
  }

  function Last<T>(s: seq<T>): T
    requires s != []
  {
    s[|s| - 1]
  }

  lemma {:induction false} Snoc<T>(s: seq<T>, x: T)
    ensures Front(s + [x]) == s && Last(s + [x]) == x
  {
  }

  lemma {:induction false} TakeSnoc<T>(s: seq<T>, i: nat)
    requires i < |s|
    ensures Front(s[..i + 1]) == s[..i] && Last(s[..i + 1]) == s[i]
    ensures s[..i + 1] == s[..i] + [s[i]]
  {
  }

  lemma {:induction false} SliceSnoc<T>(s: seq<T>, i: nat, j: nat)
    requires i <= j < |s|
    ensures s[i..j + 1] != [] && Front(s[i..j + 1]) == s[i..j] && Last(s[i..j + 1]) == s[j]
  {
  }

  lemma {:induction false} InSnoc<T>(s: seq<T>)
    requires s != []
    ensures forall x :: x in s <==> x in Front(s) || x == Last(s)
  {
    assert s == Front(s) + [Last(s)];
  }

  lemma {:induction false} MultisetSnoc<T>(s: seq<T>)
    requires s != []
    ensures multiset(s) == multiset(Front(s)) + multiset{Last(s)}
  {
    assert s == Front(s) + [Last(s)];
  }
}
