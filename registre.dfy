/** The registry of living persons, as an ordered sequence, and its removal operation. */
module Registre {

  /** The index of the first occurrence of `x` in `s`. */
  function PremierIndice<T(==)>(s: seq<T>, x: T): (i: nat)
    requires x in s
    ensures i < |s| && s[i] == x
    ensures x !in s[..i]
  {
    if s[0] == x then 0
    else
      var j := PremierIndice(s[1..], x);
      assert s[..j + 1] == [s[0]] + s[1..][..j];
      j + 1
  }

  /**
   * `s` without the first occurrence of `x` (a list's remove-by-identity);
   * `s` itself when `x` does not occur.
   */
  function RetirerPremier<T(==)>(s: seq<T>, x: T): (r: seq<T>)
    ensures x !in s ==> r == s
    ensures x in s ==> |r| == |s| - 1
  {
    if s == [] then []
    else if s[0] == x then s[1..]
    else [s[0]] + RetirerPremier(s[1..], x)
  }

  /** Removal takes away exactly one occurrence of `x`, if there is one, and nothing else. */
  lemma {:induction false} RetirerPremierMultiset<T>(s: seq<T>, x: T)
    ensures multiset(RetirerPremier(s, x)) == multiset(s) - multiset{x}
  {
    if s != [] {
      assert s == [s[0]] + s[1..];
      if s[0] != x {
        RetirerPremierMultiset(s[1..], x);
      }
    }
  }

  /** Removal cuts out exactly the element at the first index of `x`: the others keep their order. */
  lemma {:induction false} RetirerPremierTranche<T>(s: seq<T>, x: T)
    requires x in s
    ensures RetirerPremier(s, x) == s[..PremierIndice(s, x)] + s[PremierIndice(s, x) + 1..]
  {
    if s[0] != x {
      RetirerPremierTranche(s[1..], x);
      var j := PremierIndice(s[1..], x);
      assert s[..j + 1] == [s[0]] + s[1..][..j];
      assert s[j + 2..] == s[1..][j + 1..];
    }
  }

  /** Removing an element that was just appended, and was not there before, gives back the registry as it was. */
  lemma {:induction false} RetirerApresAjout<T>(s: seq<T>, x: T)
    requires x !in s
    ensures RetirerPremier(s + [x], x) == s
  {
    if s != [] {
      assert (s + [x])[1..] == s[1..] + [x];
      RetirerApresAjout(s[1..], x);
    }
  }

  /** Removal never touches any other element: `y` is in the result exactly when it was in `s`. */
  lemma RetirerPremierAutres<T>(s: seq<T>, x: T, y: T)
    requires y != x
    ensures y in RetirerPremier(s, x) <==> y in s
  {
  }
}
