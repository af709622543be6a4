/**
 * The password helpers of the node3 script: character-class suggestions,
 * a similarity ratio between two passwords, and the most similar saved
 * password. Scores are exact rationals rather than floats.
 */
module Passwords {
  import opened Wrappers

  predicate IsUpper(c: char) { 'A' <= c <= 'Z' }
  predicate IsLower(c: char) { 'a' <= c <= 'z' }
  predicate IsDigit(c: char) { '0' <= c <= '9' }
  predicate IsAlnum(c: char) { IsUpper(c) || IsLower(c) || IsDigit(c) }

  /** The three regular-expression classes the suggestions search for. */
  datatype CharClass =
    | Capital   // [A-Z]
    | Simple    // [a-z]
    | Special   // [^a-zA-Z0-9]

  predicate InClass(k: CharClass, c: char) {
    match k
    case Capital => IsUpper(c)
    case Simple => IsLower(c)
    case Special => !IsAlnum(c)
  }

  /** Whether the class occurs anywhere in `p`, as a regular-expression search does. */
  function Search(k: CharClass, p: string): (found: bool)
    ensures found <==> exists i :: 0 <= i < |p| && InClass(k, p[i])
  {
    if p == [] then false
    else if InClass(k, p[0]) then true
    else
      var rest := Search(k, p[1..]);
      assert forall i :: 0 < i < |p| ==> p[i] == p[1..][i - 1];
      rest
  }

  const CapitalHint: string := "use capital letters"
  const SpecialHint: string := "use special characters"
  const SimpleHint: string := "use simple letters"

  /** Position of a hint in the fixed order the suggestions are listed in. */
  function HintRank(h: string): nat {
    if h == CapitalHint then 0 else if h == SpecialHint then 1 else 2
  }

  predicate IsHint(h: string) {
    h == CapitalHint || h == SpecialHint || h == SimpleHint
  }

  /**
   * generate_password_suggestions: one hint per character class the
   * password lacks, listed capital, special, simple.
   */
  function GenerateSuggestions(p: string): (r: seq<string>)
    ensures CapitalHint in r <==> forall i :: 0 <= i < |p| ==> !IsUpper(p[i])
    ensures SpecialHint in r <==> forall i :: 0 <= i < |p| ==> IsAlnum(p[i])
    ensures SimpleHint in r <==> forall i :: 0 <= i < |p| ==> !IsLower(p[i])
    ensures forall h :: h in r ==> IsHint(h)
    ensures forall i, j :: 0 <= i < j < |r| ==> HintRank(r[i]) < HintRank(r[j])
    ensures |r| <= 3
    ensures p == [] ==> r == [CapitalHint, SpecialHint, SimpleHint]
  {
    (if !Search(Capital, p) then [CapitalHint] else [])
    + (if !Search(Special, p) then [SpecialHint] else [])
    + (if !Search(Simple, p) then [SimpleHint] else [])
  }

  /** The distinct characters of a string. */
  function Chars(s: string): set<char> {
    set c | c in s
  }

  lemma {:induction false} CharsBound(s: string)
    ensures |Chars(s)| <= |s|
  {
    if s != [] {
      assert Chars(s) == {s[0]} + Chars(s[1..]);
      CharsBound(s[1..]);
    }
  }

  function Max(a: nat, b: nat): nat {
    if a >= b then a else b
  }

  /** Number of distinct characters two strings share. */
  function Common(a: string, b: string): nat {
    |Chars(a) * Chars(b)|
  }

  /**
   * The similarity ratio: shared distinct characters over the length of
   * the longer string. Undefined when both strings are empty.
   */
  function Similarity(a: string, b: string): (r: real)
    requires a != [] || b != []
    ensures 0.0 <= r <= 1.0
    ensures r == 0.0 <==> Chars(a) !! Chars(b)
  {
    var d := Max(|a|, |b|);
    CommonBound(a, b);
    var n := Common(a, b);
    assert n == 0 <==> Chars(a) !! Chars(b) by {
      if n == 0 {
        assert Chars(a) * Chars(b) == {};
      }
    }
    RatioBounds(n, d);
    n as real / d as real
  }

  lemma CommonBound(a: string, b: string)
    ensures Common(a, b) <= |Chars(a)| <= |a|
    ensures Common(a, b) <= |Chars(b)| <= |b|
  {
    CharsBound(a);
    CharsBound(b);
    SubsetSize(Chars(a) * Chars(b), Chars(a));
    SubsetSize(Chars(a) * Chars(b), Chars(b));
  }

  lemma SubsetSize<T>(x: set<T>, y: set<T>)
    requires x <= y
    ensures |x| <= |y|
  {
    assert y == x + (y - x);
  }

  lemma RatioBounds(n: nat, d: nat)
    requires 0 < d && n <= d
    ensures 0.0 <= n as real / d as real <= 1.0
    ensures n as real / d as real == 0.0 <==> n == 0
    ensures n as real / d as real == 1.0 <==> n == d
  {
  }

  /** Division by zero in calculate_similarity, when both strings are empty. */
  datatype SimilarityError = ZeroDivision

  /** calculate_similarity, with the division by zero as an error value. */
  function CalculateSimilarity(a: string, b: string): (r: Result<real, SimilarityError>)
    ensures r.Failure? <==> a == [] && b == []
    ensures r.Success? ==> r.value == Similarity(a, b)
  {
    if a == [] && b == [] then Failure(ZeroDivision) else Success(Similarity(a, b))
  }

  /** The ratio does not depend on the order of its arguments. */
  lemma SimilaritySymmetric(a: string, b: string)
    requires a != [] || b != []
    ensures Similarity(a, b) == Similarity(b, a)
  {
    assert Chars(a) * Chars(b) == Chars(b) * Chars(a);
  }

  /**
   * The ratio is 1 exactly when both strings have the same length, the
   * same characters, and no repeated character.
   */
  lemma SimilarityOneIff(a: string, b: string)
    requires a != [] || b != []
    ensures Similarity(a, b) == 1.0 <==> |a| == |b| && Chars(a) == Chars(b) && |Chars(a)| == |a|
  {
    CommonBound(a, b);
    RatioBounds(Common(a, b), Max(|a|, |b|));
    var A, B := Chars(a), Chars(b);
    if |a| == |b| && A == B && |A| == |a| {
      assert A * B == A;
    }
    if Similarity(a, b) == 1.0 {
      assert Common(a, b) == Max(|a|, |b|);
      SubsetOfSameSize(A * B, A);
      SubsetOfSameSize(A * B, B);
    }
  }

  lemma SubsetOfSameSize<T>(x: set<T>, y: set<T>)
    requires x <= y && |x| == |y|
    ensures x == y
  {
    assert y == x + (y - x);
    assert |y - x| == 0;
  }

  /** Every password scores against the input without a division by zero. */
  predicate AllScorable(input: string, passwords: seq<string>) {
    forall i :: 0 <= i < |passwords| ==> input != [] || passwords[i] != []
  }

  /**
   * `k` is where find_most_similar_password settles: a positive score no
   * other entry beats, reached by no earlier entry.
   */
  predicate IsFirstBest(input: string, passwords: seq<string>, k: int)
    requires AllScorable(input, passwords)
  {
    && 0 <= k < |passwords|
    && Similarity(input, passwords[k]) > 0.0
    && (forall i :: 0 <= i < |passwords| ==> Similarity(input, passwords[i]) <= Similarity(input, passwords[k]))
    && (forall i :: 0 <= i < k ==> Similarity(input, passwords[i]) < Similarity(input, passwords[k]))
  }

  /** At most one entry is the first best. */
  lemma FirstBestUnique(input: string, passwords: seq<string>, k1: int, k2: int)
    requires AllScorable(input, passwords)
    requires IsFirstBest(input, passwords, k1) && IsFirstBest(input, passwords, k2)
    ensures k1 == k2
  {
  }

  /**
   * find_most_similar_password: the first entry with the highest positive
   * score, or nothing when every score is 0 (or the list is empty).
   */
  method FindMostSimilarPassword(input: string, passwords: seq<string>)
    returns (r: Result<Option<string>, SimilarityError>)
    ensures r.Failure? <==> input == [] && [] in passwords
    ensures r.Success? ==> AllScorable(input, passwords)
    ensures r.Success? && r.value.None? ==>
      forall i :: 0 <= i < |passwords| ==> Similarity(input, passwords[i]) == 0.0
    ensures r.Success? && r.value.Some? ==>
      exists k :: IsFirstBest(input, passwords, k) && passwords[k] == r.value.value
  {
    var best: Option<string> := None;
    var maxScore: real := 0.0;
    ghost var bestIndex: int := -1;
    var i := 0;
    while i < |passwords|
      invariant 0 <= i <= |passwords|
      invariant AllScorable(input, passwords[..i])
      invariant bestIndex < 0 ==> best == None && maxScore == 0.0
      invariant bestIndex < 0 ==> forall j :: 0 <= j < i ==> Similarity(input, passwords[j]) == 0.0
      invariant 0 <= bestIndex ==>
        && bestIndex < i
        && best == Some(passwords[bestIndex])
        && maxScore == Similarity(input, passwords[bestIndex])
        && maxScore > 0.0
        && (forall j :: 0 <= j < i ==> Similarity(input, passwords[j]) <= maxScore)
        && (forall j :: 0 <= j < bestIndex ==> Similarity(input, passwords[j]) < maxScore)
    {
      var score := CalculateSimilarity(input, passwords[i]);
      if score.Failure? {
        assert passwords[i] in passwords;
        return Failure(score.error);
      }
      if score.value > maxScore {
        maxScore := score.value;
        best := Some(passwords[i]);
        bestIndex := i;
      }
      i := i + 1;
    }
    assert passwords[..i] == passwords;
    if 0 <= bestIndex {
      assert IsFirstBest(input, passwords, bestIndex);
    }
    return Success(best);
  }
}
