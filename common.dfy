/** Small helpers shared by the model: optional and fallible values (Java's
    null and thrown exceptions), order-preserving filtering of lists, and
    the character-class matching the service uses for its regular expressions. */
module Common {

  /** A Java reference that may be null. */
  datatype Option<T> = None | Some(value: T)

  /** A computation that either yields a value or throws. */
  datatype Result<T, E> = Ok(value: T) | Err(error: E)

  /** The elements of `s` that satisfy `p`, in their original order, each as
      often as it occurs in `s` (what a for-each loop appending to a fresh
      ArrayList computes). */
  function FilterSeq<T>(s: seq<T>, p: T -> bool): seq<T>
    decreases |s|
  {
    if s == [] then []
    else FilterSeq(s[..|s| - 1], p) + (if p(s[|s| - 1]) then [s[|s| - 1]] else [])
  }

  /** `a` can be obtained from `b` by deleting elements. */
  predicate IsSubsequence<T(==)>(a: seq<T>, b: seq<T>)
    decreases |b|
  {
    a == []
    || (b != []
        && ((a[|a| - 1] == b[|b| - 1] && IsSubsequence(a[..|a| - 1], b[..|b| - 1]))
            || IsSubsequence(a, b[..|b| - 1])))
  }

  /** Filtering keeps exactly the elements that satisfy the predicate. */
  lemma {:induction false} FilterSeqMembers<T>(s: seq<T>, p: T -> bool, x: T)
    ensures x in FilterSeq(s, p) <==> x in s && p(x)
    decreases |s|
  {
    if s != [] {
      FilterSeqMembers(s[..|s| - 1], p, x);
      assert s == s[..|s| - 1] + [s[|s| - 1]];
    }
  }

  /** Filtering neither reorders nor duplicates elements. */
  lemma {:induction false} FilterSeqIsSubsequence<T>(s: seq<T>, p: T -> bool)
    ensures IsSubsequence(FilterSeq(s, p), s)
    decreases |s|
  {
    if s != [] {
      var init := s[..|s| - 1];
      FilterSeqIsSubsequence(init, p);
      var r := FilterSeq(s, p);
      if p(s[|s| - 1]) {
        assert r[..|r| - 1] == FilterSeq(init, p);
      } else {
        assert r == FilterSeq(init, p);
      }
    }
  }

  /** When every element satisfies the predicate, filtering changes nothing. */
  lemma {:induction false} FilterSeqAll<T>(s: seq<T>, p: T -> bool)
    requires forall i | 0 <= i < |s| :: p(s[i])
    ensures FilterSeq(s, p) == s
    decreases |s|
  {
    if s != [] {
      FilterSeqAll(s[..|s| - 1], p);
      assert s == s[..|s| - 1] + [s[|s| - 1]];
    }
  }

  /** One step of a left-to-right filtering loop. */
  lemma FilterSeqStep<T>(s: seq<T>, p: T -> bool, i: nat)
    requires i < |s|
    ensures FilterSeq(s[..i + 1], p) == FilterSeq(s[..i], p) + (if p(s[i]) then [s[i]] else [])
  {
    assert s[..i + 1][..i] == s[..i];
  }

  /** A non-empty sequence is its front followed by its last element. */
  lemma FrontLast<T>(s: seq<T>)
    requires s != []
    ensures s[..|s| - 1] + [s[|s| - 1]] == s
  {
  }

  /** Extending a trace in two steps is extending it once by both parts. */
  lemma ConcatAssoc<T>(a: seq<T>, b: seq<T>, c: seq<T>)
    ensures (a + b) + c == a + (b + c)
  {
  }

  /** Two id sets with a non-empty intersection share an id. */
  lemma IntersectionWitness(a: set<int>, b: set<int>)
    requires a * b != {}
    ensures exists x :: x in a && x in b
  {
    if forall x :: !(x in a && x in b) {
      assert false;
    }
  }

  /** A non-empty id set has an element. */
  lemma NonEmptyWitness(a: set<int>)
    requires a != {}
    ensures exists x :: x in a
  {
    assert a * a == a;
    IntersectionWitness(a, a);
  }

  /** A whole-string match of the regular expression `[cls]+`, scanned
      character by character. */
  function MatchesPlus(s: string, cls: char -> bool): (b: bool)
    ensures b <==> |s| > 0 && forall i | 0 <= i < |s| :: cls(s[i])
    decreases |s|
  {
    if |s| == 0 then false
    else cls(s[0]) && (|s| == 1 || MatchesPlus(s[1..], cls))
  }

  /** ASCII decimal digit, what `\d` means in a Java regular expression. */
  predicate IsDigit(c: char) { '0' <= c <= '9' }

  predicate IsLower(c: char) { 'a' <= c <= 'z' }

  predicate IsUpper(c: char) { 'A' <= c <= 'Z' }
}
