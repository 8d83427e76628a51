/** `Array.prototype.filter`, defined once and used for the relevance
    filter, the user-role filter and the index-name lookup. */
module Sequences {

  /** The elements of `s` that satisfy `p`, in their original order. */
  function Filter<T>(s: seq<T>, p: T -> bool): (r: seq<T>)
    ensures |r| <= |s|
    ensures forall i :: 0 <= i < |r| ==> r[i] in s && p(r[i])
    ensures forall i :: 0 <= i < |s| && p(s[i]) ==> s[i] in r
  {
    if s == [] then []
    else (if p(s[0]) then [s[0]] else []) + Filter(s[1..], p)
  }

  /** Filtering distributes over concatenation: together with the one-element
      case this pins down the result, order included. */
  lemma {:induction false} FilterAppend<T>(a: seq<T>, b: seq<T>, p: T -> bool)
    ensures Filter(a + b, p) == Filter(a, p) + Filter(b, p)
  {
    if a == [] {
      assert a + b == b;
    } else {
      assert (a + b)[0] == a[0];
      assert (a + b)[1..] == a[1..] + b;
      FilterAppend(a[1..], b, p);
    }
  }

  /** Exactly one position of `s` satisfies `p`. */
  ghost predicate ExactlyOne<T>(s: seq<T>, p: T -> bool) {
    && (exists i :: 0 <= i < |s| && p(s[i]))
    && (forall i, j :: 0 <= i < |s| && 0 <= j < |s| && p(s[i]) && p(s[j]) ==> i == j)
  }

  lemma FilterEmpty<T>(s: seq<T>, p: T -> bool)
    ensures Filter(s, p) == [] <==> forall j :: 0 <= j < |s| ==> !p(s[j])
  {
  }

  /** How ExactlyOne unfolds on the first element of a non-empty sequence. */
  lemma ExactlyOneStep<T>(s: seq<T>, p: T -> bool)
    requires s != []
    ensures ExactlyOne(s, p) <==>
      if p(s[0]) then forall j :: 0 <= j < |s| - 1 ==> !p(s[1..][j])
      else ExactlyOne(s[1..], p)
  {
  }

  /** A filter keeps exactly one element iff exactly one position satisfies the test. */
  lemma {:induction false} FilterLengthOne<T>(s: seq<T>, p: T -> bool)
    ensures |Filter(s, p)| == 1 <==> ExactlyOne(s, p)
  {
    if s != [] {
      ExactlyOneStep(s, p);
      if p(s[0]) {
        FilterEmpty(s[1..], p);
      } else {
        FilterLengthOne(s[1..], p);
      }
    }
  }
}
