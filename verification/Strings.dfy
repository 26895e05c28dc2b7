// Searching and splitting strings.
module Strings {

  // The first position of a character, or the length.
  function IndexOf(s: string, c: char): (k: nat)
    ensures k <= |s|
    ensures k < |s| ==> s[k] == c
    ensures forall j :: 0 <= j < k ==> s[j] != c
  {
    if s == "" || s[0] == c then 0 else 1 + IndexOf(s[1..], c)
  }

  function Split(s: string, c: char): seq<string>
    decreases |s|
  {
    var k := IndexOf(s, c);
    if k == |s| then [s] else [s[..k]] + Split(s[k + 1..], c)
  }

  predicate Free(s: string, c: char) {
    forall i :: 0 <= i < |s| ==> s[i] != c
  }

  lemma IndexUnique(s: string, c: char, a: string, b: string)
    requires s == a + [c] + b && Free(a, c)
    ensures IndexOf(s, c) == |a| && s[..|a|] == a && s[|a| + 1..] == b
  {
    assert s[|a|] == c;
    assert forall j :: 0 <= j < |a| ==> s[j] == a[j];
  }

  lemma SplitFirst(a: string, b: string, c: char)
    requires Free(a, c)
    ensures Split(a + [c] + b, c) == [a] + Split(b, c)
  {
    IndexUnique(a + [c] + b, c, a, b);
  }

  lemma SplitFree(s: string, c: char)
    requires Free(s, c)
    ensures Split(s, c) == [s]
  {
  }

  lemma {:induction false} SplitLast(a: string, b: string, c: char)
    requires Free(b, c)
    ensures Split(a + [c] + b, c) == Split(a, c) + [b]
    decreases |a|
  {
    hide Split, IndexOf;
    var k := IndexOf(a, c);
    if k == |a| {
      SplitFree(a, c);
      SplitFree(b, c);
      SplitFirst(a, b, c);
    } else {
      var head, tail := a[..k], a[k + 1..];
      assert a == head + [c] + tail;
      SplitFirst(head, tail, c);
      SplitLast(tail, b, c);
      SplitFirst(head, tail + [c] + b, c);
      Regroup(a, head, tail, b, c);
      assert [head] + Split(tail, c) + [b] == [head] + (Split(tail, c) + [b]);
    }
  }

  lemma Regroup(a: string, head: string, tail: string, b: string, c: char)
    requires a == head + [c] + tail
    ensures a + [c] + b == head + [c] + (tail + [c] + b)
  {
  }

  lemma SplitThree(a: string, b: string, d: string, rest: string, c: char)
    requires Free(a, c) && Free(b, c) && Free(d, c)
    ensures Split(a + [c] + (b + [c] + (d + [c] + rest)), c) == [a, b, d] + Split(rest, c)
  {
    hide Split;
    SplitFirst(d, rest, c);
    SplitFirst(b, d + [c] + rest, c);
    SplitFirst(a, b + [c] + (d + [c] + rest), c);
  }

  // Pieces are no longer than the whole, and shorter if there is anything to split at.
  lemma {:induction false} PieceLength(s: string, c: char, x: string)
    requires x in Split(s, c)
    ensures |x| <= |s| && (!Free(s, c) ==> |x| < |s|)
    decreases |s|
  {
    var k := IndexOf(s, c);
    if k < |s| && x in Split(s[k + 1..], c) {
      PieceLength(s[k + 1..], c, x);
    }
  }
}
