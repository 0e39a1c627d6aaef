/** Comparing texts without regard to case, and joining them: said by characters and
    positions. */
module TextLaws {
  import opened Drafts

  /** The same character, or the two cases of one of the letters from a to z. */
  predicate SameLetter(a: char, b: char) {
    || a == b
    || ('A' <= a <= 'Z' && b as int == a as int + 32)
    || ('A' <= b <= 'Z' && a as int == b as int + 32)
  }

  predicate SameLetters(a: string, b: string) {
    |a| == |b| && forall i :: 0 <= i < |a| ==> SameLetter(a[i], b[i])
  }

  lemma LowerCompares(a: char, b: char)
    ensures Lower(a) == Lower(b) <==> SameLetter(a, b)
  {
  }

  /** Folding forgets exactly the case of letters. */
  lemma FoldedCompares(a: string, b: string)
    ensures Folded(a) == Folded(b) <==> SameLetters(a, b)
  {
    if SameLetters(a, b) {
      forall i | 0 <= i < |a|
        ensures Folded(a)[i] == Folded(b)[i]
      {
        LowerCompares(a[i], b[i]);
      }
    }
    if Folded(a) == Folded(b) {
      assert |Folded(a)| == |a| && |Folded(b)| == |b|;
      forall i | 0 <= i < |a|
        ensures SameLetter(a[i], b[i])
      {
        assert Folded(a)[i] == Folded(b)[i];
        LowerCompares(a[i], b[i]);
      }
    }
  }

  /** The parts one after the other, with the separator between each two. */
  function Chained(parts: seq<string>, separator: string): string {
    if parts == [] then ""
    else if |parts| == 1 then parts[0]
    else Chained(parts[..|parts| - 1], separator) + separator + parts[|parts| - 1]
  }

  lemma ConcatTwice(a: string, b: string, c: string, d: string, e: string)
    ensures a + b + (c + d + e) == (a + b + c) + d + e
  {
  }

  lemma {:induction false} ChainedFront(parts: seq<string>, separator: string)
    requires |parts| > 1
    ensures Chained(parts, separator) == parts[0] + separator + Chained(parts[1..], separator)
  {
    var n := |parts| - 1;
    assert parts[..n][0] == parts[0] && parts[1..][n - 1] == parts[n];
    if n > 1 {
      ChainedFront(parts[..n], separator);
      assert parts[..n][1..] == parts[1..][..n - 1];
      ConcatTwice(parts[0], separator, Chained(parts[1..n], separator), separator, parts[n]);
    } else {
      assert parts[..n] == [parts[0]] && parts[1..] == [parts[1]];
    }
  }

  /** Joining is chaining. */
  lemma {:induction false} JoinedIsChained(parts: seq<string>, separator: string)
    ensures Joined(parts, separator) == Chained(parts, separator)
  {
    if |parts| > 1 {
      JoinedIsChained(parts[1..], separator);
      ChainedFront(parts, separator);
    }
  }
}
