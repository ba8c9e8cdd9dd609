/** The string functions of Go's `strings` package the model needs, on ASCII text. */
module Text {

  function LowerChar(c: char): char { if 'A' <= c <= 'Z' then c - 'A' + 'a' else c }

  function Lower(s: string): (r: string)
    ensures |r| == |s|
  {
    if s == "" then "" else [LowerChar(s[0])] + Lower(s[1..])
  }

  predicate EqualFold(a: string, b: string) { Lower(a) == Lower(b) }

  /** The same character, or the two cases of one ASCII letter. */
  predicate SameLetter(x: char, y: char) {
    x == y || ('A' <= x <= 'Z' && y == x - 'A' + 'a') || ('A' <= y <= 'Z' && x == y - 'A' + 'a')
  }

  predicate SameUpToCase(a: string, b: string) {
    |a| == |b| && forall i :: 0 <= i < |a| ==> SameLetter(a[i], b[i])
  }

  lemma {:induction false} LowerAt(s: string, i: nat)
    requires i < |s|
    ensures Lower(s)[i] == LowerChar(s[i])
  {
    if i > 0 {
      LowerAt(s[1..], i - 1);
    }
  }

  lemma SameLetterIff(x: char, y: char)
    ensures LowerChar(x) == LowerChar(y) <==> SameLetter(x, y)
  {
  }

  /** Folding compares letter by letter, up to case. */
  lemma EqualFoldIff(a: string, b: string)
    ensures EqualFold(a, b) <==> SameUpToCase(a, b)
  {
    if |a| == |b| {
      forall i | 0 <= i < |a|
        ensures Lower(a)[i] == Lower(b)[i] <==> SameLetter(a[i], b[i])
      {
        LowerAt(a, i);
        LowerAt(b, i);
        SameLetterIff(a[i], b[i]);
      }
    }
  }

  /** The position of the first `c`, or the length of `s` when there is none. */
  function Index(s: string, c: char): (i: nat)
    ensures i <= |s|
    ensures c !in s[..i]
    ensures i < |s| ==> s[i] == c
    ensures i == |s| <==> c !in s
  {
    if s == "" || s[0] == c then 0 else 1 + Index(s[1..], c)
  }

  /** The first occurrence is where the prefix without `c` ends. */
  lemma {:induction false} IndexAfter(prefix: string, c: char, rest: string)
    requires c !in prefix
    ensures Index(prefix + [c] + rest, c) == |prefix|
  {
    if prefix != "" {
      assert prefix[0] in prefix;
      IndexAfter(prefix[1..], c, rest);
      assert (prefix + [c] + rest)[1..] == prefix[1..] + [c] + rest;
    }
  }

  /** Text splits at the first `c`, and in no other way with a head without `c`. */
  lemma SplitsOnce(text: string, c: char, head: string, tail: string)
    ensures text == head + [c] + tail && c !in head <==>
      Index(text, c) < |text| && head == text[..Index(text, c)] && tail == text[Index(text, c) + 1..]
  {
    var i := Index(text, c);
    if i < |text| {
      assert text == text[..i] + [c] + text[i + 1..];
    }
    if text == head + [c] + tail && c !in head {
      IndexAfter(head, c, tail);
      assert text[..|head|] == head && text[|head| + 1..] == tail;
    }
  }
}
