/** The strings that read as resource quantities: "100m", "512Mi", "851950646n". */
module Quantity {
  const SUFFIXES: set<string> := {"", "n", "u", "m", "k", "M", "G", "T", "P", "E", "Ki", "Mi", "Gi", "Ti", "Pi", "Ei"}

  predicate IsDigit(c: char) { '0' <= c <= '9' }

  /** Where the run of digits that starts at `i` ends. */
  function DigitsEnd(s: string, i: nat): (e: nat)
    requires i <= |s|
    ensures i <= e <= |s| && (e < |s| ==> !IsDigit(s[e])) && forall j :: i <= j < e ==> IsDigit(s[j])
    decreases |s| - i
  {
    if i < |s| && IsDigit(s[i]) then DigitsEnd(s, i + 1) else i
  }

  /** Where the number the string starts with ends: a sign, digits, and a fraction if a
      point with digits follows. Zero when there is none. */
  function NumberEnd(s: string): (e: nat)
    ensures e <= |s|
  {
    var start := if s != "" && s[0] == '-' then 1 else 0;
    var whole := DigitsEnd(s, start);
    if whole == start then 0
    else if whole < |s| && s[whole] == '.' && DigitsEnd(s, whole + 1) > whole + 1 then DigitsEnd(s, whole + 1)
    else whole
  }

  predicate IsQuantity(s: string) { NumberEnd(s) > 0 && s[NumberEnd(s)..] in SUFFIXES }

  predicate Digits(s: string) { s != "" && forall c :: c in s ==> '0' <= c <= '9' }

  /** The string is a sign, digits, an optional fraction, and the rest. */
  predicate Reads(s: string, sign: string, whole: string, fraction: string, rest: string) {
    && s == sign + whole + fraction + rest
    && (sign == "" || sign == "-") && Digits(whole)
    && (fraction == "" || (fraction[0] == '.' && Digits(fraction[1..])))
  }

  predicate IsWord(s: string) { s != "" ==> !IsDigit(s[0]) && s[0] != '.' }

  lemma SuffixesAreWords(suffix: string)
    requires suffix in SUFFIXES
    ensures IsWord(suffix)
  {
  }

  lemma DigitsEndAt(s: string, i: nat, digits: string, rest: string)
    requires i <= |s| && s[i..] == digits + rest
    requires (forall c :: c in digits ==> IsDigit(c)) && (rest != "" ==> !IsDigit(rest[0]))
    ensures DigitsEnd(s, i) == i + |digits|
  {
    var e := i + |digits|;
    assert |s[i..]| == |digits| + |rest|;
    forall j | i <= j < e
      ensures IsDigit(s[j])
    {
      assert s[j] == s[i..][j - i] == digits[j - i] && digits[j - i] in digits;
    }
    assert e < |s| ==> s[e] == s[i..][|digits|] == rest[0];
  }

  lemma WholeEnd(s: string, sign: string, whole: string, tail: string)
    requires s == sign + whole + tail && Digits(whole) && (tail != "" ==> !IsDigit(tail[0]))
    ensures DigitsEnd(s, |sign|) == |sign| + |whole|
  {
    assert s[|sign|..] == whole + tail;
    DigitsEndAt(s, |sign|, whole, tail);
  }

  lemma SignStarts(s: string, sign: string, whole: string, tail: string)
    requires s == sign + whole + tail && Digits(whole) && (sign == "" || sign == "-")
    ensures s != "" && (s[0] == '-' <==> sign == "-")
  {
    assert s[|sign|] == whole[0] && whole[0] in whole;
  }

  lemma FractionEnd(s: string, b: nat, fraction: string, rest: string)
    requires b <= |s| && s[b..] == fraction + rest && IsWord(rest)
    requires fraction == "" || (fraction[0] == '.' && Digits(fraction[1..]))
    ensures s[b + |fraction|..] == rest
    ensures fraction != "" ==> b < |s| && s[b] == '.' && DigitsEnd(s, b + 1) == b + |fraction| && |fraction| > 1
    ensures fraction == "" && b < |s| ==> s[b] != '.'
  {
    if fraction != "" {
      assert s[b] == s[b..][0] == fraction[0];
      assert s[b + 1..] == s[b..][1..] == fraction[1..] + rest;
      DigitsEndAt(s, b + 1, fraction[1..], rest);
    } else if b < |s| {
      assert s[b..] == rest && s[b] == s[b..][0] == rest[0];
    }
  }

  lemma TailOfThree(s: string, a: string, b: string, tail: string)
    requires s == a + b + tail
    ensures s[|a| + |b|..] == tail
  {
  }

  lemma JoinTail(a: string, b: string, c: string, d: string)
    ensures a + b + c + d == a + b + (c + d)
    ensures c == "" ==> c + d == d
  {
  }

  lemma ReadingEndsNumber(s: string, sign: string, whole: string, fraction: string, rest: string)
    requires Reads(s, sign, whole, fraction, rest) && IsWord(rest)
    ensures NumberEnd(s) == |sign| + |whole| + |fraction| > 0 && s[NumberEnd(s)..] == rest
  {
    var tail := fraction + rest;
    JoinTail(sign, whole, fraction, rest);
    SignStarts(s, sign, whole, tail);
    WholeEnd(s, sign, whole, tail);
    TailOfThree(s, sign, whole, tail);
    FractionEnd(s, |sign| + |whole|, fraction, rest);
  }

  lemma DigitsBetween(s: string, i: nat)
    requires i <= |s| && DigitsEnd(s, i) > i
    ensures Digits(s[i..DigitsEnd(s, i)])
  {
  }

  lemma FourPieces(s: string, a: nat, b: nat, c: nat)
    requires a <= b <= c <= |s|
    ensures s == s[..a] + s[a..b] + s[b..c] + s[c..]
  {
  }

  lemma NumberReads(s: string) returns (sign: string, whole: string, fraction: string)
    requires NumberEnd(s) > 0
    ensures Reads(s, sign, whole, fraction, s[NumberEnd(s)..])
  {
    var a := if s != "" && s[0] == '-' then 1 else 0;
    var b, c := DigitsEnd(s, a), NumberEnd(s);
    DigitsBetween(s, a);
    sign, whole, fraction := s[..a], s[a..b], s[b..c];
    FourPieces(s, a, b, c);
    if c > b {
      DigitsBetween(s, b + 1);
      assert fraction[1..] == s[b + 1..c];
    }
  }

  /** Nothing, a decimal suffix, or a binary one. */
  predicate IsSuffix(s: string) {
    s == "" || (|s| == 1 && s[0] in "numkMGTPE") || (|s| == 2 && s[0] in "KMGTPE" && s[1] == 'i')
  }

  lemma SuffixIff(s: string)
    ensures s in SUFFIXES <==> IsSuffix(s)
  {
    if |s| == 1 {
      assert s == [s[0]];
    } else if |s| == 2 {
      assert s == [s[0], s[1]];
    }
  }

  /** The scan accepts exactly the strings the pattern spells: a sign, digits, an
      optional fraction, and a suffix of the list. */
  lemma IsQuantityIffSpelled(s: string)
    ensures IsQuantity(s) <==>
      exists sign, whole, fraction, suffix :: Reads(s, sign, whole, fraction, suffix) && IsSuffix(suffix)
  {
    if IsQuantity(s) {
      var sign, whole, fraction := NumberReads(s);
      SuffixIff(s[NumberEnd(s)..]);
    }
    forall sign, whole, fraction, suffix | Reads(s, sign, whole, fraction, suffix) && IsSuffix(suffix)
      ensures IsQuantity(s)
    {
      SuffixIff(suffix);
      SuffixesAreWords(suffix);
      ReadingEndsNumber(s, sign, whole, fraction, suffix);
    }
  }
}
