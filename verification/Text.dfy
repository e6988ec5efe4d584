// The string operations of the original's standard library that the models use.
module Text {

  // White space for trim and for the class \s.
  predicate Space(c: char) {
    || c == ' '
    || '\t' <= c <= '\r'
    || c == '\U{a0}' || c == '\U{1680}' || '\U{2000}' <= c <= '\U{200a}' || c == '\U{2028}' || c == '\U{2029}'
    || c == '\U{202f}' || c == '\U{205f}' || c == '\U{3000}' || c == '\U{feff}'
  }

  // The white space and line terminators of ECMAScript, code point by code point.
  lemma SpacesAre(c: char)
    ensures Space(c) <==>
      c in "\t\n\U{b}\U{c}\r \U{a0}\U{1680}\U{2000}\U{2001}\U{2002}\U{2003}\U{2004}\U{2005}\U{2006}" ||
      c in "\U{2007}\U{2008}\U{2009}\U{200a}\U{2028}\U{2029}\U{202f}\U{205f}\U{3000}\U{feff}"
  {
  }

  function TrimStart(s: string): (t: string)
    ensures |t| <= |s|
    ensures t == "" || !Space(t[0])
  {
    if s != "" && Space(s[0]) then TrimStart(s[1..]) else s
  }

  function TrimEnd(s: string): (t: string)
    ensures t <= s
    ensures t == "" || !Space(t[|t| - 1])
    ensures s != "" && !Space(s[0]) ==> t != "" && t[0] == s[0]
  {
    if s != "" && Space(s[|s| - 1]) then TrimEnd(s[..|s| - 1]) else s
  }

  predicate Trimmed(s: string) { s == "" || (!Space(s[0]) && !Space(s[|s| - 1])) }

  function Trim(s: string): (t: string)
    ensures Trimmed(t)
    ensures |t| <= |s|
    ensures Trimmed(s) ==> t == s
  {
    TrimEnd(TrimStart(s))
  }

  // Lower case of ASCII letters and of the Kelvin sign, the only characters
  // whose lower case can spell an ASCII word.
  function LowerChar(c: char): char {
    if 'A' <= c <= 'Z' then (c as int + 32) as char
    else if c == '\U{212a}' then 'k'
    else c
  }

  function Lower(s: string): (t: string)
    ensures |t| == |s|
  {
    if s == [] then [] else [LowerChar(s[0])] + Lower(s[1..])
  }

  lemma {:induction false} LowerAt(s: string, i: nat)
    requires i < |s|
    ensures Lower(s)[i] == LowerChar(s[i])
  {
    if i > 0 { LowerAt(s[1..], i - 1); }
  }

  // Each capital becomes the small letter at its place in the alphabet, and ASCII
  // is otherwise kept.
  lemma CapitalsBecomeSmall(c: char)
    ensures 'A' <= c <= 'Z' <==> c < '\U{80}' && LowerChar(c) != c
    ensures 'A' <= c <= 'Z' ==> LowerChar(c) - 'a' == c - 'A' && 'a' <= LowerChar(c) <= 'z'
  {
  }

  predicate StartsWith(s: string, w: string) { w <= s }

  predicate Contains(s: string, w: string)
    ensures Contains(s, w) <==> exists i :: 0 <= i <= |s| && w <= s[i..]
  {
    if StartsWith(s, w) then assert w <= s[0..]; true
    else if s == "" then false
    else
      assert forall i :: 0 < i <= |s| ==> s[i..] == s[1..][i - 1..];
      assert forall i :: 0 <= i <= |s[1..]| ==> s[1..][i..] == s[i + 1..];
      Contains(s[1..], w)
  }

  predicate ContainsOneOf(s: string, words: seq<string>) {
    exists i :: 0 <= i < |words| && Contains(s, words[i])
  }

  // ---- decimal numerals

  predicate Digit(c: char) { '0' <= c <= '9' }

  predicate Digits(s: string) { forall i | 0 <= i < |s| :: Digit(s[i]) }

  function DigitOf(n: nat): (c: char)
    requires n < 10
    ensures Digit(c) && c as int - '0' as int == n
  {
    (n + '0' as int) as char
  }

  function PrintNat(n: nat): (s: string)
    ensures s != "" && Digits(s)
  {
    if n < 10 then [DigitOf(n)] else PrintNat(n / 10) + [DigitOf(n % 10)]
  }

  function ParseNat(s: string): nat
    requires Digits(s)
  {
    if s == "" then 0 else 10 * ParseNat(s[..|s| - 1]) + (s[|s| - 1] as int - '0' as int)
  }

  lemma {:induction false} ParseUndoesPrint(n: nat)
    ensures ParseNat(PrintNat(n)) == n
  {
    if n >= 10 {
      ParseUndoesPrint(n / 10);
      assert PrintNat(n)[..|PrintNat(n)| - 1] == PrintNat(n / 10);
    } else {
      assert PrintNat(n)[..0] == "";
    }
  }

  lemma PrintIsInjective(m: nat, n: nat)
    ensures PrintNat(m) == PrintNat(n) ==> m == n
  {
    ParseUndoesPrint(m);
    ParseUndoesPrint(n);
  }

  // ---- splitting

  predicate Free(s: string, c: char) { c !in s }

  // The pieces between the separators; there is always at least one.
  function Split(s: string, sep: char): (parts: seq<string>)
    ensures parts != []
  {
    if s == "" then [""]
    else
      var rest := Split(s[1..], sep);
      if s[0] == sep then [""] + rest else [[s[0]] + rest[0]] + rest[1..]
  }

  lemma {:induction false} SplitFree(s: string, sep: char)
    requires Free(s, sep)
    ensures Split(s, sep) == [s]
  {
    if s != "" {
      SplitFree(s[1..], sep);
      assert [s[0]] + s[1..] == s;
    }
  }

  lemma {:induction false} SplitFirst(s: string, sep: char, rest: string)
    requires Free(s, sep)
    ensures Split(s + [sep] + rest, sep) == [s] + Split(rest, sep)
  {
    var all := s + [sep] + rest;
    if s == "" {
      assert all[1..] == rest;
    } else {
      SplitFirst(s[1..], sep, rest);
      assert all[0] == s[0] && all[1..] == s[1..] + [sep] + rest;
      assert [s[0]] + s[1..] == s;
    }
  }

  lemma {:induction false} SplitLast(s: string, sep: char, last: string)
    requires Free(last, sep)
    ensures Split(s + [sep] + last, sep) == Split(s, sep) + [last]
  {
    var all := s + [sep] + last;
    if s == "" {
      assert all[1..] == last;
      SplitFree(last, sep);
    } else {
      SplitLast(s[1..], sep, last);
      assert all[0] == s[0] && all[1..] == s[1..] + [sep] + last;
    }
  }

  // The pieces between runs of white space.
  function SplitSpace(s: string): (parts: seq<string>)
    ensures parts != []
    decreases |s|
  {
    if s == "" then [""]
    else if Space(s[0]) then [""] + SplitSpace(TrimStart(s[1..]))
    else
      var rest := SplitSpace(s[1..]);
      [[s[0]] + rest[0]] + rest[1..]
  }

  predicate Spaceless(s: string) { forall i | 0 <= i < |s| :: !Space(s[i]) }

  lemma {:induction false} SplitSpaceless(s: string)
    requires Spaceless(s)
    ensures SplitSpace(s) == [s]
  {
    if s != "" {
      SplitSpaceless(s[1..]);
      assert [s[0]] + s[1..] == s;
    }
  }

  lemma {:induction false} SplitFirstWord(s: string, rest: string)
    requires Spaceless(s) && rest != "" && !Space(rest[0])
    ensures SplitSpace(s + " " + rest) == [s] + SplitSpace(rest)
  {
    var all := s + " " + rest;
    if s == "" {
      assert all[1..] == rest;
    } else {
      SplitFirstWord(s[1..], rest);
      assert all[0] == s[0] && all[1..] == s[1..] + " " + rest;
      assert [s[0]] + s[1..] == s;
    }
  }
}
