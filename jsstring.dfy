/**
 * The pieces of JavaScript string semantics the extension relies on:
 * `.length` (UTF-16 code units), `.trim()`, `.toLowerCase()` on ASCII,
 * `.includes`, `.split` by a one-character string and by a regular
 * expression of the form `/[class]+/`, and decimal formatting of a
 * number inside a template literal.
 */
module JsString {

  // ---------------------------------------------------------------- length

  /** Number of UTF-16 code units of one character. */
  function CodeUnits(c: char): nat
  {
    if c as int >= 0x1_0000 then 2 else 1
  }

  /** `s.length`: JavaScript counts UTF-16 code units, not characters. */
  function Length(s: string): (n: nat)
    ensures |s| <= n <= 2 * |s|
    ensures n == 0 <==> s == []
  {
    if s == [] then 0 else Length(s[..|s| - 1]) + CodeUnits(s[|s| - 1])
  }

  /** On text inside the Basic Multilingual Plane `.length` is the character count. */
  lemma {:induction false} LengthOfBmp(s: string)
    requires forall i :: 0 <= i < |s| ==> s[i] as int < 0x1_0000
    ensures Length(s) == |s|
  {
    if s != [] {
      LengthOfBmp(s[..|s| - 1]);
    }
  }

  // ------------------------------------------------------------ whitespace

  /** The characters `String.prototype.trim` strips and regex `\s` matches:
      WhiteSpace (TAB, VT, FF, SP, NBSP, ZWNBSP, category Zs) and LineTerminator. */
  predicate IsWhiteSpace(c: char)
  {
    c == '\t' || c == '\n' || c == '\U{000B}' || c == '\U{000C}' || c == '\r' || c == ' '
    || c == '\U{00A0}' || c == '\U{1680}' || ('\U{2000}' <= c <= '\U{200A}')
    || c == '\U{2028}' || c == '\U{2029}' || c == '\U{202F}' || c == '\U{205F}'
    || c == '\U{3000}' || c == '\U{FEFF}'
  }

  /** The length of the leading whitespace run. */
  function LeadingSpace(s: string): (n: nat)
    ensures n <= |s|
    ensures forall k :: 0 <= k < n ==> IsWhiteSpace(s[k])
    ensures n < |s| ==> !IsWhiteSpace(s[n])
  {
    if s != [] && IsWhiteSpace(s[0]) then 1 + LeadingSpace(s[1..]) else 0
  }

  /** The length of the trailing whitespace run. */
  function TrailingSpace(s: string): (n: nat)
    ensures n <= |s|
    ensures forall k :: |s| - n <= k < |s| ==> IsWhiteSpace(s[k])
    ensures n < |s| ==> !IsWhiteSpace(s[|s| - n - 1])
  {
    if s != [] && IsWhiteSpace(s[|s| - 1]) then 1 + TrailingSpace(s[..|s| - 1]) else 0
  }

  /** `s.trim()`: the leading run, then the trailing run, removed. The result
      is the infix that starts after the leading whitespace, has only
      whitespace after it, and neither starts nor ends with whitespace. */
  function Trim(s: string): (r: string)
    ensures LeadingSpace(s) + |r| <= |s| && r == s[LeadingSpace(s)..LeadingSpace(s) + |r|]
    ensures forall k :: 0 <= k < LeadingSpace(s) ==> IsWhiteSpace(s[k])
    ensures forall k :: LeadingSpace(s) + |r| <= k < |s| ==> IsWhiteSpace(s[k])
    ensures r == [] || (!IsWhiteSpace(r[0]) && !IsWhiteSpace(r[|r| - 1]))
  {
    var i := LeadingSpace(s);
    var t := s[i..];
    var n := TrailingSpace(t);
    assert forall k :: i + |t| - n <= k < |s| ==> s[k] == t[k - i];
    t[..|t| - n]
  }

  // ------------------------------------------------------------- lowercase

  /** ASCII part of `toLowerCase`. */
  function LowerChar(c: char): char
  {
    if 'A' <= c <= 'Z' then (c as int + 32) as char else c
  }

  function ToLower(s: string): (r: string)
    ensures |r| == |s|
  {
    seq(|s|, i requires 0 <= i < |s| => LowerChar(s[i]))
  }

  // -------------------------------------------------------------- includes

  /** `needle` occurs in `hay` starting at position `i`. */
  predicate OccursAt(hay: string, needle: string, i: int)
  {
    0 <= i <= |hay| - |needle| && hay[i..i + |needle|] == needle
  }

  /** `hay.includes(needle)` for a string needle: the needle occurs at some
      position of the haystack. */
  function Includes(hay: string, needle: string): (b: bool)
    ensures b <==> exists i :: OccursAt(hay, needle, i)
  {
    if needle <= hay then
      assert OccursAt(hay, needle, 0);
      true
    else if hay == [] then false
    else
      IncludesShift(hay, needle);
      Includes(hay[1..], needle)
  }

  /** When the needle is not a prefix, its occurrences are those in the tail,
      one position later. */
  lemma IncludesShift(hay: string, needle: string)
    requires hay != [] && !(needle <= hay)
    ensures (exists i :: OccursAt(hay, needle, i)) <==> (exists i :: OccursAt(hay[1..], needle, i))
  {
    forall i | OccursAt(hay, needle, i)
      ensures OccursAt(hay[1..], needle, i - 1)
    {
      assert i != 0;
      assert hay[1..][i - 1..i - 1 + |needle|] == hay[i..i + |needle|];
    }
    forall i | OccursAt(hay[1..], needle, i)
      ensures OccursAt(hay, needle, i + 1)
    {
      assert hay[i + 1..i + 1 + |needle|] == hay[1..][i..i + |needle|];
    }
  }

  // --------------------------------------------------- split by character

  function CountChar(s: string, c: char): (n: nat)
    ensures n <= |s|
    ensures n == 0 <==> c !in s
  {
    if s == [] then 0 else (if s[0] == c then 1 else 0) + CountChar(s[1..], c)
  }

  /** `s.split(sep)` for a one-character separator: every occurrence cuts,
      and the empty string gives `[""]`. */
  function SplitChar(s: string, sep: char): (pieces: seq<string>)
    ensures pieces != []
    ensures forall i :: 0 <= i < |pieces| ==> sep !in pieces[i]
  {
    if s == [] then [""]
    else
      var rest := SplitChar(s[1..], sep);
      if s[0] == sep then [""] + rest else [[s[0]] + rest[0]] + rest[1..]
  }

  /** There is one more piece than there are separators. */
  lemma {:induction false} SplitCharCount(s: string, sep: char)
    ensures |SplitChar(s, sep)| == CountChar(s, sep) + 1
  {
    if s != [] {
      SplitCharCount(s[1..], sep);
    }
  }

  // ---------------------------------------------- split by a /[class]+/ regex

  /** The character classes of the regular expressions the analyzer splits on:
      `/[aeiou]+/i`, `/\s+/` and `/[.!?]+/`. */
  datatype CharClass = Vowels | Spaces | SentenceEnds

  predicate InClass(c: char, k: CharClass)
  {
    match k
    case Vowels =>
      c == 'a' || c == 'e' || c == 'i' || c == 'o' || c == 'u'
      || c == 'A' || c == 'E' || c == 'I' || c == 'O' || c == 'U'
    case Spaces => IsWhiteSpace(c)
    case SentenceEnds => c == '.' || c == '!' || c == '?'
  }

  /** `s` with its leading run of class characters removed. */
  function DropRun(s: string, k: CharClass): (r: string)
    ensures |r| <= |s| && r == s[|s| - |r|..]
    ensures r == [] || !InClass(r[0], k)
  {
    if s != [] && InClass(s[0], k) then DropRun(s[1..], k) else s
  }

  /** `s.split(/[k]+/)`: each maximal run of class characters is one match and
      cuts once; the empty string gives `[""]`, as the regex cannot match it. */
  function SplitRuns(s: string, k: CharClass): (pieces: seq<string>)
    ensures pieces != []
    ensures forall i, j :: 0 <= i < |pieces| && 0 <= j < |pieces[i]| ==> !InClass(pieces[i][j], k)
    decreases |s|
  {
    if s == [] then [""]
    else if InClass(s[0], k) then [""] + SplitRuns(DropRun(s, k), k)
    else
      var rest := SplitRuns(s[1..], k);
      [[s[0]] + rest[0]] + rest[1..]
  }

  /** Number of maximal runs of class characters in `s`, scanning left to right;
      `inRun` says whether the character before `s` was in the class. */
  function RunsFrom(s: string, k: CharClass, inRun: bool): nat
  {
    if s == [] then 0
    else (if InClass(s[0], k) && !inRun then 1 else 0) + RunsFrom(s[1..], k, InClass(s[0], k))
  }

  function RunCount(s: string, k: CharClass): nat
  {
    RunsFrom(s, k, false)
  }

  /** Inside a run, the rest of the run adds no new run. */
  lemma {:induction false} RunsFromDropRun(s: string, k: CharClass)
    ensures RunsFrom(s, k, true) == RunsFrom(DropRun(s, k), k, false)
  {
    if s != [] && InClass(s[0], k) {
      RunsFromDropRun(s[1..], k);
    } else if s != [] {
      assert DropRun(s, k) == s;
    }
  }

  /** A regex split yields one more piece than there are maximal runs. */
  lemma {:induction false} SplitRunsCount(s: string, k: CharClass)
    ensures |SplitRuns(s, k)| == RunCount(s, k) + 1
    decreases |s|
  {
    if s == [] {
    } else if InClass(s[0], k) {
      SplitRunsCount(DropRun(s, k), k);
      RunsFromDropRun(s[1..], k);
      assert DropRun(s, k) == DropRun(s[1..], k);
    } else {
      SplitRunsCount(s[1..], k);
    }
  }

  /** Number of maximal runs of characters outside the class (the words, for
      `Spaces`); `inToken` says whether the character before `s` was outside it. */
  function TokensFrom(s: string, k: CharClass, inToken: bool): nat
  {
    if s == [] then 0
    else (if !InClass(s[0], k) && !inToken then 1 else 0) + TokensFrom(s[1..], k, !InClass(s[0], k))
  }

  function TokenCount(s: string, k: CharClass): nat
  {
    TokensFrom(s, k, false)
  }

  lemma {:induction false} TokensAndRuns(s: string, k: CharClass, prevInClass: bool)
    requires s != [] && !InClass(s[|s| - 1], k)
    ensures TokensFrom(s, k, !prevInClass) == RunsFrom(s, k, prevInClass) + (if prevInClass then 1 else 0)
  {
    if |s| > 1 {
      TokensAndRuns(s[1..], k, InClass(s[0], k));
    }
  }

  /** Text that starts and ends outside the class has one more token than
      runs of class characters: one more word than gaps. */
  lemma TokensAreRunsPlusOne(s: string, k: CharClass)
    requires s != [] && !InClass(s[0], k) && !InClass(s[|s| - 1], k)
    ensures TokenCount(s, k) == RunCount(s, k) + 1
  {
    TokensAndRuns(s, k, true);
  }

  // ------------------------------------------------------ decimal numbers

  function DigitChar(d: nat): char
    requires d < 10
  {
    "0123456789"[d]
  }

  /** A number inside a template literal, `${n}`, for a non-negative integer. */
  function NatToString(n: nat): (s: string)
    ensures s != []
    ensures forall i :: 0 <= i < |s| ==> '0' <= s[i] <= '9'
    ensures s[0] == '0' ==> n == 0
  {
    if n < 10 then [DigitChar(n)] else NatToString(n / 10) + [DigitChar(n % 10)]
  }

  /** Reading decimal digits back, the inverse of `NatToString`. */
  function ParseDigits(s: string): nat
    requires forall i :: 0 <= i < |s| ==> '0' <= s[i] <= '9'
  {
    if s == [] then 0 else ParseDigits(s[..|s| - 1]) * 10 + (s[|s| - 1] as int - '0' as int)
  }

  lemma {:induction false} NatToStringRoundTrip(n: nat)
    ensures ParseDigits(NatToString(n)) == n
  {
    var s := NatToString(n);
    if n >= 10 {
      NatToStringRoundTrip(n / 10);
      assert s[..|s| - 1] == NatToString(n / 10);
    }
  }

  /** Distinct numbers print differently. */
  lemma NatToStringInjective(m: nat, n: nat)
    requires NatToString(m) == NatToString(n)
    ensures m == n
  {
    NatToStringRoundTrip(m);
    NatToStringRoundTrip(n);
  }
}
