// Character classes and the handful of Java / JavaScript string operations the
// modelled code relies on. Strings are sequences of Dafny characters, one per
// Unicode character (a character outside the BMP counts once, not as the two
// UTF-16 code units Java and JavaScript count).
module Strings {
  import opened Wrappers

  /** java.lang.Character.isWhitespace, as used by Spring's StringUtils.hasText. */
  predicate IsJavaWhitespace(c: char)
  {
    c == ' ' || c == '\t' || c == '\n' || c == '\U{000B}' || c == '\U{000C}' || c == '\r'
    || ('\U{001C}' <= c <= '\U{001F}')
    || c == '\U{1680}' || ('\U{2000}' <= c <= '\U{2006}') || ('\U{2008}' <= c <= '\U{200A}')
    || c == '\U{2028}' || c == '\U{2029}' || c == '\U{205F}' || c == '\U{3000}'
  }

  /** Hutool's CharUtil.isBlankChar: whitespace, space separators and a few invisible marks. */
  predicate IsHutoolBlank(c: char)
  {
    IsJavaWhitespace(c) || c == '\U{00A0}' || c == '\U{2007}' || c == '\U{202F}'
    || c == '\U{FEFF}' || c == '\U{202A}' || c == '\U{0000}' || c == '\U{3164}'
    || c == '\U{2800}' || c == '\U{180E}'
  }

  /** Spring's StringUtils.hasText: non-null and holding a non-whitespace character. */
  predicate HasText(s: Option<string>)
  {
    s.Some? && exists i :: 0 <= i < |s.value| && !IsJavaWhitespace(s.value[i])
  }

  /** Hutool's StrUtil.isNotEmpty: non-null and non-empty. */
  predicate IsNotEmpty(s: Option<string>)
  {
    s.Some? && |s.value| > 0
  }

  /** Hutool's StrUtil.isBlank: null or made only of blank characters. */
  predicate IsBlank(s: Option<string>)
  {
    s.None? || forall i :: 0 <= i < |s.value| ==> IsHutoolBlank(s.value[i])
  }

  predicate StartsWith(s: string, prefix: string)
  {
    |prefix| <= |s| && s[..|prefix|] == prefix
  }

  predicate EndsWith(s: string, suffix: string)
  {
    |suffix| <= |s| && s[|s| - |suffix|..] == suffix
  }

  predicate IsDigit(c: char)
  {
    '0' <= c <= '9'
  }

  predicate AllDigits(s: string)
  {
    forall i :: 0 <= i < |s| ==> IsDigit(s[i])
  }

  /** The value of a string of decimal digits. */
  function DigitsValue(s: string): (n: nat)
    requires AllDigits(s)
    ensures |s| == 0 ==> n == 0
  {
    if |s| == 0 then 0
    else DigitsValue(s[..|s| - 1]) * 10 + (s[|s| - 1] as int - '0' as int)
  }

  /** Ten digits never reach Long.MAX_VALUE: DigitsValue(s) < 10^|s|. */
  lemma {:induction false} DigitsValueBound(s: string)
    requires AllDigits(s)
    ensures DigitsValue(s) < Pow10(|s|)
  {
    if |s| > 0 {
      DigitsValueBound(s[..|s| - 1]);
    }
  }

  /** The decimal text of a non-negative integer, without leading zeros. */
  function NatText(n: nat): (r: string)
    ensures |r| >= 1 && AllDigits(r)
    ensures |r| > 1 ==> r[0] != '0'
  {
    var d := ['0' + (n % 10) as char];
    if n < 10 then d else NatText(n / 10) + d
  }

  /** Number-to-string for integers, as String(n) or a template literal writes it. */
  function IntText(n: int): (r: string)
    ensures |r| >= 1
    ensures n < 0 <==> r[0] == '-'
  {
    if n < 0 then "-" + NatText(0 - n) else NatText(n)
  }

  /** Reading the digits back gives the number. */
  lemma {:induction false} NatTextValue(n: nat)
    ensures DigitsValue(NatText(n)) == n
  {
    var d := ['0' + (n % 10) as char];
    if n >= 10 {
      NatTextValue(n / 10);
      var r := NatText(n / 10) + d;
      assert r[..|r| - 1] == NatText(n / 10);
    }
  }

  /** The text of a number of k digits has k characters. */
  lemma {:induction false} NatTextLength(n: nat, k: nat)
    requires k >= 1 && Pow10(k - 1) <= n < Pow10(k)
    ensures |NatText(n)| == k
  {
    if k > 1 {
      assert Pow10(k) == 10 * Pow10(k - 1) && Pow10(k - 1) == 10 * Pow10(k - 2);
      assert Pow10(k - 2) <= n / 10 < Pow10(k - 1);
      NatTextLength(n / 10, k - 1);
    }
  }

  /** A digit string without a leading zero has at least 10^(length-1) as its value. */
  lemma {:induction false} DigitsValueLower(s: string)
    requires |s| >= 1 && AllDigits(s) && s[0] != '0'
    ensures DigitsValue(s) >= Pow10(|s| - 1)
  {
    if |s| > 1 {
      DigitsValueLower(s[..|s| - 1]);
    }
  }

  /** A digit string without a leading zero is the text of its value. */
  lemma {:induction false} NatTextOfDigits(s: string)
    requires |s| >= 1 && AllDigits(s) && (|s| == 1 || s[0] != '0')
    ensures NatText(DigitsValue(s)) == s
  {
    var n := DigitsValue(s);
    if |s| > 1 {
      var init := s[..|s| - 1];
      DigitsValueLower(init);
      assert n / 10 == DigitsValue(init) && n % 10 == s[|s| - 1] as int - '0' as int;
      NatTextOfDigits(init);
      assert init + [s[|s| - 1]] == s;
    } else {
      assert s == [s[0]];
    }
  }

  /** Different numbers have different texts. */
  lemma IntTextInjective(m: int, n: int)
    ensures IntText(m) == IntText(n) ==> m == n
  {
    if IntText(m) == IntText(n) {
      if m < 0 {
        assert n < 0;
        NegativeTextValue(m);
        NegativeTextValue(n);
      } else {
        assert n >= 0;
        NatTextValue(m);
        NatTextValue(n);
      }
    }
  }

  /** The digits after the sign of a negative number's text read as its magnitude. */
  lemma NegativeTextValue(m: int)
    requires m < 0
    ensures DigitsValue(IntText(m)[1..]) == 0 - m
  {
    assert IntText(m)[1..] == NatText(0 - m);
    NatTextValue(0 - m);
  }

  function Pow10(k: nat): (p: nat)
    ensures p >= 1
  {
    if k == 0 then 1 else 10 * Pow10(k - 1)
  }

  /** ASCII lower-casing (String.prototype.toLowerCase restricted to ASCII letters). */
  function LowerChar(c: char): char
  {
    if 'A' <= c <= 'Z' then (c as int + 32) as char else c
  }

  function ToLower(s: string): (r: string)
    ensures |r| == |s|
    ensures forall i :: 0 <= i < |s| ==> r[i] == LowerChar(s[i])
  {
    if |s| == 0 then [] else [LowerChar(s[0])] + ToLower(s[1..])
  }

  /** ASCII upper-casing of one character. */
  function UpperChar(c: char): char
  {
    if 'a' <= c <= 'z' then (c as int - 32) as char else c
  }

  /** String.equalsIgnoreCase on the ASCII letters. */
  predicate EqualsIgnoreCase(a: string, b: string)
  {
    ToLower(a) == ToLower(b)
  }

  /** `needle` occurs in `s` starting at position i. */
  predicate OccursAt(s: string, needle: string, i: int)
  {
    0 <= i && i + |needle| <= |s| && s[i..i + |needle|] == needle
  }

  predicate Contains(s: string, needle: string)
  {
    exists i :: 0 <= i <= |s| && OccursAt(s, needle, i)
  }

  /** String.indexOf(needle, from): the first occurrence at or after `from`, or -1. */
  function IndexOfFrom(s: string, needle: string, from: nat): (r: int)
    ensures r == -1 || (from <= r && OccursAt(s, needle, r))
    ensures r == -1 ==> forall j :: from <= j ==> !OccursAt(s, needle, j)
    ensures r != -1 ==> forall j :: from <= j < r ==> !OccursAt(s, needle, j)
    decreases |s| - from
  {
    if from + |needle| > |s| then -1
    else if s[from..from + |needle|] == needle then from
    else IndexOfFrom(s, needle, from + 1)
  }

  /** String.indexOf finds an occurrence when no earlier one exists from the start position. */
  lemma FirstOccurrence(s: string, needle: string, from: nat, r: nat)
    requires from <= r && OccursAt(s, needle, r)
    requires forall j :: from <= j < r ==> !OccursAt(s, needle, j)
    ensures IndexOfFrom(s, needle, from) == r
  {
  }

  lemma ContainsIffIndexOf(s: string, needle: string)
    ensures Contains(s, needle) <==> IndexOfFrom(s, needle, 0) != -1
  {
    var r := IndexOfFrom(s, needle, 0);
    if r != -1 {
      assert OccursAt(s, needle, r);
    }
  }

  /** String.trim: strips characters up to U+0020 at both ends. */
  function TrimStart(s: string): (r: string)
    ensures |r| <= |s| && r == s[|s| - |r|..]
    ensures |r| > 0 ==> r[0] > ' '
  {
    if |s| > 0 && s[0] <= ' ' then TrimStart(s[1..]) else s
  }

  function TrimEnd(s: string): (r: string)
    ensures |r| <= |s| && r == s[..|r|]
    ensures |r| > 0 ==> r[|r| - 1] > ' '
  {
    if |s| > 0 && s[|s| - 1] <= ' ' then TrimEnd(s[..|s| - 1]) else s
  }

  function Trim(s: string): string
  {
    TrimEnd(TrimStart(s))
  }

  /** String.replace(c, ""): every occurrence of c removed. */
  function RemoveChar(s: string, c: char): (r: string)
    ensures forall i :: 0 <= i < |r| ==> r[i] != c
    ensures |r| <= |s|
  {
    if |s| == 0 then []
    else (if s[0] == c then [] else [s[0]]) + RemoveChar(s[1..], c)
  }

  /** The pieces of s between occurrences of sep, empty pieces included. */
  function Pieces(s: string, sep: char): (r: seq<string>)
    ensures |r| >= 1
    ensures forall k :: 0 <= k < |r| ==> sep !in r[k]
  {
    if |s| == 0 then [[]]
    else
      var rest := Pieces(s[1..], sep);
      if s[0] == sep then [[]] + rest
      else [[s[0]] + rest[0]] + rest[1..]
  }

  function DropTrailingEmpty(parts: seq<string>): (r: seq<string>)
    ensures |r| <= |parts| && r == parts[..|r|]
    ensures |r| > 0 ==> r[|r| - 1] != []
    ensures forall k :: |r| <= k < |parts| ==> parts[k] == []
  {
    if |parts| == 0 then []
    else if parts[|parts| - 1] == [] then DropTrailingEmpty(parts[..|parts| - 1])
    else parts
  }

  /** String.split on a one-character literal: no match gives [s]; else trailing empty pieces go. */
  function Split(s: string, sep: char): seq<string>
  {
    if sep !in s then [s] else DropTrailingEmpty(Pieces(s, sep))
  }

  /** Joining the pieces with the separator gives the string back. */
  function Join(parts: seq<string>, sep: char): string
  {
    if |parts| == 0 then []
    else if |parts| == 1 then parts[0]
    else parts[0] + [sep] + Join(parts[1..], sep)
  }

  lemma {:induction false} PiecesJoin(s: string, sep: char)
    ensures Join(Pieces(s, sep), sep) == s
  {
    if |s| > 0 {
      PiecesJoin(s[1..], sep);
      var rest := Pieces(s[1..], sep);
      if s[0] == sep {
        assert Pieces(s, sep) == [[]] + rest;
        assert s == [sep] + s[1..];
      } else {
        if |rest| > 1 {
          assert Join(rest, sep) == rest[0] + [sep] + Join(rest[1..], sep);
          assert ([[s[0]] + rest[0]] + rest[1..])[1..] == rest[1..];
        }
        assert s == [s[0]] + s[1..];
      }
    }
  }
}
