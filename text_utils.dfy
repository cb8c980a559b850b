// The string utilities of the app (utils/index.ts): truncateText,
// capitalizeFirstLetter and isValidEmail. Lengths count characters.
module TextUtils {
  import opened Strings

  /** truncateText: the text when it fits, else its first maxLength characters and "...". */
  function TruncateText(text: string, maxLength: int): string
  {
    if |text| <= maxLength then text
    else text[..if maxLength < 0 then 0 else maxLength] + "..."
  }

  /**
   * A text that fits is returned as it is; a longer one becomes its prefix of
   * maxLength characters (none for a negative maxLength) followed by "...".
   * Truncating again changes nothing.
   */
  lemma TruncateTextRule(text: string, maxLength: int)
    ensures |text| <= maxLength ==> TruncateText(text, maxLength) == text
    ensures |text| > maxLength ==>
      var keep := if maxLength < 0 then 0 else maxLength;
      |TruncateText(text, maxLength)| == keep + 3
      && TruncateText(text, maxLength)[..keep] == text[..keep]
      && TruncateText(text, maxLength)[keep..] == "..."
    ensures maxLength >= 0 ==> TruncateText(TruncateText(text, maxLength), maxLength) == TruncateText(text, maxLength)
  {
    if |text| > maxLength && maxLength >= 0 {
      var r := TruncateText(text, maxLength);
      assert r[..maxLength] == text[..maxLength];
    }
  }

  /** capitalizeFirstLetter: upper-case the first character (ASCII letters), keep the rest. */
  function CapitalizeFirstLetter(s: string): string
  {
    if |s| == 0 then "" else [UpperChar(s[0])] + s[1..]
  }

  /** Only the first character may change, the length is kept, and capitalising twice is capitalising once. */
  lemma CapitalizeRule(s: string)
    ensures |CapitalizeFirstLetter(s)| == |s|
    ensures |s| > 0 ==> CapitalizeFirstLetter(s)[1..] == s[1..] && !('a' <= CapitalizeFirstLetter(s)[0] <= 'z')
    ensures |s| > 0 && !('a' <= s[0] <= 'z') ==> CapitalizeFirstLetter(s) == s
    ensures CapitalizeFirstLetter(CapitalizeFirstLetter(s)) == CapitalizeFirstLetter(s)
  {
    if |s| > 0 {
      assert [s[0]] + s[1..] == s;
    }
  }

  /** \s in a JavaScript regular expression. */
  predicate IsRegexSpace(c: char)
  {
    c == ' ' || c == '\t' || c == '\n' || c == '\r' || c == '\U{000B}' || c == '\U{000C}'
    || c == '\U{00A0}' || c == '\U{1680}' || ('\U{2000}' <= c <= '\U{200A}') || c == '\U{2028}' || c == '\U{2029}'
    || c == '\U{202F}' || c == '\U{205F}' || c == '\U{3000}' || c == '\U{FEFF}'
  }

  /** [^\s@]+: a non-empty run without whitespace or '@'. */
  predicate Plain(s: string)
  {
    |s| > 0 && forall i :: 0 <= i < |s| ==> !IsRegexSpace(s[i]) && s[i] != '@'
  }

  /** The domain part [^\s@]+\.[^\s@]+: plain, with a '.' that is neither its first nor its last character. */
  predicate Domain(d: string)
  {
    Plain(d) && exists k :: 0 < k < |d| - 1 && d[k] == '.'
  }

  /** isValidEmail: /^[^\s@]+@[^\s@]+\.[^\s@]+$/, checked at the first '@'. */
  predicate IsValidEmail(email: string)
  {
    var at := IndexOfFrom(email, "@", 0);
    at > 0 && Plain(email[..at]) && Domain(email[at + 1..])
  }

  /** The regular expression's own reading: some split into local@host.tld, each part plain. */
  ghost predicate MatchesEmailPattern(email: string)
  {
    exists a, b, c :: Plain(a) && Plain(b) && Plain(c) && email == a + "@" + (b + "." + c)
  }

  /** The first-'@' check accepts exactly the strings the pattern matches. */
  lemma IsValidEmailMatchesPattern(email: string)
    ensures IsValidEmail(email) <==> MatchesEmailPattern(email)
  {
    if IsValidEmail(email) {
      ValidEmailMatches(email);
    }
    if MatchesEmailPattern(email) {
      var a, b, c :| Plain(a) && Plain(b) && Plain(c) && email == a + "@" + (b + "." + c);
      MatchIsValid(email, a, b, c);
    }
  }

  lemma ValidEmailMatches(email: string)
    requires IsValidEmail(email)
    ensures MatchesEmailPattern(email)
  {
    var at := IndexOfFrom(email, "@", 0);
    assert email[at..at + 1][0] == email[at];
    var d := email[at + 1..];
    var k :| 0 < k < |d| - 1 && d[k] == '.';
    PlainSlice(d, 0, k);
    PlainSlice(d, k + 1, |d|);
    SplitAround(email, at);
    SplitAround(d, k);
    Witness(email, email[..at], d[..k], d[k + 1..]);
  }

  /** A string is what comes before position i, the character there, and what comes after. */
  lemma SplitAround(s: string, i: int)
    requires 0 <= i < |s|
    ensures s == s[..i] + [s[i]] + s[i + 1..]
  {
    assert s == s[..i] + s[i..];
    assert s[i..] == [s[i]] + s[i + 1..];
  }

  lemma PlainSlice(d: string, i: int, j: int)
    requires Plain(d) && 0 <= i < j <= |d|
    ensures Plain(d[i..j])
  {
    forall n | 0 <= n < j - i
      ensures !IsRegexSpace(d[i..j][n]) && d[i..j][n] != '@'
    {
      assert d[i..j][n] == d[i + n];
    }
  }

  lemma Witness(email: string, a: string, b: string, c: string)
    requires Plain(a) && Plain(b) && Plain(c) && email == a + "@" + (b + "." + c)
    ensures MatchesEmailPattern(email)
  {
  }

  lemma MatchIsValid(email: string, a: string, b: string, c: string)
    requires Plain(a) && Plain(b) && Plain(c) && email == a + "@" + (b + "." + c)
    ensures IsValidEmail(email)
  {
    var n := |a|;
    assert email[n..n + 1] == "@";
    forall j | 0 <= j < n
      ensures !OccursAt(email, "@", j)
    {
      assert email[j] == a[j];
      assert email[j..j + 1] == [email[j]];
    }
    FirstOccurrence(email, "@", 0, n);
    assert email[..n] == a;
    var d := email[n + 1..];
    assert d == b + "." + c;
    assert d[|b|] == '.';
    forall i | 0 <= i < |d|
      ensures !IsRegexSpace(d[i]) && d[i] != '@'
    {
      if i < |b| {
        assert d[i] == b[i];
      } else if i > |b| {
        assert d[i] == c[i - |b| - 1];
      }
    }
  }

  /** A valid address holds no whitespace and its only '@' is the first one. */
  lemma ValidEmailShape(email: string)
    requires IsValidEmail(email)
    ensures forall i :: 0 <= i < |email| ==> !IsRegexSpace(email[i])
    ensures forall i :: 0 <= i < |email| && email[i] == '@' ==> i == IndexOfFrom(email, "@", 0)
  {
    forall i | 0 <= i < |email|
      ensures !IsRegexSpace(email[i]) && (email[i] == '@' ==> i == IndexOfFrom(email, "@", 0))
    {
      ValidEmailAt(email, i);
    }
  }

  lemma ValidEmailAt(email: string, i: int)
    requires IsValidEmail(email) && 0 <= i < |email|
    ensures !IsRegexSpace(email[i]) && (email[i] == '@' ==> i == IndexOfFrom(email, "@", 0))
  {
    var at := IndexOfFrom(email, "@", 0);
    if i < at {
      assert email[0..at] == email[..at];
      PlainCharAt(email, 0, at, i);
    } else if i > at {
      assert email[at + 1..|email|] == email[at + 1..];
      PlainCharAt(email, at + 1, |email|, i);
    } else {
      assert email[at..at + 1][0] == email[at];
    }
  }

  /** A character inside a plain slice is neither whitespace nor '@'. */
  lemma PlainCharAt(s: string, from: int, to: int, i: int)
    requires 0 <= from <= i < to <= |s| && Plain(s[from..to])
    ensures !IsRegexSpace(s[i]) && s[i] != '@'
  {
    assert s[from..to][i - from] == s[i];
  }
}
