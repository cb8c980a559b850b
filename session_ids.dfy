// FamilyMemberController.extractUserIdFromSession: recovering a user id from a
// stored Sa-Token session value, taken in its string form.
module SessionIds {
  import opened Wrappers
  import opened Strings

  /** Long.MAX_VALUE and Long.MIN_VALUE. */
  const LongMax: int := 0x7FFF_FFFF_FFFF_FFFF
  const LongMin: int := -0x8000_0000_0000_0000

  /** The longest digit run the fallback will read as a user id. */
  const MaxIdDigits: nat := 10

  predicate InLong(v: int)
  {
    LongMin <= v <= LongMax
  }

  /**
   * Long.parseLong on ASCII input: an optional sign, then at least one digit,
   * and a value inside the 64-bit range; anything else throws (None).
   */
  function ParseLong(t: string): (r: Option<int>)
    ensures r.Some? ==> InLong(r.value)
  {
    if |t| == 0 then None
    else
      var negative := t[0] == '-';
      var digits := if t[0] == '-' || t[0] == '+' then t[1..] else t;
      if |digits| == 0 || !AllDigits(digits) then None
      else
        var v: int := if negative then 0 - DigitsValue(digits) else DigitsValue(digits);
        if InLong(v) then Some(v) else None
  }

  /** On a string of digits, parseLong gives its value unless that overflows. */
  lemma ParseLongDigits(t: string)
    requires |t| > 0 && AllDigits(t)
    ensures ParseLong(t) == if DigitsValue(t) <= LongMax then Some(DigitsValue(t)) else None
  {
    assert IsDigit(t[0]);
  }

  /** At most ten digits never overflow a long. */
  lemma ShortDigitsParse(t: string)
    requires 0 < |t| <= MaxIdDigits && AllDigits(t)
    ensures ParseLong(t) == Some(DigitsValue(t))
  {
    DigitsValueBound(t);
    var k := |t|;
    assert Pow10(k) <= Pow10(MaxIdDigits) by {
      Pow10Monotone(k, MaxIdDigits);
    }
    ParseLongDigits(t);
  }

  lemma {:induction false} Pow10Monotone(a: nat, b: nat)
    requires a <= b
    ensures Pow10(a) <= Pow10(b)
  {
    if a < b {
      Pow10Monotone(a, b - 1);
    }
  }

  /** The length of the run of digits that starts s. */
  function DigitPrefix(s: string): (k: nat)
    ensures k <= |s| && AllDigits(s[..k])
    ensures k < |s| ==> !IsDigit(s[k])
  {
    if |s| == 0 || !IsDigit(s[0]) then 0
    else
      var k := 1 + DigitPrefix(s[1..]);
      assert s[..k] == [s[0]] + s[1..][..k - 1];
      k
  }

  /** The non-empty pieces of split("[^0-9]+"): the maximal digit runs of s, in order. */
  function Runs(s: string): (r: seq<string>)
    ensures forall k :: 0 <= k < |r| ==> |r[k]| > 0 && AllDigits(r[k])
    decreases |s|
  {
    if |s| == 0 then []
    else if !IsDigit(s[0]) then Runs(s[1..])
    else
      var k := DigitPrefix(s);
      [s[..k]] + Runs(s[k..])
  }

  /** A run the fallback accepts: at most ten digits with a positive value. */
  predicate Eligible(p: string)
  {
    0 < |p| <= MaxIdDigits && AllDigits(p) && DigitsValue(p) > 0
  }

  /** Position i holds the first eligible part. */
  predicate FirstEligible(parts: seq<string>, i: int)
  {
    0 <= i < |parts| && Eligible(parts[i]) && forall j :: 0 <= j < i ==> !Eligible(parts[j])
  }

  /**
   * The fallback loop: the first part that is non-empty, has at most ten
   * characters and parses to a positive long; a part that fails to parse is
   * skipped.
   */
  function FirstPositive(parts: seq<string>): Option<int>
  {
    if |parts| == 0 then None
    else
      var p := parts[0];
      if |p| > 0 && |p| <= MaxIdDigits && ParseLong(p).Some? && ParseLong(p).value > 0 then ParseLong(p)
      else FirstPositive(parts[1..])
  }

  /** The fallback returns the value of the first eligible run, or null when there is none. */
  lemma {:induction false} FirstPositiveRule(parts: seq<string>)
    requires forall k :: 0 <= k < |parts| ==> AllDigits(parts[k])
    ensures FirstPositive(parts).Some? ==>
      exists i :: FirstEligible(parts, i) && FirstPositive(parts) == Some(DigitsValue(parts[i]))
    ensures FirstPositive(parts).None? <==> forall k :: 0 <= k < |parts| ==> !Eligible(parts[k])
  {
    if |parts| > 0 {
      var p := parts[0];
      assert AllDigits(p);
      if 0 < |p| <= MaxIdDigits {
        ShortDigitsParse(p);
      }
      FirstPositiveRule(parts[1..]);
      if !Eligible(p) {
        assert FirstPositive(parts) == FirstPositive(parts[1..]);
        if FirstPositive(parts).Some? {
          var i :| FirstEligible(parts[1..], i) && FirstPositive(parts[1..]) == Some(DigitsValue(parts[1..][i]));
          assert parts[i + 1] == parts[1..][i];
          assert FirstEligible(parts, i + 1) by {
            forall j | 0 <= j < i + 1
              ensures !Eligible(parts[j])
            {
              if j > 0 {
                assert parts[j] == parts[1..][j - 1];
              }
            }
          }
        } else {
          forall k | 0 <= k < |parts|
            ensures !Eligible(parts[k])
          {
            if k > 0 {
              assert parts[k] == parts[1..][k - 1];
            }
          }
        }
      } else {
        assert FirstEligible(parts, 0);
      }
    }
  }

  /**
   * The loginId array element: after the first "loginId" (quotes included),
   * the text between the next '[' and the next ']' after it, split on commas;
   * the second element when there are at least two.
   */
  function LoginIdElement(s: string): (r: Option<string>)
  {
    var i := IndexOfFrom(s, "\"loginId\"", 0);
    if i == -1 then None
    else
      var a := IndexOfFrom(s, "[", i);
      if a == -1 then None
      else
        var b := IndexOfFrom(s, "]", a);
        if b == -1 then None
        else
          assert s[a] == '[' by { assert s[a..a + 1] == "["; }
          assert b != a by { assert s[b..b + 1] == "]"; }
          var elements := Split(s[a + 1..b], ',');
          if |elements| >= 2 then Some(elements[1]) else None
  }

  /**
   * extractUserIdFromSession on the session value's string form (None for a
   * null value, whose toString throws inside the try).
   */
  function ExtractUserId(session: Option<string>): Option<int>
  {
    if session.None? then None
    else
      var s := session.value;
      if |s| > 0 && AllDigits(s) then ParseLong(s)
      else if LoginIdElement(s).Some? then ParseLong(RemoveChar(Trim(LoginIdElement(s).value), '"'))
      else FirstPositive(Runs(s))
  }

  /** A string of decimal digits gives its own value, or null when it overflows a long. */
  lemma DigitStringRule(s: string)
    requires |s| > 0 && AllDigits(s)
    ensures ExtractUserId(Some(s)) == if DigitsValue(s) <= LongMax then Some(DigitsValue(s)) else None
  {
    ParseLongDigits(s);
  }

  /** Splitting text without the separator gives one piece. */
  lemma {:induction false} PiecesWithoutSeparator(b: string, sep: char)
    requires sep !in b
    ensures Pieces(b, sep) == [b]
  {
    if |b| > 0 {
      PiecesWithoutSeparator(b[1..], sep);
      assert b == [b[0]] + b[1..];
    }
  }

  /** The first separator ends the first piece. */
  lemma {:induction false} PiecesAtFirstSeparator(a: string, sep: char, b: string)
    requires sep !in a
    ensures Pieces(a + [sep] + b, sep) == [a] + Pieces(b, sep)
  {
    if |a| > 0 {
      PiecesAtFirstSeparator(a[1..], sep, b);
      assert (a + [sep] + b)[1..] == a[1..] + [sep] + b;
      assert a == [a[0]] + a[1..];
    } else {
      assert (a + [sep] + b)[1..] == b;
    }
  }

  /** The stored Sa-Token session, cut down to its loginId field. */
  const LoginIdKey: string := "\"loginId\""
  const LoginIdType: string := "\"java.lang.Long\""
  const LoginIdArray: string := LoginIdType + "," + "2"
  const ExampleSession: string := "{" + LoginIdKey + ":[" + LoginIdArray + "]}"

  lemma ExampleSessionText()
    ensures ExampleSession == "{\"loginId\":[\"java.lang.Long\",2]}"
  {
  }

  lemma ExampleSessionIndices()
    ensures IndexOfFrom(ExampleSession, LoginIdKey, 0) == 1
    ensures IndexOfFrom(ExampleSession, "[", 1) == 11
    ensures IndexOfFrom(ExampleSession, "]", 11) == 30
    ensures ExampleSession[12..30] == LoginIdArray
  {
    ExampleSessionText();
    var s := ExampleSession;
    assert s[1..10] == LoginIdKey;
    assert s[0..9][0] == '{' && s[0..9] != LoginIdKey;
    FirstOccurrence(s, LoginIdKey, 0, 1);
    ExampleKeyNoBracket();
    CharIndex(s, '[', 1, 11);
    ExampleArrayNoBracket();
    CharIndex(s, ']', 11, 30);
  }

  lemma ExampleKeyNoBracket()
    ensures |ExampleSession| == 32 && ExampleSession[11] == '['
    ensures forall j :: 1 <= j < 11 ==> ExampleSession[j] != '['
  {
    ExampleSessionText();
  }

  lemma ExampleArrayNoBracket()
    ensures |ExampleSession| == 32 && ExampleSession[30] == ']'
    ensures forall j :: 11 <= j < 30 ==> ExampleSession[j] != ']'
  {
    ExampleSessionText();
    assert forall j :: 11 <= j < 20 ==> ExampleSession[j] != ']';
  }

  /** The first c from position from on is at r when s[r] is c and no earlier position from on holds it. */
  lemma CharIndex(s: string, c: char, from: nat, r: nat)
    requires from <= r < |s| && s[r] == c
    requires forall j :: from <= j < r ==> s[j] != c
    ensures IndexOfFrom(s, [c], from) == r
  {
    forall j | from <= j < r
      ensures !OccursAt(s, [c], j)
    {
      assert s[j..j + 1][0] == s[j];
    }
    assert s[r..r + 1] == [c];
    FirstOccurrence(s, [c], from, r);
  }

  lemma ExampleArraySplit()
    ensures Split(LoginIdArray, ',') == [LoginIdType, "2"]
  {
    assert ',' !in LoginIdType;
    assert ',' in LoginIdArray by { assert LoginIdArray[16] == ','; }
    PiecesAtFirstSeparator(LoginIdType, ',', "2");
    PiecesWithoutSeparator("2", ',');
  }

  /** The Sa-Token session shape: the second element of the loginId array. */
  lemma SaTokenSessionExample()
    ensures ExtractUserId(Some("{\"loginId\":[\"java.lang.Long\",2]}")) == Some(2)
  {
    ExampleSessionText();
    ExampleSessionIndices();
    ExampleArraySplit();
    assert !IsDigit(ExampleSession[0]);
    assert LoginIdElement(ExampleSession) == Some("2");
    assert Trim("2") == "2";
    assert RemoveChar("2", '"') == "2";
    assert ParseLong("2") == Some(2);
  }

  /** Once the loginId element is found, a value that does not parse gives null: the fallback is not tried. */
  lemma LoginIdParseFailureIsFinal(s: string)
    requires !(|s| > 0 && AllDigits(s))
    requires LoginIdElement(s).Some? && ParseLong(RemoveChar(Trim(LoginIdElement(s).value), '"')).None?
    ensures ExtractUserId(Some(s)) == None
  {
    assert ExtractUserId(Some(s)) == ParseLong(RemoveChar(Trim(LoginIdElement(s).value), '"'));
  }

  /** Without a complete loginId array of two or more elements the digit-run fallback decides. */
  lemma FallbackRule(s: string)
    requires !(|s| > 0 && AllDigits(s)) && LoginIdElement(s).None?
    ensures ExtractUserId(Some(s)).Some? ==>
      exists i :: FirstEligible(Runs(s), i) && ExtractUserId(Some(s)) == Some(DigitsValue(Runs(s)[i]))
    ensures ExtractUserId(Some(s)).None? <==> forall k :: 0 <= k < |Runs(s)| ==> !Eligible(Runs(s)[k])
  {
    FirstPositiveRule(Runs(s));
  }
}
