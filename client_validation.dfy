/**
 * static/js/validation.js: the browser-side phone and e-mail checks.
 *
 * JavaScript regular expressions without the `u` flag read `\d` and `\D` as
 * the ASCII digits only, while `\s` covers the ECMAScript white space and
 * line terminators listed in `JsSpace`.
 */
module ClientValidation {
  import opened PyStr
  import opened Validators

  /** `phone.replace(/\D/g, '')`: the ASCII digits of `s`, in order. */
  function JsDigits(s: string): (r: string)
    ensures |r| <= |s|
    ensures forall i :: 0 <= i < |r| ==> IsAsciiDigit(r[i])
  {
    if s == [] then []
    else (if IsAsciiDigit(s[0]) then [s[0]] else []) + JsDigits(s[1..])
  }

  /** `/^[6-9]\d{9}$/`, matched against a whole string. */
  predicate JsPhonePattern(s: string)
  {
    |s| == 10 && '6' <= s[0] <= '9' && forall i :: 1 <= i < 10 ==> IsAsciiDigit(s[i])
  }

  /** `validatePhoneNumber`: exactly ten ASCII digits remain, and the first of them is 6, 7, 8 or 9. */
  function ValidatePhoneNumber(phone: string): (r: bool)
    ensures r <==> |JsDigits(phone)| == 10 && '6' <= JsDigits(phone)[0] <= '9'
  {
    JsPhonePattern(JsDigits(phone))
  }

  /** Where every digit is ASCII, the two ways of keeping digits agree. */
  lemma {:induction false} DigitsAgree(s: string)
    requires forall i :: 0 <= i < |s| && IsPyDigit(s[i]) ==> IsAsciiDigit(s[i])
    ensures JsDigits(s) == PyDigits(s)
  {
    if s != [] {
      DigitsAgree(s[1..]);
    }
  }

  /** The browser and the server give the same verdict on every number whose digits are all ASCII. */
  lemma PhoneValidatorsAgree(phone: string)
    requires forall i :: 0 <= i < |phone| && IsPyDigit(phone[i]) ==> IsAsciiDigit(phone[i])
    ensures ValidatePhoneNumber(phone) == ValidateIndianPhone(phone)
  {
    DigitsAgree(phone);
  }

  /** A 9 followed by the Devanagari digits 0 to 8. */
  const DevanagariNumber: string := "9०१२३४५६७८"

  /** The server accepts that number: Python's `\d` takes the Devanagari digits. */
  lemma ServerAcceptsDevanagari()
    ensures ValidateIndianPhone(DevanagariNumber)
  {
    var s := DevanagariNumber;
    assert forall i :: 0 <= i < |s| ==> IsPyDigit(s[i]) by {
      forall i | 0 <= i < |s| ensures IsPyDigit(s[i]) {
        assert i == 0 || InBlock(s[i], 0x966);
      }
    }
    PyDigitsOfDigits(s);
  }

  /** The browser refuses it: only one ASCII digit is left. */
  lemma BrowserRejectsDevanagari()
    ensures !ValidatePhoneNumber(DevanagariNumber)
  {
    var s := DevanagariNumber;
    assert s == [s[0]] + s[1..];
    JsDigitsOfNonDigits(s[1..]);
  }

  /** So the two validators disagree on some input. */
  lemma PhoneValidatorsDiverge()
    ensures exists s :: ValidateIndianPhone(s) && !ValidatePhoneNumber(s)
  {
    ServerAcceptsDevanagari();
    BrowserRejectsDevanagari();
  }

  lemma {:induction false} JsDigitsOfNonDigits(s: string)
    requires forall i :: 0 <= i < |s| ==> !IsAsciiDigit(s[i])
    ensures JsDigits(s) == []
  {
    if s != [] {
      JsDigitsOfNonDigits(s[1..]);
    }
  }

  /** What `\s` matches in a JavaScript regular expression. */
  const JsSpace: set<char> := {
    '\t', '\n', '\U{B}', '\U{C}', '\r', ' ', '\U{A0}', '\U{1680}',
    '\U{2000}', '\U{2001}', '\U{2002}', '\U{2003}', '\U{2004}', '\U{2005}', '\U{2006}', '\U{2007}',
    '\U{2008}', '\U{2009}', '\U{200A}', '\U{2028}', '\U{2029}', '\U{202F}', '\U{205F}', '\U{3000}', '\U{FEFF}'
  }

  /** `[^\s@]+` matches the whole of `s`. */
  predicate EmailPart(s: string)
  {
    s != [] && forall k :: 0 <= k < |s| ==> s[k] !in JsSpace && s[k] != '@'
  }

  /**
   * `validateEmail`: the pattern `/^[^\s@]+@[^\s@]+\.[^\s@]+$/` matches when
   * the string splits at some `@` (index `i`) and a later `.` (index `j`) into
   * three parts that each match `[^\s@]+`.
   */
  predicate ValidateEmail(email: string): (b: bool)
    ensures b <==> EmailShape(email)
  {
    EmailPatternHasShape(email);
    EmailShapeMatches(email);
    exists i, j | 0 <= i < j < |email| :: SplitsAt(email, i, j)
  }

  /** No character of `s` is white space. */
  predicate NoSpace(s: string)
  {
    forall k :: 0 <= k < |s| ==> s[k] !in JsSpace
  }

  /**
   * The pattern, restated: no white space anywhere, a single `@` with
   * something before it, and after it a `.` that is neither the first nor the
   * last character of the domain part.
   */
  predicate EmailShape(email: string)
  {
    NoSpace(email) &&
    exists i, j | 0 < i && i + 1 < j < |email| - 1 ::
      email[i] == '@' && email[j] == '.' && OnlyAt(email, i)
  }

  /** The only `@` of `email` is at index `i`. */
  predicate OnlyAt(email: string, i: int)
  {
    forall k :: 0 <= k < |email| && email[k] == '@' ==> k == i
  }

  /** `email` splits at `@` (index `i`) and `.` (index `j`) into three parts matching `[^\s@]+`. */
  predicate SplitsAt(email: string, i: int, j: int)
  {
    0 <= i < j < |email| && email[i] == '@' && email[j] == '.' &&
    EmailPart(email[..i]) && EmailPart(email[i + 1..j]) && EmailPart(email[j + 1..])
  }

  lemma SplitNoSpace(email: string, i: int, j: int)
    requires SplitsAt(email, i, j)
    ensures NoSpace(email)
  {
    forall k | 0 <= k < |email| ensures email[k] !in JsSpace {
      if k < i { assert email[k] == email[..i][k]; }
      else if i < k < j { assert email[k] == email[i + 1..j][k - i - 1]; }
      else if j < k { assert email[k] == email[j + 1..][k - j - 1]; }
    }
  }

  lemma SplitOneAt(email: string, i: int, j: int)
    requires SplitsAt(email, i, j)
    ensures OnlyAt(email, i)
  {
    forall k | 0 <= k < |email| && k != i ensures email[k] != '@' {
      if k < i { assert email[k] == email[..i][k]; }
      else if i < k < j { assert email[k] == email[i + 1..j][k - i - 1]; }
      else if j < k { assert email[k] == email[j + 1..][k - j - 1]; }
    }
  }

  /** What the pattern accepts has the shape. */
  lemma EmailPatternHasShape(email: string)
    ensures (exists i, j | 0 <= i < j < |email| :: SplitsAt(email, i, j)) ==> EmailShape(email)
  {
    if exists i, j | 0 <= i < j < |email| :: SplitsAt(email, i, j) {
      var i, j :| 0 <= i < j < |email| && SplitsAt(email, i, j);
      SplitNoSpace(email, i, j);
      SplitOneAt(email, i, j);
      assert |email[..i]| == i && |email[j + 1..]| == |email| - j - 1;
    }
  }

  /** Every string of the shape is accepted. */
  lemma EmailShapeMatches(email: string)
    ensures EmailShape(email) ==> exists i, j | 0 <= i < j < |email| :: SplitsAt(email, i, j)
  {
    if EmailShape(email) {
      var i, j :| 0 < i && i + 1 < j < |email| - 1 && email[i] == '@' && email[j] == '.' && OnlyAt(email, i);
      assert SplitsAt(email, i, j);
    }
  }

  /** An address with white space anywhere is refused. */
  lemma EmailRejectsSpace(email: string, k: int)
    requires 0 <= k < |email| && email[k] in JsSpace
    ensures !ValidateEmail(email)
  {
  }

  lemma AcceptsSimpleAddress()
    ensures ValidateEmail("a@b.c")
  {
    var s := "a@b.c";
    assert s[..1] == "a" && s[2..3] == "b" && s[4..] == "c";
    assert SplitsAt(s, 1, 3);
  }

  lemma RejectsTwoAts()
    ensures !ValidateEmail("a@b@c.d")
  {
    var s := "a@b@c.d";
    assert s[1] == '@' && s[3] == '@';
  }
}
