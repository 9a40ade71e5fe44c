/**
 * utils/validators.py: the Indian phone-number check, the required-field
 * listing and the empty-input branch of `sanitize_input`.
 *
 * Python's `re` module reads `\d` in a `str` pattern as any Unicode decimal
 * digit, so the model keeps a predicate for that (`IsPyDigit`) apart from the
 * ASCII digits that `[6-9]` names.
 */
module Validators {
  import opened PyStr

  predicate IsAsciiDigit(c: char) { '0' <= c <= '9' }

  /** `c` is one of the ten digits whose zero is at code point `zero`. */
  predicate InBlock(c: char, zero: int) { zero <= c as int < zero + 10 }

  /** Python's `\d`: the decimal-digit blocks of the Basic Multilingual Plane. */
  predicate IsPyDigit(c: char)
  {
    InBlock(c, 0x30) || InBlock(c, 0x660) || InBlock(c, 0x6F0) || InBlock(c, 0x7C0) ||
    InBlock(c, 0x966) || InBlock(c, 0x9E6) || InBlock(c, 0xA66) || InBlock(c, 0xAE6) ||
    InBlock(c, 0xB66) || InBlock(c, 0xBE6) || InBlock(c, 0xC66) || InBlock(c, 0xCE6) ||
    InBlock(c, 0xD66) || InBlock(c, 0xDE6) || InBlock(c, 0xE50) || InBlock(c, 0xED0) ||
    InBlock(c, 0xF20) || InBlock(c, 0x1040) || InBlock(c, 0x1090) || InBlock(c, 0x17E0) ||
    InBlock(c, 0x1810) || InBlock(c, 0x1946) || InBlock(c, 0x19D0) || InBlock(c, 0x1A80) ||
    InBlock(c, 0x1A90) || InBlock(c, 0x1B50) || InBlock(c, 0x1BB0) || InBlock(c, 0x1C40) ||
    InBlock(c, 0x1C50) || InBlock(c, 0xA620) || InBlock(c, 0xA8D0) || InBlock(c, 0xA900) ||
    InBlock(c, 0xA9D0) || InBlock(c, 0xA9F0) || InBlock(c, 0xAA50) || InBlock(c, 0xABF0) ||
    InBlock(c, 0xFF10)
  }

  lemma AsciiDigitIsPyDigit(c: char)
    requires IsAsciiDigit(c)
    ensures IsPyDigit(c)
  {
  }

  /** `re.sub(r'[^\d]', '', s)`: the digits of `s`, in order. */
  function PyDigits(s: string): (r: string)
    ensures |r| <= |s|
    ensures forall i :: 0 <= i < |r| ==> IsPyDigit(r[i])
  {
    if s == [] then []
    else (if IsPyDigit(s[0]) then [s[0]] else []) + PyDigits(s[1..])
  }

  /** The pattern `^[6-9]\d{9}$`, matched against a whole string. */
  predicate PhonePattern(s: string)
  {
    |s| == 10 && '6' <= s[0] <= '9' && forall i :: 1 <= i < 10 ==> IsPyDigit(s[i])
  }

  /** `validate_indian_phone`: exactly ten digits remain, and the first of them is 6, 7, 8 or 9. */
  function ValidateIndianPhone(phone: string): (r: bool)
    ensures r <==> |PyDigits(phone)| == 10 && '6' <= PyDigits(phone)[0] <= '9'
  {
    PhonePattern(PyDigits(phone))
  }

  /** Keeping the digits of a concatenation keeps the digits of each part. */
  lemma {:induction false} PyDigitsConcat(a: string, b: string)
    ensures PyDigits(a + b) == PyDigits(a) + PyDigits(b)
  {
    if a != [] {
      assert (a + b)[0] == a[0] && (a + b)[1..] == a[1..] + b;
      PyDigitsConcat(a[1..], b);
      var head := if IsPyDigit(a[0]) then [a[0]] else [];
      assert PyDigits(a + b) == head + (PyDigits(a[1..]) + PyDigits(b));
      assert PyDigits(a) == head + PyDigits(a[1..]);
    } else {
      assert a + b == b;
    }
  }

  /** A string of digits is its own digit string. */
  lemma {:induction false} PyDigitsOfDigits(s: string)
    requires forall i :: 0 <= i < |s| ==> IsPyDigit(s[i])
    ensures PyDigits(s) == s
  {
    if s != [] {
      PyDigitsOfDigits(s[1..]);
    }
  }

  /** A string without digits contributes nothing. */
  lemma {:induction false} PyDigitsOfNonDigits(s: string)
    requires forall i :: 0 <= i < |s| ==> !IsPyDigit(s[i])
    ensures PyDigits(s) == []
  {
    if s != [] {
      PyDigitsOfNonDigits(s[1..]);
    }
  }

  /** Inserting characters that are not digits anywhere in a phone number never changes the verdict. */
  lemma InsertNonDigits(a: string, x: string, b: string)
    requires forall i :: 0 <= i < |x| ==> !IsPyDigit(x[i])
    ensures ValidateIndianPhone(a + x + b) == ValidateIndianPhone(a + b)
  {
    PyDigitsConcat(a + x, b);
    PyDigitsConcat(a, x);
    PyDigitsConcat(a, b);
    PyDigitsOfNonDigits(x);
  }

  lemma AcceptsPlainNumber()
    ensures ValidateIndianPhone("9876543210")
  {
    PyDigitsOfDigits("9876543210");
  }

  lemma AcceptsDashedNumber()
    ensures ValidateIndianPhone("98765-43210")
  {
    var s := "98765-43210";
    assert s == "98765" + "-" + "43210";
    assert "98765" + "43210" == "9876543210";
    InsertNonDigits("98765", "-", "43210");
    AcceptsPlainNumber();
  }

  lemma RejectsLeadingOne()
    ensures !ValidateIndianPhone("1234567890")
  {
    PyDigitsOfDigits("1234567890");
  }

  /** Nine or eleven digits are never accepted, whatever they are. */
  lemma RejectsWrongLength(s: string)
    requires forall i :: 0 <= i < |s| ==> IsPyDigit(s[i])
    requires |s| == 9 || |s| == 11
    ensures !ValidateIndianPhone(s)
  {
    PyDigitsOfDigits(s);
  }

  /** `sanitize_input`: an empty value gives the empty string; any other goes through the HTML cleaner `clean`. */
  function SanitizeInput(text: string, clean: string -> string): (r: string)
    ensures text == "" ==> r == ""
  {
    if text == "" then "" else clean(text)
  }

  /** The fields of `required`, in order, that `data` lacks or holds as the empty string. */
  function MissingFields(data: map<string, string>, required: seq<string>): (r: seq<string>)
    ensures |r| <= |required|
    ensures forall k :: 0 <= k < |r| ==> r[k] in required && (r[k] !in data || data[r[k]] == "")
  {
    if required == [] then []
    else
      var f := required[|required| - 1];
      MissingFields(data, required[..|required| - 1]) + (if f !in data || data[f] == "" then [f] else [])
  }

  /** `validate_required_fields`. */
  method ValidateRequiredFields(data: map<string, string>, required: seq<string>) returns (missing: seq<string>)
    ensures missing == MissingFields(data, required)
  {
    missing := [];
    var k := 0;
    while k < |required|
      invariant 0 <= k <= |required|
      invariant missing == MissingFields(data, required[..k])
    {
      var field := required[k];
      assert required[..k + 1][..k] == required[..k];
      if field !in data || data[field] == "" {
        missing := missing + [field];
      }
      k := k + 1;
    }
    assert required[..k] == required;
  }

  /** A field is listed exactly when it is required and absent or empty. */
  lemma {:induction false} MissingFieldsMembership(data: map<string, string>, required: seq<string>, f: string)
    ensures f in MissingFields(data, required) <==> f in required && (f !in data || data[f] == "")
  {
    if required != [] {
      var init := required[..|required| - 1];
      MissingFieldsMembership(data, init, f);
      assert required == init + [required[|required| - 1]];
    }
  }

  /** `xs` is `ys` with some elements left out, the rest kept in order. */
  predicate IsSubsequence<T(==)>(xs: seq<T>, ys: seq<T>)
    decreases |ys|
  {
    if xs == [] then true
    else if ys == [] then false
    else
      (xs[|xs| - 1] == ys[|ys| - 1] && IsSubsequence(xs[..|xs| - 1], ys[..|ys| - 1])) ||
      IsSubsequence(xs, ys[..|ys| - 1])
  }

  /** The listing keeps the order of `required`. */
  lemma {:induction false} MissingFieldsInOrder(data: map<string, string>, required: seq<string>)
    ensures IsSubsequence(MissingFields(data, required), required)
  {
    if required != [] {
      var init := required[..|required| - 1];
      var f := required[|required| - 1];
      MissingFieldsInOrder(data, init);
      var m := MissingFields(data, init);
      if f !in data || data[f] == "" {
        var xs := m + [f];
        assert xs[|xs| - 1] == f && xs[..|xs| - 1] == m;
        assert IsSubsequence(xs, required);
      } else {
        assert MissingFields(data, required) == m;
        assert required[..|required| - 1] == init;
      }
    }
  }

  /** Nothing is listed exactly when every required field is present and non-empty. */
  lemma MissingFieldsEmpty(data: map<string, string>, required: seq<string>)
    ensures MissingFields(data, required) == [] <==> forall f :: f in required ==> f in data && data[f] != ""
  {
    forall f | f in required
      ensures f in MissingFields(data, required) <==> (f !in data || data[f] == "")
    {
      MissingFieldsMembership(data, required, f);
    }
    if MissingFields(data, required) != [] {
      var f := MissingFields(data, required)[0];
      MissingFieldsMembership(data, required, f);
    }
  }
}
