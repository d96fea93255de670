// The input validators of user/validators.py. authentication/validators.py
// repeats validate_email, validate_password and validate_name line for line
// and differs only in sanitize_input; both sanitizers are modelled here.
module Validators {
  import opened Text

  /** The (is_valid, error_message) pair every validator returns. */
  datatype Verdict = Verdict(ok: bool, message: string)

  const Accept := Verdict(true, "")

  function Reject(message: string): Verdict
  {
    Verdict(false, message)
  }

  /** A verdict is well formed when it accepts with no message or rejects with one. */
  predicate WellFormed(v: Verdict)
  {
    v.ok <==> v.message == ""
  }

  // ---------------------------------------------------------------------
  // validate_email: ^[a-zA-Z0-9._%+-]+@[a-zA-Z0-9.-]+\.[a-zA-Z]{2,}$

  predicate IsLocalChar(c: char) { IsLetter(c) || IsDigit(c) || c == '.' || c == '_' || c == '%' || c == '+' || c == '-' }
  predicate IsDomainChar(c: char) { IsLetter(c) || IsDigit(c) || c == '.' || c == '-' }

  predicate AllLocal(t: string) { forall i :: 0 <= i < |t| ==> IsLocalChar(t[i]) }
  predicate AllDomain(t: string) { forall i :: 0 <= i < |t| ==> IsDomainChar(t[i]) }
  predicate AllLetters(t: string) { forall i :: 0 <= i < |t| ==> IsLetter(t[i]) }

  /**
   * The pattern without its anchors matches s exactly when s can be cut at
   * an '@' and a later '.' into a non-empty local part, a non-empty domain
   * and a top-level domain of at least two letters.
   */
  predicate EmailSplit(s: string, at: int, dot: int)
  {
    0 < at && at + 1 < dot && dot + 2 < |s| && s[at] == '@' && s[dot] == '.' &&
    AllLocal(s[..at]) && AllDomain(s[at + 1..dot]) && AllLetters(s[dot + 1..])
  }

  ghost predicate EmailBody(s: string)
  {
    exists at, dot :: EmailSplit(s, at, dot)
  }

  /**
   * Python's `$` also matches just before a final newline, so re.match
   * accepts the pattern followed by one "\n".
   */
  ghost predicate MatchesEmailPattern(s: string)
  {
    EmailBody(s) || (|s| > 0 && s[|s| - 1] == '\n' && EmailBody(s[..|s| - 1]))
  }

  /** A direct decision procedure: the '@' is the first one, the '.' the last one. */
  predicate EmailShape(s: string)
  {
    var at := IndexOf(s, '@');
    at > 0 &&
    var d := s[at + 1..];
    var k := LastIndexOf(d, '.');
    k > 0 && k + 2 < |d| && AllLocal(s[..at]) && AllDomain(d[..k]) && AllLetters(d[k + 1..])
  }

  /** Any way of matching the pattern cuts at the first '@' and the last '.'. */
  lemma SplitIsCanonical(s: string, at: int, dot: int)
    requires EmailSplit(s, at, dot)
    ensures IndexOf(s, '@') == at
    ensures LastIndexOf(s[at + 1..], '.') == dot - at - 1
  {
    forall j | 0 <= j < at ensures s[j] != '@' {
      assert s[..at][j] == s[j];
    }
    var d := s[at + 1..];
    var kk := dot - at - 1;
    forall j | kk < j < |d| ensures d[j] != '.' {
      assert d[j] == s[dot + 1..][j - kk - 1];
    }
  }

  lemma EmailShapeDecidesBody(s: string)
    ensures EmailShape(s) <==> EmailBody(s)
  {
    if EmailShape(s) {
      var at := IndexOf(s, '@');
      var d := s[at + 1..];
      var k := LastIndexOf(d, '.');
      assert s[at + 1..at + 1 + k] == d[..k];
      assert s[at + 1 + k + 1..] == d[k + 1..];
      assert EmailSplit(s, at, at + 1 + k);
    }
    if EmailBody(s) {
      var at, dot :| EmailSplit(s, at, dot);
      SplitIsCanonical(s, at, dot);
      var d := s[at + 1..];
      assert d[..dot - at - 1] == s[at + 1..dot];
      assert d[dot - at..] == s[dot + 1..];
    }
  }

  predicate EmailPatternMatch(s: string)
  {
    EmailShape(s) || (|s| > 0 && s[|s| - 1] == '\n' && EmailShape(s[..|s| - 1]))
  }

  lemma EmailPatternDecided(s: string)
    ensures EmailPatternMatch(s) <==> MatchesEmailPattern(s)
  {
    EmailShapeDecidesBody(s);
    if |s| > 0 {
      EmailShapeDecidesBody(s[..|s| - 1]);
    }
  }

  /** validate_email: required, then format, then the 254-character cap of section 4.5.3.1.3 of RFC 5321. */
  function ValidateEmail(email: string): (r: Verdict)
    ensures WellFormed(r)
    ensures r.ok <==> MatchesEmailPattern(email) && |email| <= 254
    ensures email == [] ==> r.message == "Email is required."
    ensures email != [] && !MatchesEmailPattern(email) ==> r.message == "Invalid email format."
  {
    EmailPatternDecided(email);
    if email == [] then Reject("Email is required.")
    else if !EmailPatternMatch(email) then Reject("Invalid email format.")
    else if |email| > 254 then Reject("Email address is too long.")
    else Accept
  }

  // ---------------------------------------------------------------------
  // validate_password

  const PasswordMin := 8
  const PasswordMax := 128

  predicate StrongPassword(p: string)
  {
    PasswordMin <= |p| <= PasswordMax && HasUpper(p) && HasLower(p) && HasDigit(p)
  }

  function ValidatePassword(password: string): (r: Verdict)
    ensures WellFormed(r)
    ensures r.ok <==> StrongPassword(password)
  {
    if password == [] then Reject("Password is required.")
    else if |password| < PasswordMin then Reject("Password must be at least 8 characters long.")
    else if |password| > PasswordMax then Reject("Password is too long (max 128 characters).")
    else if !HasUpper(password) then Reject("Password must contain at least one uppercase letter.")
    else if !HasLower(password) then Reject("Password must contain at least one lowercase letter.")
    else if !HasDigit(password) then Reject("Password must contain at least one digit.")
    else Accept
  }

  /** The checks run in a fixed order and only the first failure is reported. */
  lemma PasswordReportsFirstFailure(p: string)
    requires PasswordMin <= |p| <= PasswordMax && !HasUpper(p)
    ensures ValidatePassword(p).message == "Password must contain at least one uppercase letter."
  {
  }

  // ---------------------------------------------------------------------
  // validate_name: ^[a-zA-Z\s\-']+$

  predicate IsNameChar(c: char) { IsLetter(c) || IsSpace(c) || c == '-' || c == '\'' }

  predicate AllNameChars(s: string) { forall i :: 0 <= i < |s| ==> IsNameChar(s[i]) }

  function ValidateName(name: string, fieldName: string): (r: Verdict)
    ensures WellFormed(r)
    ensures r.ok <==> 2 <= |name| <= 50 && AllNameChars(name)
    ensures !r.ok ==> StartsWith(r.message, fieldName)
  {
    if name == [] then Reject(fieldName + " is required.")
    else if |name| < 2 then Reject(fieldName + " must be at least 2 characters long.")
    else if |name| > 50 then Reject(fieldName + " is too long (max 50 characters).")
    else if !AllNameChars(name) then Reject(fieldName + " contains invalid characters.")
    else Accept
  }

  // ---------------------------------------------------------------------
  // validate_phone_number

  predicate IsSeparator(c: char) { IsSpace(c) || c == '-' || c == '(' || c == ')' }

  /** re.sub(r"[\s\-\(\)]", "", phone) */
  function Cleaned(phone: string): (r: string)
    ensures |r| <= |phone|
    ensures forall i :: 0 <= i < |r| ==> !IsSeparator(r[i])
  {
    if phone == [] then []
    else if IsSeparator(phone[0]) then Cleaned(phone[1..])
    else [phone[0]] + Cleaned(phone[1..])
  }

  /** The phone shape: 10 to 15 characters, all digits or '+' and then digits. */
  predicate PhoneShape(c: string)
  {
    10 <= |c| <= 15 && (AllDigits(c) || (c[0] == '+' && AllDigits(c[1..])))
  }

  function ValidatePhoneNumber(phone: string): (r: Verdict)
    ensures WellFormed(r)
    ensures r.ok <==> phone == [] || PhoneShape(Cleaned(phone))
  {
    if phone == [] then Accept
    else
      var cleaned := Cleaned(phone);
      if StartsWith(cleaned, "+") then
        if !IsDigitString(cleaned[1..]) then Reject("Invalid phone number format.")
        else if |cleaned| < 10 || |cleaned| > 15 then Reject("Phone number must be between 10 and 15 digits.")
        else Accept
      else
        if !IsDigitString(cleaned) then Reject("Invalid phone number format.")
        else if |cleaned| < 10 || |cleaned| > 15 then Reject("Phone number must be between 10 and 15 digits.")
        else Accept
  }

  // ---------------------------------------------------------------------
  // validate_url: ^https?://[^\s/$.?#].[^\s]*$ with re.IGNORECASE

  /** Under IGNORECASE Python's `s` also matches U+017F, the long s. */
  predicate CharIs(c: char, lower: char)
  {
    LowerChar(c) == lower || (lower == 's' && c == '\U{17f}')
  }

  /** Length of the "http://" or "https://" prefix, or 0 when there is none. */
  function SchemeLength(s: string): (n: nat)
    ensures n == 0 || n == 7 || n == 8
    ensures n <= |s|
  {
    if |s| >= 7 && CharIs(s[0], 'h') && CharIs(s[1], 't') && CharIs(s[2], 't') && CharIs(s[3], 'p') then
      if s[4..7] == "://" then 7
      else if |s| >= 8 && CharIs(s[4], 's') && s[5..8] == "://" then 8
      else 0
    else 0
  }

  predicate NoSpace(t: string) { forall i :: 0 <= i < |t| ==> !IsSpace(t[i]) }

  /** The host part: a first character that is not whitespace or one of /$.?#, any character but a newline, then no whitespace. */
  predicate UrlRest(t: string)
  {
    |t| >= 2 && !IsSpace(t[0]) && t[0] !in "/$.?#" && t[1] != '\n' && NoSpace(t[2..])
  }

  predicate UrlBody(s: string)
  {
    var n := SchemeLength(s);
    n > 0 && UrlRest(s[n..])
  }

  predicate UrlPatternMatch(s: string)
  {
    UrlBody(s) || (|s| > 0 && s[|s| - 1] == '\n' && UrlBody(s[..|s| - 1]))
  }

  function ValidateUrl(url: string, fieldName: string): (r: Verdict)
    ensures WellFormed(r)
    ensures r.ok ==> |url| <= 500 && SchemeLength(url) > 0
    ensures r.ok <==> UrlPatternMatch(url) && |url| <= 500
  {
    if url == [] then Reject(fieldName + " is required.")
    else if !UrlPatternMatch(url) then Reject("Invalid " + fieldName + " format.")
    else if |url| > 500 then Reject(fieldName + " is too long (max 500 characters).")
    else Accept
  }

  // ---------------------------------------------------------------------
  // sanitize_input

  /** user/validators.py: falsy input gives "", otherwise strip and drop every NUL. */
  function SanitizeDroppingNul(text: string): (r: string)
    ensures |r| <= |text|
    ensures forall i :: 0 <= i < |r| ==> r[i] != '\0'
    ensures text == [] ==> r == []
    ensures text != [] ==> r == RemoveAll(Strip(text), '\0')
  {
    if text == [] then [] else RemoveAll(Strip(text), '\0')
  }

  /** authentication/validators.py: falsy input gives "", otherwise strip only. */
  function SanitizeStripping(value: string): (r: string)
    ensures |r| <= |value|
    ensures r == Strip(value)
  {
    if value == [] then [] else Strip(value)
  }

  /** The strip-only sanitizer leaves a text alone exactly when it has no whitespace at either end; NULs included. */
  lemma SanitizeStrippingFixedPoints(value: string)
    ensures SanitizeStripping(value) == value <==> Trimmed(value)
  {
    if Trimmed(value) {
      StripClean(value);
    }
    if SanitizeStripping(value) == value && value != [] {
      StripIsTrimmedSlice(value);
    }
  }

  lemma SanitizeStrippingIdempotent(value: string)
    ensures SanitizeStripping(SanitizeStripping(value)) == SanitizeStripping(value)
  {
    StripIdempotent(value);
  }

  /**
   * The NUL-dropping sanitizer leaves a text alone exactly when it holds no
   * NUL and has no whitespace at either end.
   */
  lemma SanitizeDroppingNulFixedPoints(text: string)
    ensures SanitizeDroppingNul(text) == text <==> Trimmed(text) && forall i :: 0 <= i < |text| ==> text[i] != '\0'
  {
    if Trimmed(text) && forall i :: 0 <= i < |text| ==> text[i] != '\0' {
      StripClean(text);
      RemoveAllAbsent(text, '\0');
    }
    if SanitizeDroppingNul(text) == text {
      SanitizedUnchanged(text);
    }
  }

  /** A text the NUL-dropping sanitizer leaves alone was already stripped and free of NULs. */
  lemma SanitizedUnchanged(text: string)
    requires SanitizeDroppingNul(text) == text
    ensures Trimmed(text) && forall i :: 0 <= i < |text| ==> text[i] != '\0'
  {
    if text != [] {
      var s := Strip(text);
      StripIsTrimmedSlice(text);
      assert |text| <= |s|;
      assert s == text;
    }
  }

  /** Stripping happens before the NULs go, so whitespace behind a NUL survives one pass. */
  lemma SanitizeDroppingNulNotIdempotent()
    ensures SanitizeDroppingNul("\0 a") == " a"
    ensures SanitizeDroppingNul(" a") == "a"
  {
    NulShieldsSpace();
    LeadingSpaceStripped();
  }

  lemma NulShieldsSpace()
    ensures SanitizeDroppingNul("\0 a") == " a"
  {
    var x := "\0 a";
    assert x[1..] == " a";
    LStripNoLeadingSpace(x);
    assert RStrip(x) == x by { assert !IsSpace(x[2]); }
    assert Strip(x) == x;
    RemoveAllAbsent(" a", '\0');
    assert RemoveAll(x, '\0') == RemoveAll(" a", '\0');
  }

  lemma LeadingSpaceStripped()
    ensures SanitizeDroppingNul(" a") == "a"
  {
    var y := " a";
    assert y[1..] == "a";
    LStripNoLeadingSpace("a");
    assert LStrip(y) == "a";
    assert RStrip("a") == "a";
    RemoveAllAbsent("a", '\0');
  }
}
