/** The validation rules of the three form requests, as predicates over the
    submitted fields (the three classes under app/Http/Requests). */
module FormRequests {
  import opened Wrappers
  import opened PhpValues

  /** A submitted request field: absent (or null), a string, or some other
      JSON value (number, array, boolean). */
  datatype Field = Absent | Str(s: string) | NonString

  /** The characters PHP's `trim` removes. */
  predicate IsTrimmed(c: char) {
    c == ' ' || c == '\t' || c == '\n' || c == '\r' || c == '\0' || c == '\U{000B}'
  }

  /** Laravel's `required`: present, and a string must not be blank after trimming. */
  predicate Required(f: Field) {
    match f
    case Absent => false
    case Str(s) => exists k :: 0 <= k < |s| && !IsTrimmed(s[k])
    case NonString => true
  }

  /** Laravel's `string`. */
  predicate IsString(f: Field) {
    f.Str?
  }

  /** Laravel's `max:n` on a string: at most n characters. */
  predicate MaxLength(f: Field, n: nat) {
    f.Str? ==> |f.s| <= n
  }

  // ---------------- SaveGaPropertyRequest ----------------

  const PropertyPrefix: string := "properties/"

  /** `properties/` followed by one or more ASCII digits and nothing else. */
  predicate IsPropertyResource(t: string) {
    |t| > |PropertyPrefix| && t[..|PropertyPrefix|] == PropertyPrefix
    && forall k :: |PropertyPrefix| <= k < |t| ==> IsDigit(t[k])
  }

  /** `preg_match('/^properties\/\d+$/', s)`: without the D modifier `$` also
      matches just before one final newline. */
  predicate MatchesPropertyPattern(s: string) {
    IsPropertyResource(s) || (|s| > 0 && s[|s| - 1] == '\n' && IsPropertyResource(s[..|s| - 1]))
  }

  /** The `property_id` rules: required, string, max:255, the pattern. */
  predicate PropertyIdValid(f: Field) {
    Required(f) && IsString(f) && MaxLength(f, 255) && MatchesPropertyPattern(f.s)
  }

  /** `SaveGaPropertyRequest::authorize`: `Auth::check()`. */
  predicate SaveGaPropertyAuthorized(authUser: Option<int>) {
    authUser.Some?
  }

  /** The string `properties/<digits>`, with one final newline if asked. */
  function PropertyResource(digits: string, newline: bool): string {
    PropertyPrefix + digits + (if newline then "\n" else "")
  }

  /** An accepted property id is `properties/<digits>`, optionally followed by
      one newline, and at most 255 characters long. */
  lemma AcceptedPropertyIdShape(f: Field)
    requires PropertyIdValid(f)
    ensures f.Str? && |f.s| <= 255
    ensures exists digits: string, newline: bool ::
      |digits| > 0 && (forall k :: 0 <= k < |digits| ==> IsDigit(digits[k])) && f.s == PropertyResource(digits, newline)
  {
    var s := f.s;
    if IsPropertyResource(s) {
      var digits := s[|PropertyPrefix|..];
      assert s == PropertyResource(digits, false);
    } else {
      var digits := s[|PropertyPrefix|..|s| - 1];
      assert s[..|s| - 1][|PropertyPrefix|..] == digits;
      assert s == PropertyResource(digits, true);
    }
  }

  /** Every `properties/<digits>` string of at most 255 characters, with or
      without one final newline, is accepted. */
  lemma {:induction false} PropertyResourceAccepted(digits: string, newline: bool)
    requires |digits| > 0 && forall k :: 0 <= k < |digits| ==> IsDigit(digits[k])
    requires |PropertyResource(digits, newline)| <= 255
    ensures PropertyIdValid(Str(PropertyResource(digits, newline)))
  {
    var s := PropertyResource(digits, newline);
    var t := PropertyPrefix + digits;
    assert s[0] == 'p' && !IsTrimmed(s[0]);
    assert IsPropertyResource(t) by {
      assert t[..|PropertyPrefix|] == PropertyPrefix;
      forall k | |PropertyPrefix| <= k < |t|
        ensures IsDigit(t[k])
      {
        assert t[k] == digits[k - |PropertyPrefix|];
      }
    }
    if newline {
      assert s[..|s| - 1] == t;
    } else {
      assert s == t;
    }
  }

  /** The examples the rule's message gives and the typical wrong inputs. */
  lemma PropertyIdExamples()
    ensures PropertyIdValid(Str("properties/123"))
    ensures PropertyIdValid(Str("properties/123\n"))
    ensures !PropertyIdValid(Str("123"))
    ensures !PropertyIdValid(Str("properties/"))
    ensures !PropertyIdValid(Str("properties/12a"))
    ensures !PropertyIdValid(NonString) && !PropertyIdValid(Absent)
  {
    assert !IsTrimmed("properties/123"[0]);
    assert !IsTrimmed("properties/123\n"[0]);
    assert "properties/123\n"[..14] == "properties/123";
    assert "properties/12a"[13] == 'a';
  }

  /** A stored property id that passed validation is never PHP-falsy, so the
      report getters' `if (!$ga4PropertyId)` guard lets it through. */
  lemma ValidPropertyIdIsTruthy(f: Field)
    requires PropertyIdValid(f)
    ensures Truthy(f.s)
  {
    if IsPropertyResource(f.s) {
      assert |f.s| > 1;
    } else {
      assert |f.s[..|f.s| - 1]| > 1;
    }
  }

  // ---------------- RegisterRequest ----------------

  predicate IsUpper(c: char) { 'A' <= c <= 'Z' }
  predicate IsLower(c: char) { 'a' <= c <= 'z' }
  predicate IsLetter(c: char) { IsUpper(c) || IsLower(c) }

  /** Punctuation, symbols and the space: `\p{Z}|\p{S}|\p{P}` on ASCII. */
  predicate IsSymbol(c: char) {
    c == ' ' || ('!' <= c <= '~' && !IsLetter(c) && !IsDigit(c))
  }

  predicate HasLetter(s: string) { exists k :: 0 <= k < |s| && IsLetter(s[k]) }
  predicate HasDigit(s: string) { exists k :: 0 <= k < |s| && IsDigit(s[k]) }
  predicate HasSymbol(s: string) { exists k :: 0 <= k < |s| && IsSymbol(s[k]) }

  predicate NoNewlineBetween(s: string, i: nat, j: nat)
    requires i <= j <= |s|
  {
    forall k :: i <= k < j ==> s[k] != '\n'
  }

  /** `mixedCase()`: `/(\p{Ll}+.*\p{Lu})|(\p{Lu}+.*\p{Ll})/u`. A lower-case and an
      upper-case letter in either order, with no newline between them ('.'
      does not match a newline). */
  predicate MixedCase(s: string) {
    exists i, j :: 0 <= i < j < |s| && NoNewlineBetween(s, i + 1, j) &&
      ((IsLower(s[i]) && IsUpper(s[j])) || (IsUpper(s[i]) && IsLower(s[j])))
  }

  /** `Password::min(8)->letters()->mixedCase()->numbers()->symbols()`. */
  predicate PasswordPolicy(p: string) {
    |p| >= 8 && HasLetter(p) && MixedCase(p) && HasDigit(p) && HasSymbol(p)
  }

  /** The `password` rules: required, string, the policy, `confirmed`
      (`password_confirmation` is the same string). */
  predicate PasswordValid(password: Field, confirmation: Field) {
    Required(password) && IsString(password) && PasswordPolicy(password.s)
    && confirmation == password
  }

  /** All of RegisterRequest's rules. Whether the address is well formed
      (`email`) and not taken (`unique:users,email`) are inputs: one is a
      library validator, the other needs the database. */
  predicate RegisterValid(name: Field, email: Field, password: Field, confirmation: Field,
                          emailWellFormed: bool, emailUnused: bool) {
    Required(name) && IsString(name) && MaxLength(name, 255)
    && Required(email) && IsString(email) && emailWellFormed && MaxLength(email, 255) && emailUnused
    && PasswordValid(password, confirmation)
  }

  /** An accepted password has at least eight characters, an upper-case and a
      lower-case letter, a digit and a symbol, and equals its confirmation. */
  lemma AcceptedPasswordShape(password: Field, confirmation: Field)
    requires PasswordValid(password, confirmation)
    ensures password.Str? && confirmation == password && |password.s| >= 8
    ensures exists k :: 0 <= k < |password.s| && IsUpper(password.s[k])
    ensures exists k :: 0 <= k < |password.s| && IsLower(password.s[k])
    ensures HasDigit(password.s) && HasSymbol(password.s)
  {
    var s := password.s;
    var i, j :| 0 <= i < j < |s| && NoNewlineBetween(s, i + 1, j) &&
      ((IsLower(s[i]) && IsUpper(s[j])) || (IsUpper(s[i]) && IsLower(s[j])));
    if IsLower(s[i]) {
      assert IsUpper(s[j]);
    } else {
      assert IsUpper(s[i]) && IsLower(s[j]);
    }
  }

  /** An accepted registration has a name and an e-mail address of 1 to 255
      characters each, an address that is well formed and unused, and a
      password equal to its confirmation. */
  lemma AcceptedRegistration(name: Field, email: Field, password: Field, confirmation: Field,
                             emailWellFormed: bool, emailUnused: bool)
    requires RegisterValid(name, email, password, confirmation, emailWellFormed, emailUnused)
    ensures name.Str? && 0 < |name.s| <= 255
    ensures email.Str? && 0 < |email.s| <= 255 && emailWellFormed && emailUnused
    ensures password.Str? && confirmation == password && |password.s| >= 8
  {
  }

  /** A password with every required kind of character passes the policy. */
  lemma StrongPasswordAccepted()
    ensures PasswordPolicy("Secret1!")
  {
    var p := "Secret1!";
    assert IsUpper(p[0]) && IsLower(p[1]) && NoNewlineBetween(p, 1, 1);
    assert IsLetter(p[0]) && IsDigit(p[6]) && IsSymbol(p[7]);
  }

  /** Without an upper-case letter the policy fails (`mixedCase`). */
  lemma LowerCasePasswordRejected()
    ensures !PasswordPolicy("secret1!")
  {
    var q := "secret1!";
    assert forall k :: 0 <= k < |q| ==> !IsUpper(q[k]);
  }

  /** Without a symbol the policy fails (`symbols`). */
  lemma PasswordWithoutSymbolRejected()
    ensures !PasswordPolicy("Secret12")
  {
    var r := "Secret12";
    assert forall k :: 0 <= k < |r| ==> !IsSymbol(r[k]);
  }

  /** A newline between the only lower-case and the only upper-case letter
      defeats `mixedCase`, since `.` does not match it. */
  lemma NewlineDefeatsMixedCase()
    ensures !MixedCase("a\nB")
  {
    var t := "a\nB";
    assert t[1] == '\n';
  }

  // ---------------- SaveShopifyTokenRequest ----------------

  /** The rules: `shop_domain` required, string, max:255 (the domain-format
      regex is commented out, so any such string passes); `access_token`
      required and a string. */
  predicate ShopifyTokenValid(shopDomain: Field, accessToken: Field) {
    Required(shopDomain) && IsString(shopDomain) && MaxLength(shopDomain, 255)
    && Required(accessToken) && IsString(accessToken)
  }

  /** `SaveShopifyTokenRequest::authorize` always grants. */
  predicate SaveShopifyTokenAuthorized(authUser: Option<int>) {
    true
  }

  /** No format check: any string of 1 to 255 characters that does not start
      with whitespace is accepted as a domain, with any such token. */
  lemma NoDomainFormatCheck(domain: string, token: string)
    requires 0 < |domain| <= 255 && !IsTrimmed(domain[0])
    requires 0 < |token| && !IsTrimmed(token[0])
    ensures ShopifyTokenValid(Str(domain), Str(token))
  {
  }

  /** "not a domain" passes as a shop domain; a blank domain or token, a
      non-string and a missing field do not. */
  lemma ShopifyTokenExamples()
    ensures ShopifyTokenValid(Str("not a domain"), Str("t"))
    ensures !ShopifyTokenValid(Str(" \t"), Str("t"))
    ensures !ShopifyTokenValid(Str("shop"), Str(" "))
    ensures !ShopifyTokenValid(NonString, Str("t")) && !ShopifyTokenValid(Absent, Str("t"))
    ensures !ShopifyTokenValid(Str("shop"), NonString) && !ShopifyTokenValid(Str("shop"), Absent)
  {
    NoDomainFormatCheck("not a domain", "t");
    var blank := " \t";
    assert forall k :: 0 <= k < |blank| ==> IsTrimmed(blank[k]);
  }

  /** A domain of 255 characters is accepted and one of 256 is refused. */
  lemma ShopifyDomainLengthBoundary()
    ensures ShopifyTokenValid(Str(seq(255, _ => 'a')), Str("t"))
    ensures !ShopifyTokenValid(Str(seq(256, _ => 'a')), Str("t"))
  {
    NoDomainFormatCheck(seq(255, _ => 'a'), "t");
  }
}
