/** The validator chains of client registration: name, e-mail (with the
    uniqueness lookup), password and role. None of the four is optional. */
module UserValidation {
  import opened Text
  import opened Js
  import opened ValidationGate
  import opened UserModel

  const NameRequired: string := "Name is required"
  const NameAlphabetic: string := "Name must contain only alphabetic characters"
  const NameLength: string := "Name must be between 3 and 50 characters"
  const EmailRequired: string := "Email is required"
  const EmailInvalid: string := "Please provide a valid email"
  const EmailExists: string := "Email already exists"
  const PasswordRequired: string := "Password is required"
  const PasswordLength: string := "Password must be at least 8 characters long"
  const PasswordWeak: string := "Password must contain at least one uppercase letter, one lowercase letter, and one number"
  const RoleInvalid: string := "Invalid role for registration"

  /** validator.js `isAlpha` for the default locale: one or more ASCII letters. */
  predicate IsAlpha(t: string) {
    |t| > 0 && forall i :: 0 <= i < |t| ==> IsLetter(t[i])
  }

  /** `name`: present, letters only, 3 to 50 characters; every failing check reports. */
  function NameErrors(t: string): (msgs: seq<string>)
    ensures msgs == [] <==> IsAlpha(t) && 3 <= ValidatorLength(t) <= 50
    ensures NameRequired in msgs <==> t == ""
  {
    (if t == "" then [NameRequired] else [])
    + (if IsAlpha(t) then [] else [NameAlphabetic])
    + (if 3 <= ValidatorLength(t) <= 50 then [] else [NameLength])
  }

  /** `email`: present, well formed, and no stored user has its normalized form. */
  function EmailErrors(lib: Library, users: seq<User>, t: string): (msgs: seq<string>)
    ensures msgs == [] <==> t != "" && lib.isEmail(t) && !EmailTaken(users, lib.normalizeEmail(t))
    ensures EmailExists in msgs <==> EmailTaken(users, lib.normalizeEmail(t))
  {
    (if t == "" then [EmailRequired] else [])
    + (if lib.isEmail(t) then [] else [EmailInvalid])
    + (if EmailTaken(users, lib.normalizeEmail(t)) then [EmailExists] else [])
  }

  // ---------------------------------------------------------------- password pattern

  datatype CharClass = LowerCase | UpperCase | Digit

  predicate InClass(c: char, k: CharClass) {
    match k
    case LowerCase => IsLower(c)
    case UpperCase => IsUpper(c)
    case Digit => IsDigit(c)
  }

  /** The lookahead `(?=.*[k])` at the start: scan until a line terminator
      for a character of class `k`. */
  function FirstLineHas(t: string, k: CharClass): bool {
    if t == [] || IsLineTerminator(t[0]) then false
    else InClass(t[0], k) || FirstLineHas(t[1..], k)
  }

  /** The meaning of `(?=.*[k])`: some character of class `k` is preceded only
      by characters `.` matches. */
  ghost predicate LookaheadFinds(t: string, k: CharClass) {
    exists i :: 0 <= i < |t| && InClass(t[i], k) && forall j :: 0 <= j < i ==> !IsLineTerminator(t[j])
  }

  lemma {:induction false} FirstLineHasFinds(t: string, k: CharClass)
    ensures FirstLineHas(t, k) <==> LookaheadFinds(t, k)
  {
    if t != [] && !IsLineTerminator(t[0]) && !InClass(t[0], k) {
      FirstLineHasFinds(t[1..], k);
      if LookaheadFinds(t[1..], k) {
        var i :| 0 <= i < |t[1..]| && InClass(t[1..][i], k) && forall j :: 0 <= j < i ==> !IsLineTerminator(t[1..][j]);
        assert InClass(t[i + 1], k) && forall j :: 0 <= j < i + 1 ==> !IsLineTerminator(t[j]);
      }
      if LookaheadFinds(t, k) {
        var i :| 0 <= i < |t| && InClass(t[i], k) && forall j :: 0 <= j < i ==> !IsLineTerminator(t[j]);
        assert i > 0;
        assert InClass(t[1..][i - 1], k) && forall j :: 0 <= j < i - 1 ==> !IsLineTerminator(t[1..][j]);
      }
    } else if t != [] && !IsLineTerminator(t[0]) {
      assert InClass(t[0], k);
    }
  }

  /** `[A-Za-z\d@$!%*?&]` */
  predicate PasswordLead(c: char) {
    IsLetter(c) || IsDigit(c) || c in "@$!%*?&"
  }

  /** `/^(?=.*[a-z])(?=.*[A-Z])(?=.*\d)[A-Za-z\d@$!%*?&]/`: anchored at the
      start only, so nothing constrains the characters after the first. */
  predicate PasswordMatches(t: string) {
    && FirstLineHas(t, LowerCase) && FirstLineHas(t, UpperCase) && FirstLineHas(t, Digit)
    && |t| > 0 && PasswordLead(t[0])
  }

  ghost predicate PasswordPattern(t: string) {
    && LookaheadFinds(t, LowerCase) && LookaheadFinds(t, UpperCase) && LookaheadFinds(t, Digit)
    && |t| > 0 && PasswordLead(t[0])
  }

  /** `password`: present, at least 8 characters after trimming, and matches
      the pattern; every failing check reports. */
  function PasswordErrors(t: string): (msgs: seq<string>)
    ensures msgs == [] <==> ValidatorLength(t) >= 8 && PasswordPattern(t)
    ensures PasswordRequired in msgs <==> t == ""
  {
    FirstLineHasFinds(t, LowerCase);
    FirstLineHasFinds(t, UpperCase);
    FirstLineHasFinds(t, Digit);
    (if t == "" then [PasswordRequired] else [])
    + (if ValidatorLength(t) >= 8 then [] else [PasswordLength])
    + (if PasswordMatches(t) then [] else [PasswordWeak])
  }

  // ---------------------------------------------------------------- role

  /** The role after `trim()` and `default('client')`: an absent, null or
      blank role becomes "client". */
  function RegistrationRole(v: Option<JsValue>): string {
    var t := ChainText(v);
    if t == "" then "client" else t
  }

  /** `role`: the custom check accepts only "client". */
  function RoleErrors(v: Option<JsValue>): (msgs: seq<string>)
    ensures msgs == [] <==> ChainText(v) == "" || ChainText(v) == "client"
    ensures v.None? ==> msgs == []
  {
    if RegistrationRole(v) != "client" then [RoleInvalid] else []
  }

  // ---------------------------------------------------------------- all chains

  /** `ClientRegisterValidation`: the errors of the four chains, in order. */
  function ClientRegisterValidation(lib: Library, users: seq<User>, body: Body): seq<ValidationError> {
    Tag("name", NameErrors(ChainText(Lookup(body, "name"))))
    + Tag("email", EmailErrors(lib, users, ChainText(Lookup(body, "email"))))
    + Tag("password", PasswordErrors(ChainText(Lookup(body, "password"))))
    + Tag("role", RoleErrors(Lookup(body, "role")))
  }

  ghost predicate RegistrationValid(lib: Library, users: seq<User>, body: Body) {
    var name := ChainText(Lookup(body, "name"));
    var email := ChainText(Lookup(body, "email"));
    var password := ChainText(Lookup(body, "password"));
    var role := ChainText(Lookup(body, "role"));
    && IsAlpha(name) && 3 <= ValidatorLength(name) <= 50
    && email != "" && lib.isEmail(email) && !EmailTaken(users, lib.normalizeEmail(email))
    && ValidatorLength(password) >= 8 && PasswordPattern(password)
    && (role == "" || role == "client")
  }

  /** Registration reports no error iff every rule holds. */
  lemma RegistrationAccepted(lib: Library, users: seq<User>, body: Body)
    ensures ClientRegisterValidation(lib, users, body) == [] <==> RegistrationValid(lib, users, body)
  {
  }

  /** An e-mail address some stored user already has is reported, whatever
      else the body holds. */
  lemma DuplicateEmailRejected(lib: Library, users: seq<User>, body: Body, i: nat)
    requires i < |users|
    requires users[i].email == lib.normalizeEmail(ChainText(Lookup(body, "email")))
    ensures ValidationError("email", EmailExists) in ClientRegisterValidation(lib, users, body)
  {
    var msgs := EmailErrors(lib, users, ChainText(Lookup(body, "email")));
    var errs := Tag("email", msgs);
    var k :| 0 <= k < |msgs| && msgs[k] == EmailExists;
    assert errs[k] == ValidationError("email", EmailExists);
    assert ValidationError("email", EmailExists) in errs;
  }
}
