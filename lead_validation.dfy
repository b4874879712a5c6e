/** The validator chains of `POST /api/leads`: the fixed-field rules and the
    check of every extra field, which stops at the first violation. */
module LeadValidation {
  import opened Text
  import opened Js
  import opened ValidationGate

  const EmailRequired: string := "Email is required"
  const EmailInvalid: string := "Please provide a valid email"
  const NameLength: string := "Name must be between 3 and 50 characters"
  const NameCharacters: string := "Name can only contain letters, numbers, spaces, and basic punctuation"
  const PhoneInvalid: string := "Please provide a valid phone number"
  const SourceLength: string := "Source must be between 2 and 50 characters"
  const MessageLength: string := "Message cannot exceed 1000 characters"

  /** The keys the extra-field check leaves alone. */
  const CheckedFixedFields: seq<string> := ["email", "name", "phone", "source", "status", "message"]

  // ---------------------------------------------------------------- chains

  /** `email`: required and well formed; both checks run and report. */
  function EmailErrors(lib: Library, t: string): (msgs: seq<string>)
    ensures msgs == [] <==> t != "" && lib.isEmail(t)
    ensures EmailRequired in msgs <==> t == ""
  {
    (if t == "" then [EmailRequired] else []) + (if lib.isEmail(t) then [] else [EmailInvalid])
  }

  predicate NameChar(c: char) {
    IsLetter(c) || IsDigit(c) || IsJsWhitespace(c) || c == '-' || c == '\'' || c == '.'
  }

  /** `/^[a-zA-Z0-9\s\-'.]+$/` */
  predicate NameCharsOk(t: string) {
    |t| > 0 && forall i :: 0 <= i < |t| ==> NameChar(t[i])
  }

  /** `name`: 3 to 50 characters from the allowed set. */
  function NameErrors(t: string): (msgs: seq<string>)
    ensures msgs == [] <==> 3 <= ValidatorLength(t) <= 50 && NameCharsOk(t)
    ensures |msgs| <= 2
  {
    (if 3 <= ValidatorLength(t) <= 50 then [] else [NameLength])
    + (if NameCharsOk(t) then [] else [NameCharacters])
  }

  /** `source`: 2 to 50 characters. */
  function SourceErrors(t: string): (msgs: seq<string>)
    ensures msgs == [] <==> 2 <= ValidatorLength(t) <= 50
  {
    if 2 <= ValidatorLength(t) <= 50 then [] else [SourceLength]
  }

  /** `message`: at most 1000 characters. */
  function MessageErrors(t: string): (msgs: seq<string>)
    ensures msgs == [] <==> ValidatorLength(t) <= 1000
  {
    if ValidatorLength(t) <= 1000 then [] else [MessageLength]
  }

  // ---------------------------------------------------------------- phone

  predicate IsPhoneSeparator(c: char) {
    c == '-' || IsJsWhitespace(c) || c == '.'
  }

  predicate DigitsAt(s: string, i: nat, n: nat) {
    i + n <= |s| && forall j :: i <= j < i + n ==> IsDigit(s[j])
  }

  /** Position after an optional `c` at position `i`. */
  function SkipChar(s: string, i: nat, c: char): nat {
    if i < |s| && s[i] == c then i + 1 else i
  }

  /** Position after an optional separator at position `i`. */
  function SkipSeparator(s: string, i: nat): nat {
    if i < |s| && IsPhoneSeparator(s[i]) then i + 1 else i
  }

  /** `/^[+]?[(]?[0-9]{3}[)]?[-\s.]?[0-9]{3}[-\s.]?[0-9]{4,6}$/`, matched
      left to right taking each optional character when it is there. */
  predicate PhoneMatches(s: string) {
    var a := SkipChar(s, 0, '+');
    var b := SkipChar(s, a, '(');
    DigitsAt(s, b, 3) &&
    var c := SkipChar(s, b + 3, ')');
    var d := SkipSeparator(s, c);
    DigitsAt(s, d, 3) &&
    var e := SkipSeparator(s, d + 3);
    4 <= |s| - e <= 6 && DigitsAt(s, e, |s| - e)
  }

  function Len(b: bool): nat { if b then 1 else 0 }

  /** One way of reading `s` as the phone pattern: which optional characters
      are present, and how many digits end it. */
  predicate PhoneLayout(s: string, plus: bool, open: bool, close: bool, sep1: bool, sep2: bool, n: nat) {
    var i1 := Len(plus);
    var i2 := i1 + Len(open);
    var i3 := i2 + 3;
    var i4 := i3 + Len(close);
    var i5 := i4 + Len(sep1);
    var i6 := i5 + 3;
    var i7 := i6 + Len(sep2);
    && 4 <= n <= 6 && |s| == i7 + n
    && (plus ==> s[0] == '+')
    && (open ==> s[i1] == '(')
    && DigitsAt(s, i2, 3)
    && (close ==> s[i3] == ')')
    && (sep1 ==> IsPhoneSeparator(s[i4]))
    && DigitsAt(s, i5, 3)
    && (sep2 ==> IsPhoneSeparator(s[i6]))
    && DigitsAt(s, i7, n)
  }

  /** The language of the phone regular expression. */
  ghost predicate PhonePattern(s: string) {
    exists plus, open, close, sep1, sep2, n :: PhoneLayout(s, plus, open, close, sep1, sep2, n)
  }

  /** What the matcher finds is one reading of the pattern. */
  lemma PhoneMatchIsLayout(s: string)
    requires PhoneMatches(s)
    ensures PhonePattern(s)
  {
    var a := SkipChar(s, 0, '+');
    var b := SkipChar(s, a, '(');
    var c := SkipChar(s, b + 3, ')');
    var d := SkipSeparator(s, c);
    var e := SkipSeparator(s, d + 3);
    var plus, open, close, sep1, sep2 := a == 1, b == a + 1, c == b + 4, d == c + 1, e == d + 4;
    assert Len(plus) == a && a + Len(open) == b && b + 3 + Len(close) == c;
    assert c + Len(sep1) == d && d + 3 + Len(sep2) == e;
    assert plus ==> s[0] == '+';
    assert open ==> s[a] == '(';
    assert close ==> s[b + 3] == ')';
    assert sep1 ==> IsPhoneSeparator(s[c]);
    assert sep2 ==> IsPhoneSeparator(s[d + 3]);
    assert PhoneLayout(s, plus, open, close, sep1, sep2, |s| - e);
  }

  /** Every reading of the pattern is the one the matcher finds: an optional
      character it passes over is followed by a character of another class. */
  lemma PhoneLayoutIsMatched(s: string, plus: bool, open: bool, close: bool, sep1: bool, sep2: bool, n: nat)
    requires PhoneLayout(s, plus, open, close, sep1, sep2, n)
    ensures PhoneMatches(s)
  {
    var i1 := Len(plus);
    var i2 := i1 + Len(open);
    var i4 := i2 + 3 + Len(close);
    var i5 := i4 + Len(sep1);
    var i7 := i5 + 3 + Len(sep2);
    assert IsDigit(s[i2]) && IsDigit(s[i5]) && IsDigit(s[i7]);
    var a := SkipChar(s, 0, '+');
    assert a == i1;
    var b := SkipChar(s, a, '(');
    assert b == i2;
    var c := SkipChar(s, b + 3, ')');
    assert c == i4;
    var d := SkipSeparator(s, c);
    assert d == i5;
    var e := SkipSeparator(s, d + 3);
    assert e == i7;
  }

  /** The left-to-right matcher accepts exactly the strings of the pattern. */
  lemma PhoneMatchesPattern(s: string)
    ensures PhoneMatches(s) <==> PhonePattern(s)
  {
    if PhoneMatches(s) {
      PhoneMatchIsLayout(s);
    }
    if PhonePattern(s) {
      var plus, open, close, sep1, sep2, n :| PhoneLayout(s, plus, open, close, sep1, sep2, n);
      PhoneLayoutIsMatched(s, plus, open, close, sep1, sep2, n);
    }
  }

  /** `phone`: the phone pattern. */
  function PhoneErrors(t: string): (msgs: seq<string>)
    ensures msgs == [] <==> PhonePattern(t)
  {
    PhoneMatchesPattern(t);
    if PhoneMatches(t) then [] else [PhoneInvalid]
  }

  // ---------------------------------------------------------------- extra fields

  function NullMessage(k: string): string { "Extra field '" + k + "' cannot be null or undefined" }
  function ObjectMessage(k: string): string { "Extra field '" + k + "' must be a simple value, not an object or array" }
  function KeyMessage(k: string): string { "Extra field name '" + k + "' can only contain letters, numbers, and underscores" }
  function LengthMessage(k: string): string { "Extra field '" + k + "' value cannot exceed 500 characters" }

  predicate KeyChar(c: char) {
    IsLetter(c) || IsDigit(c) || c == '_'
  }

  /** `/^[a-zA-Z0-9_]+$/` */
  predicate ExtraKeyOk(k: string) {
    |k| > 0 && forall i :: 0 <= i < |k| ==> KeyChar(k[i])
  }

  predicate IsScalar(v: JsValue) {
    v.Bool? || v.Num? || v.Str?
  }

  /** What an extra entry must satisfy: a scalar value, a key of letters,
      digits and underscores, and a string value of at most 500 UTF-16 units. */
  predicate ExtraFieldOk(k: string, v: JsValue) {
    IsScalar(v) && ExtraKeyOk(k) && (v.Str? ==> Utf16Length(v.s) <= 500)
  }

  /** The checks for one extra field, in the order the loop runs them:
      null or undefined, then object or array, then the key's form, then the
      string length. */
  function ExtraFieldViolation(k: string, v: JsValue): (r: Option<string>)
    ensures r.None? <==> ExtraFieldOk(k, v)
    ensures (v.Null? || v.Undefined?) ==> r == Some(NullMessage(k))
    ensures (v.Arr? || v.Obj?) ==> r == Some(ObjectMessage(k))
    ensures IsScalar(v) && !ExtraKeyOk(k) ==> r == Some(KeyMessage(k))
    ensures IsScalar(v) && ExtraKeyOk(k) && v.Str? && Utf16Length(v.s) > 500 ==> r == Some(LengthMessage(k))
  {
    if v.Null? || v.Undefined? then Some(NullMessage(k))
    else if v.Arr? || v.Obj? then Some(ObjectMessage(k))
    else if !ExtraKeyOk(k) then Some(KeyMessage(k))
    else if v.Str? && Utf16Length(v.s) > 500 then Some(LengthMessage(k))
    else None
  }

  /** The keys the loop visits, in body order. */
  function ExtraKeys(body: Body): seq<string> {
    KeysNotIn(body, CheckedFixedFields)
  }

  /** The message of the first of `keys` whose entry violates a rule. */
  function FirstViolation(body: Body, keys: seq<string>): Option<string> {
    if keys == [] then None
    else match ExtraFieldViolation(keys[0], Lookup(body, keys[0]).GetOr(Undefined))
      case Some(m) => Some(m)
      case None => FirstViolation(body, keys[1..])
  }

  /** The `custom` check over the body: the loop over the extra keys, which
      throws at the first violation and otherwise returns true. */
  method CheckExtraFields(body: Body) returns (violation: Option<string>)
    ensures violation == FirstViolation(body, ExtraKeys(body))
  {
    var extraFields := ExtraKeys(body);
    for i := 0 to |extraFields|
      invariant FirstViolation(body, extraFields) == FirstViolation(body, extraFields[i..])
    {
      var field := extraFields[i];
      var value := Lookup(body, field).GetOr(Undefined);
      assert extraFields[i..][1..] == extraFields[i + 1..];
      var r := ExtraFieldViolation(field, value);
      if r.Some? {
        return r;
      }
    }
    return None;
  }

  /** No violation is reported iff every visited key passes every check. */
  lemma {:induction false} NoViolationIff(body: Body, keys: seq<string>)
    ensures FirstViolation(body, keys).None? <==>
            forall i :: 0 <= i < |keys| ==> ExtraFieldOk(keys[i], Lookup(body, keys[i]).GetOr(Undefined))
  {
    if keys != [] {
      NoViolationIff(body, keys[1..]);
      assert forall i :: 1 <= i < |keys| ==> keys[i] == keys[1..][i - 1];
    }
  }

  /** A reported violation is that of some key, and every key before it passed. */
  lemma {:induction false} ViolationIsFirst(body: Body, keys: seq<string>)
    requires FirstViolation(body, keys).Some?
    ensures exists i :: 0 <= i < |keys|
              && ExtraFieldViolation(keys[i], Lookup(body, keys[i]).GetOr(Undefined)) == FirstViolation(body, keys)
              && forall j :: 0 <= j < i ==> ExtraFieldOk(keys[j], Lookup(body, keys[j]).GetOr(Undefined))
  {
    var v := Lookup(body, keys[0]).GetOr(Undefined);
    if ExtraFieldViolation(keys[0], v).None? {
      ViolationIsFirst(body, keys[1..]);
      var i :| 0 <= i < |keys[1..]|
              && ExtraFieldViolation(keys[1..][i], Lookup(body, keys[1..][i]).GetOr(Undefined)) == FirstViolation(body, keys[1..])
              && forall j :: 0 <= j < i ==> ExtraFieldOk(keys[1..][j], Lookup(body, keys[1..][j]).GetOr(Undefined));
      assert forall j :: 1 <= j < i + 1 ==> keys[j] == keys[1..][j - 1];
      assert ExtraFieldViolation(keys[i + 1], Lookup(body, keys[i + 1]).GetOr(Undefined)) == FirstViolation(body, keys);
    } else {
      assert ExtraFieldViolation(keys[0], v) == FirstViolation(body, keys);
    }
  }

  /** The entries the loop visits are exactly the body entries outside the six fixed fields. */
  lemma ExtraKeysCoverEntries(body: Body, i: nat)
    requires i < |body| && body[i].0 !in CheckedFixedFields
    ensures body[i].0 in ExtraKeys(body)
    ensures Lookup(body, body[i].0).GetOr(Undefined) == body[i].1
  {
    LookupEntry(body, i);
  }

  lemma ExtraKeyHasEntry(body: Body, k: string)
    requires k in ExtraKeys(body)
    ensures exists i :: 0 <= i < |body| && body[i].0 == k && body[i].0 !in CheckedFixedFields
                        && Lookup(body, k).GetOr(Undefined) == body[i].1
  {
    assert k in KeySet(body);
    var e :| e in body && e.0 == k;
    var i :| 0 <= i < |body| && body[i] == e;
    LookupEntry(body, i);
  }

  /** The extra-field check passes iff every body entry outside the six fixed
      fields passes every check. */
  lemma ExtraFieldsAccepted(body: Body)
    ensures FirstViolation(body, ExtraKeys(body)).None? <==>
            forall i :: 0 <= i < |body| && body[i].0 !in CheckedFixedFields ==> ExtraFieldOk(body[i].0, body[i].1)
  {
    var ks := ExtraKeys(body);
    NoViolationIff(body, ks);
    if FirstViolation(body, ks).None? {
      forall i | 0 <= i < |body| && body[i].0 !in CheckedFixedFields
        ensures ExtraFieldOk(body[i].0, body[i].1)
      {
        ExtraKeysCoverEntries(body, i);
        var j :| 0 <= j < |ks| && ks[j] == body[i].0;
      }
    }
    if forall i :: 0 <= i < |body| && body[i].0 !in CheckedFixedFields ==> ExtraFieldOk(body[i].0, body[i].1) {
      forall j | 0 <= j < |ks|
        ensures ExtraFieldOk(ks[j], Lookup(body, ks[j]).GetOr(Undefined))
      {
        assert ks[j] in ks;
        ExtraKeyHasEntry(body, ks[j]);
      }
    }
  }

  // ---------------------------------------------------------------- all chains

  /** `CreateLeadValidation`: the errors of every chain, in chain order. The
      body-wide check contributes its single thrown message under param "". */
  function CreateLeadValidation(lib: Library, body: Body): seq<ValidationError> {
    Tag("email", EmailErrors(lib, ChainText(Lookup(body, "email"))))
    + OptionalChain("name", Lookup(body, "name"), NameErrors)
    + OptionalChain("phone", Lookup(body, "phone"), PhoneErrors)
    + OptionalChain("source", Lookup(body, "source"), SourceErrors)
    + OptionalChain("message", Lookup(body, "message"), MessageErrors)
    + (match FirstViolation(body, ExtraKeys(body))
       case Some(m) => [ValidationError("", m)]
       case None => [])
  }

  /** Every rule of the chains holds of the body. */
  ghost predicate LeadBodyValid(lib: Library, body: Body) {
    var email := ChainText(Lookup(body, "email"));
    var name := Lookup(body, "name");
    var phone := Lookup(body, "phone");
    var source := Lookup(body, "source");
    var message := Lookup(body, "message");
    && email != "" && lib.isEmail(email)
    && (Supplied(name) ==> 3 <= ValidatorLength(ChainText(name)) <= 50 && NameCharsOk(ChainText(name)))
    && (Supplied(phone) ==> PhonePattern(ChainText(phone)))
    && (Supplied(source) ==> 2 <= ValidatorLength(ChainText(source)) <= 50)
    && (Supplied(message) ==> ValidatorLength(ChainText(message)) <= 1000)
    && forall i :: 0 <= i < |body| && body[i].0 !in CheckedFixedFields ==> ExtraFieldOk(body[i].0, body[i].1)
  }

  /** The chains report nothing iff every rule holds. */
  lemma CreateLeadValidationPasses(lib: Library, body: Body)
    ensures CreateLeadValidation(lib, body) == [] <==> LeadBodyValid(lib, body)
  {
    ExtraFieldsAccepted(body);
    var name := Lookup(body, "name");
    var phone := Lookup(body, "phone");
    assert Supplied(name) ==> (NameErrors(ChainText(name)) == [] <==> Tag("name", NameErrors(ChainText(name))) == []);
    assert Supplied(phone) ==> (PhoneErrors(ChainText(phone)) == [] <==> Tag("phone", PhoneErrors(ChainText(phone))) == []);
  }

  // ---------------------------------------------------------------- sanitizers

  /** The optional fields whose chains end in `trim()`. */
  const TrimmedFields: seq<string> := ["name", "phone", "source", "message"]

  /** What the handler reads under `f` once the sanitizers have written their
      results back into the body: the e-mail chain stores `normalizeEmail` of
      the trimmed text, each optional chain the trimmed text of a supplied
      value, and every other key keeps its value. (An absent e-mail fails its
      chain, so what that chain writes then is read here as undefined.) */
  function SanitizedValue(lib: Library, body: Body, f: string): (v: JsValue)
    ensures f == "email" && Lookup(body, f).Some? ==> v == Str(lib.normalizeEmail(ChainText(Lookup(body, f))))
    ensures f in TrimmedFields && Supplied(Lookup(body, f)) ==> v == Str(ChainText(Lookup(body, f)))
    ensures f != "email" && !(f in TrimmedFields && Supplied(Lookup(body, f))) ==> v == Lookup(body, f).GetOr(Undefined)
    ensures v.Undefined? ==> !Supplied(Lookup(body, f))
  {
    var read := Lookup(body, f);
    if f == "email" then (if read.Some? then Str(lib.normalizeEmail(ChainText(read))) else Undefined)
    else if f in TrimmedFields && Supplied(read) then Str(ChainText(read))
    else read.GetOr(Undefined)
  }
}
