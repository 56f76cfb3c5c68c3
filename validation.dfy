/**
 * The form-validation library: the phone and e-mail patterns, the required and
 * length checks, `getFieldError`, which applies a field's rules in a fixed
 * order, and `validateForm`, which runs it over a whole schema.
 */
module Validation {
  import opened Js

  // ---------------------------------------------------------------- e-mail

  /** A stretch of `[^\s@]`: no whitespace and no '@'. */
  predicate Clean(s: string) {
    forall i :: 0 <= i < |s| ==> !IsSpace(s[i]) && s[i] != '@'
  }

  /**
   * `/^[^\s@]+@[^\s@]+\.[^\s@]+$/.test(s)`, read as the regular expression
   * matches: an '@' at `i` and a '.' at `j` split `s` into three non-empty clean
   * stretches.
   */
  predicate EmailPattern(s: string) {
    exists i, j :: 0 < i && i + 1 < j < |s| - 1 && s[i] == '@' && s[j] == '.' &&
                   Clean(s[..i]) && Clean(s[i + 1..j]) && Clean(s[j + 1..])
  }

  /** A '.' with text on both sides. */
  predicate HasInnerDot(d: string) {
    exists j :: 0 < j < |d| - 1 && d[j] == '.'
  }

  /** `validateEmail`, computed by splitting at the first '@'. */
  predicate ValidateEmail(email: string) {
    var local := Before(email, '@');
    var i := |local|;
    0 < i < |email| && Clean(local) && Clean(email[i + 1..]) && HasInnerDot(email[i + 1..])
  }

  lemma CleanSlice(s: string, a: nat, b: nat)
    requires a <= b <= |s| && Clean(s)
    ensures Clean(s[a..b])
  {
    assert forall k :: 0 <= k < b - a ==> s[a..b][k] == s[a + k];
  }

  /** The first `c` in `s` sits at `a` when none comes before it. */
  lemma {:induction false} BeforeIsFirst(s: string, c: char, a: nat)
    requires a < |s| && s[a] == c && forall k :: 0 <= k < a ==> s[k] != c
    ensures |Before(s, c)| == a
  {
    if a > 0 {
      assert s[0] != c;
      BeforeIsFirst(s[1..], c, a - 1);
    }
  }

  lemma EmailSound(s: string)
    requires ValidateEmail(s)
    ensures EmailPattern(s)
  {
    var local := Before(s, '@');
    var i := |local|;
    var d := s[i + 1..];
    var j :| 0 < j < |d| - 1 && d[j] == '.';
    assert s[i] == '@';
    assert s[i + 1 + j] == '.';
    assert s[..i] == local;
    CleanSlice(d, 0, j);
    CleanSlice(d, j + 1, |d|);
    assert d[0..j] == s[i + 1..i + 1 + j];
    assert d[j + 1..|d|] == s[i + 1 + j + 1..];
  }

  lemma CleanJoin(x: string, c: char, y: string)
    requires Clean(x) && Clean(y) && !IsSpace(c) && c != '@'
    ensures Clean(x + [c] + y)
  {
    var z := x + [c] + y;
    forall k | 0 <= k < |z| ensures !IsSpace(z[k]) && z[k] != '@' {
      if k < |x| { assert z[k] == x[k]; }
      else if k > |x| { assert z[k] == y[k - |x| - 1]; }
    }
  }

  lemma EmailComplete(s: string, a: nat, b: nat)
    requires 0 < a && a + 1 < b < |s| - 1 && s[a] == '@' && s[b] == '.'
    requires Clean(s[..a]) && Clean(s[a + 1..b]) && Clean(s[b + 1..])
    ensures ValidateEmail(s)
  {
    forall k | 0 <= k < a ensures s[k] != '@' {
      assert s[..a][k] == s[k];
    }
    BeforeIsFirst(s, '@', a);
    var d := s[a + 1..];
    assert d == s[a + 1..b] + [s[b]] + s[b + 1..];
    CleanJoin(s[a + 1..b], s[b], s[b + 1..]);
    assert d[b - a - 1] == '.';
    assert HasInnerDot(d);
    assert Before(s, '@') == s[..a];
  }

  /**
   * An address is accepted exactly when it is local '@' domain, both non-empty
   * with no whitespace or '@', and the domain has a '.' with text on each side.
   */
  lemma EmailIff(s: string)
    ensures ValidateEmail(s) <==> EmailPattern(s)
  {
    if ValidateEmail(s) { EmailSound(s); }
    if EmailPattern(s) {
      var a, b :| 0 < a && a + 1 < b < |s| - 1 && s[a] == '@' && s[b] == '.' &&
                  Clean(s[..a]) && Clean(s[a + 1..b]) && Clean(s[b + 1..]);
      EmailComplete(s, a, b);
    }
  }

  // ---------------------------------------------------------------- phone

  /** `phone.replace(/\s/g, '')` */
  function RemoveSpaces(phone: string): (r: string)
    ensures forall i :: 0 <= i < |r| ==> !IsSpace(r[i])
  {
    Where(phone, c => !IsSpace(c))
  }

  /** One of the prefixes `(\+?254|0)?` admits. */
  predicate PhonePrefix(p: string) {
    p == "" || p == "0" || p == "254" || p == "+254"
  }

  /** `[17]\d{8}`: a '1' or '7' and then exactly eight digits. */
  predicate Subscriber(r: string) {
    |r| == 9 && (r[0] == '1' || r[0] == '7') && AllDigits(r[1..])
  }

  /** `/^(\+?254|0)?[17]\d{8}$/.test(t)`: some split of `t` into an admitted prefix and a subscriber number. */
  predicate PhonePattern(t: string) {
    exists k :: 0 <= k <= |t| && PhonePrefix(t[..k]) && Subscriber(t[k..])
  }

  /** The pattern decided by length: each prefix gives a different total length. */
  predicate PhoneByLength(t: string) {
    if |t| == 9 then Subscriber(t)
    else if |t| == 10 then t[0] == '0' && Subscriber(t[1..])
    else if |t| == 12 then t[..3] == "254" && Subscriber(t[3..])
    else if |t| == 13 then t[..4] == "+254" && Subscriber(t[4..])
    else false
  }

  /** `validatePhone` */
  predicate ValidatePhone(phone: string) {
    PhonePattern(RemoveSpaces(phone))
  }

  lemma PhoneByLengthIff(t: string)
    ensures PhonePattern(t) <==> PhoneByLength(t)
  {
    if PhonePattern(t) {
      var k :| 0 <= k <= |t| && PhonePrefix(t[..k]) && Subscriber(t[k..]);
      if k == 1 { assert t[..1] == "0"; assert t[0] == t[..1][0]; }
    }
    if PhoneByLength(t) {
      if |t| == 9 {
        assert t[..0] == "" && t[0..] == t;
      } else if |t| == 10 {
        assert t[..1] == [t[0]];
      } else if |t| == 12 {
        assert PhonePrefix(t[..3]);
      } else {
        assert PhonePrefix(t[..4]);
      }
    }
  }

  /** An accepted number, once its whitespace is removed, has 9, 10, 12 or 13 characters. */
  lemma PhoneLengths(phone: string)
    requires ValidatePhone(phone)
    ensures var n := |RemoveSpaces(phone)|; n == 9 || n == 10 || n == 12 || n == 13
  {
    PhoneByLengthIff(RemoveSpaces(phone));
  }

  /** The international format with '+'. */
  lemma PhoneExamplePlus()
    ensures PhonePattern("+254712345678")
  {
    var t := "+254712345678";
    assert t[..4] == "+254" && t[4..] == "712345678";
    assert t[4..][1..] == "12345678";
  }

  /** The international format without '+'. */
  lemma PhoneExampleCountryCode()
    ensures PhonePattern("254712345678")
  {
    var t := "254712345678";
    assert t[..3] == "254" && t[3..] == "712345678";
    assert t[3..][1..] == "12345678";
  }

  /** The national format with the trunk '0'. */
  lemma PhoneExampleTrunk()
    ensures PhonePattern("0712345678")
  {
    var t := "0712345678";
    assert t[..1] == "0" && t[1..] == "712345678";
    assert t[1..][1..] == "12345678";
  }

  /** The bare subscriber number. */
  lemma PhoneExampleBare()
    ensures PhonePattern("712345678")
  {
    var t := "712345678";
    assert t[..0] == "" && t[0..] == t;
    assert t[1..] == "12345678";
  }

  /** A number whose subscriber part starts with '8' is refused. */
  lemma PhoneExampleRefused()
    ensures !PhonePattern("0812345678")
  {
    PhoneByLengthIff("0812345678");
    assert "0812345678"[1..] == "812345678";
  }

  // ---------------------------------------------------------------- required and lengths

  /** A form value: `None` is null or undefined. */
  type FormValue = Option<string>

  /** `!!value` for a string value. */
  predicate Present(value: FormValue) {
    value.Some? && value.value != ""
  }

  /** `validateRequired` */
  predicate ValidateRequired(value: FormValue) {
    value.Some? && Trim(value.value) != ""
  }

  /** A value fails `required` exactly when it is null, undefined or whitespace only. */
  lemma RequiredIff(value: FormValue)
    ensures !ValidateRequired(value) <==>
              value.None? || forall i :: 0 <= i < |value.value| ==> IsSpace(value.value[i])
  {
    if value.Some? { BlankIffAllSpace(value.value); }
  }

  /** `validateMinLength`: a present value of at least `min` characters. */
  predicate ValidateMinLength(value: FormValue, min: int) {
    Present(value) && |value.value| >= min
  }

  /** `validateMaxLength`: an absent value, or one of at most `max` characters. */
  predicate ValidateMaxLength(value: FormValue, max: int) {
    !Present(value) || |value.value| <= max
  }

  // ---------------------------------------------------------------- getFieldError

  /**
   * The rules of one field. A message of "" is an absent custom message, and a
   * length of 0 an absent length rule (both falsy, as in the source).
   */
  datatype Rules = Rules(
    required: bool, requiredMessage: string,
    email: bool, emailMessage: string,
    phone: bool, phoneMessage: string,
    minLength: int, minLengthMessage: string,
    maxLength: int, maxLengthMessage: string)

  /** `custom || fallback` on a message. */
  function Message(custom: string, fallback: string): string {
    if custom != "" then custom else fallback
  }

  /** `getFieldError(value, rules)`; `None` is null. */
  function GetFieldError(value: FormValue, rules: Option<Rules>): (r: Option<string>)
    ensures r.Some? ==> r.value != ""
  {
    if rules.None? then None
    else
      var ru := rules.value;
      if ru.required && !ValidateRequired(value) then
        Some(Message(ru.requiredMessage, "This field is required"))
      else if Present(value) && ru.email && !ValidateEmail(value.value) then
        Some(Message(ru.emailMessage, "Please enter a valid email address"))
      else if Present(value) && ru.phone && !ValidatePhone(value.value) then
        Some(Message(ru.phoneMessage, "Please enter a valid phone number"))
      else if Present(value) && ru.minLength != 0 && !ValidateMinLength(value, ru.minLength) then
        Some(Message(ru.minLengthMessage, "Minimum length is " + IntToString(ru.minLength) + " characters"))
      else if Present(value) && ru.maxLength != 0 && !ValidateMaxLength(value, ru.maxLength) then
        Some(Message(ru.maxLengthMessage, "Maximum length is " + IntToString(ru.maxLength) + " characters"))
      else None
  }

  /** One rule as a check: whether it fails, its custom message and its default one. */
  datatype Check = Check(fails: bool, custom: string, fallback: string)

  /** The rules of `ru` in the order they are tried. */
  function Checks(value: FormValue, ru: Rules): (cs: seq<Check>)
    ensures |cs| == 5
  {
    var p := Present(value);
    [ Check(ru.required && !ValidateRequired(value), ru.requiredMessage, "This field is required"),
      Check(p && ru.email && !ValidateEmail(value.value), ru.emailMessage, "Please enter a valid email address"),
      Check(p && ru.phone && !ValidatePhone(value.value), ru.phoneMessage, "Please enter a valid phone number"),
      Check(p && ru.minLength != 0 && |value.value| < ru.minLength, ru.minLengthMessage,
            "Minimum length is " + IntToString(ru.minLength) + " characters"),
      Check(p && ru.maxLength != 0 && |value.value| > ru.maxLength, ru.maxLengthMessage,
            "Maximum length is " + IntToString(ru.maxLength) + " characters") ]
  }

  /** The message of the first failing check, if any. */
  function FirstFailure(cs: seq<Check>): Option<string> {
    if cs == [] then None
    else if cs[0].fails then Some(Message(cs[0].custom, cs[0].fallback))
    else FirstFailure(cs[1..])
  }

  lemma {:induction false} FirstFailureIff(cs: seq<Check>, m: string)
    ensures FirstFailure(cs) == Some(m) <==>
              exists i :: 0 <= i < |cs| && cs[i].fails && m == Message(cs[i].custom, cs[i].fallback) &&
                          forall j :: 0 <= j < i ==> !cs[j].fails
    ensures FirstFailure(cs) == None <==> forall i :: 0 <= i < |cs| ==> !cs[i].fails
  {
    if cs != [] {
      FirstFailureIff(cs[1..], m);
      if !cs[0].fails {
        if exists i :: 0 <= i < |cs[1..]| && cs[1..][i].fails && m == Message(cs[1..][i].custom, cs[1..][i].fallback) &&
                       forall j :: 0 <= j < i ==> !cs[1..][j].fails {
          var i :| 0 <= i < |cs[1..]| && cs[1..][i].fails && m == Message(cs[1..][i].custom, cs[1..][i].fallback) &&
                   forall j :: 0 <= j < i ==> !cs[1..][j].fails;
          assert forall j :: 0 <= j < i + 1 ==> !cs[j].fails by {
            forall j | 0 <= j < i + 1 ensures !cs[j].fails {
              if j > 0 { assert cs[j] == cs[1..][j - 1]; }
            }
          }
        }
        if exists i :: 0 <= i < |cs| && cs[i].fails && m == Message(cs[i].custom, cs[i].fallback) &&
                       forall j :: 0 <= j < i ==> !cs[j].fails {
          var i :| 0 <= i < |cs| && cs[i].fails && m == Message(cs[i].custom, cs[i].fallback) &&
                   forall j :: 0 <= j < i ==> !cs[j].fails;
          assert i > 0 && cs[1..][i - 1] == cs[i];
        }
        if forall i :: 0 <= i < |cs[1..]| ==> !cs[1..][i].fails {
          forall i | 0 <= i < |cs| ensures !cs[i].fails {
            if i > 0 { assert cs[i] == cs[1..][i - 1]; }
          }
        }
      }
    }
  }

  /**
   * `getFieldError` tries the rules in order (required first, the others only
   * for a present value) and reports the first that fails, its custom message
   * overriding the default.
   */
  lemma FieldErrorIsFirstFailure(value: FormValue, ru: Rules)
    ensures GetFieldError(value, Some(ru)) == FirstFailure(Checks(value, ru))
  {
    var cs := Checks(value, ru);
    var c1 := cs[1..];
    var c2 := c1[1..];
    var c3 := c2[1..];
    var c4 := c3[1..];
    assert c4[1..] == [];
    assert FirstFailure(c4) == if cs[4].fails then Some(Message(cs[4].custom, cs[4].fallback)) else None;
    assert FirstFailure(c3) == if cs[3].fails then Some(Message(cs[3].custom, cs[3].fallback)) else FirstFailure(c4);
    assert FirstFailure(c2) == if cs[2].fails then Some(Message(cs[2].custom, cs[2].fallback)) else FirstFailure(c3);
    assert FirstFailure(c1) == if cs[1].fails then Some(Message(cs[1].custom, cs[1].fallback)) else FirstFailure(c2);
  }

  /** A field has no error exactly when every rule that applies to it passes. */
  lemma NoErrorIff(value: FormValue, ru: Rules)
    ensures GetFieldError(value, Some(ru)) == None <==>
              (ru.required ==> ValidateRequired(value)) &&
              (Present(value) ==>
                 (ru.email ==> ValidateEmail(value.value)) &&
                 (ru.phone ==> ValidatePhone(value.value)) &&
                 (ru.minLength != 0 ==> ValidateMinLength(value, ru.minLength)) &&
                 (ru.maxLength != 0 ==> ValidateMaxLength(value, ru.maxLength)))
  {
  }

  /** An empty optional value is never an error, whatever its other rules say. */
  lemma EmptyOptionalHasNoError(value: FormValue, ru: Rules)
    requires !ru.required && !Present(value)
    ensures GetFieldError(value, Some(ru)) == None
  {
  }

  /** The required rule wins over every other one. */
  lemma RequiredFirst(value: FormValue, ru: Rules)
    requires ru.required && !ValidateRequired(value)
    ensures GetFieldError(value, Some(ru)) == Some(Message(ru.requiredMessage, "This field is required"))
  {
  }

  // ---------------------------------------------------------------- validateForm

  /** `formData[field]`: a missing field reads as undefined. */
  function Lookup(formData: map<string, string>, field: string): FormValue {
    if field in formData then Some(formData[field]) else None
  }

  /** The error `getFieldError` gives one schema field. */
  function ErrorOf(formData: map<string, string>, schema: map<string, Option<Rules>>, field: string): Option<string>
    requires field in schema
  {
    GetFieldError(Lookup(formData, field), schema[field])
  }

  /** `validateForm(formData, schema)` */
  method ValidateForm(formData: map<string, string>, schema: map<string, Option<Rules>>)
    returns (isValid: bool, errors: map<string, string>)
    ensures errors.Keys == set f | f in schema && ErrorOf(formData, schema, f).Some?
    ensures forall f :: f in errors ==> Some(errors[f]) == ErrorOf(formData, schema, f)
    ensures isValid <==> forall f :: f in schema ==> ErrorOf(formData, schema, f).None?
  {
    errors := map[];
    isValid := true;
    var remaining := schema.Keys;
    ghost var done: set<string> := {};
    while remaining != {}
      invariant remaining + done == schema.Keys && remaining !! done
      invariant errors.Keys == set f | f in done && ErrorOf(formData, schema, f).Some?
      invariant forall f :: f in errors ==> Some(errors[f]) == ErrorOf(formData, schema, f)
      invariant isValid <==> forall f :: f in done ==> ErrorOf(formData, schema, f).None?
      decreases remaining
    {
      var field :| field in remaining;
      var error := GetFieldError(Lookup(formData, field), schema[field]);
      if error.Some? && error.value != "" {
        errors := errors[field := error.value];
        isValid := false;
      }
      done := done + {field};
      remaining := remaining - {field};
    }
  }
}
