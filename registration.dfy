/** The registration page's client-side validation: the four form fields,
    the name length bounds, the phone pattern and what a click on the
    submit button does. */
module Registration {
  import opened Results

  /** The values of the four form inputs. */
  datatype Form = Form(firstName: string, lastName: string, phoneNumber: string, email: string)

  const MAX_NAME_LENGTH: nat := 32

  /** A JavaScript string's `length`: the number of UTF-16 code units, in
      which a character beyond the Basic Multilingual Plane takes two. */
  function Utf16Length(s: string): nat {
    if s == [] then 0
    else Utf16Length(s[..|s| - 1]) + (if s[|s| - 1] as int > 0xFFFF then 2 else 1)
  }

  predicate InBasicPlane(s: string) {
    forall i :: 0 <= i < |s| ==> s[i] as int <= 0xFFFF
  }

  /** Every character takes one or two code units, and exactly one when all
      of them are in the Basic Multilingual Plane. */
  lemma {:induction false} Utf16LengthBounds(s: string)
    ensures |s| <= Utf16Length(s) <= 2 * |s|
    ensures Utf16Length(s) == 0 <==> s == []
    ensures InBasicPlane(s) ==> Utf16Length(s) == |s|
  {
    if s != [] {
      var init := s[..|s| - 1];
      Utf16LengthBounds(init);
      if InBasicPlane(s) {
        assert InBasicPlane(init) by {
          forall i | 0 <= i < |init| ensures init[i] as int <= 0xFFFF {
            assert init[i] == s[i];
          }
        }
      }
    }
  }

  /** The bound both name checks apply: non-empty and at most 32 units. */
  predicate IsValidName(value: string) {
    Utf16Length(value) > 0 && Utf16Length(value) <= MAX_NAME_LENGTH
  }

  /** `isValidFirstName`. */
  predicate IsValidFirstName(f: Form) {
    IsValidName(f.firstName)
  }

  /** `isValidLastName`: the same bound, on the last-name field. */
  predicate IsValidLastName(f: Form) {
    IsValidName(f.lastName)
  }

  /** For names in the Basic Multilingual Plane the bound is 1 to 32
      characters; in general it is 1 to 32 code units, so a name of more
      than 32 characters is always refused and one of 16 or fewer
      non-empty names is always accepted. */
  lemma NameBounds(value: string)
    ensures InBasicPlane(value) ==> (IsValidName(value) <==> 0 < |value| <= 32)
    ensures |value| > 32 ==> !IsValidName(value)
    ensures 0 < |value| <= 16 ==> IsValidName(value)
    ensures value == [] ==> !IsValidName(value)
  {
    Utf16LengthBounds(value);
  }

  /** Each name check looks at its own field only. */
  lemma NameChecksReadTheirField(f: Form, other: string)
    ensures IsValidFirstName(f) == IsValidName(f.firstName)
    ensures IsValidLastName(f) == IsValidName(f.lastName)
    ensures IsValidFirstName(f.(lastName := other)) == IsValidFirstName(f)
    ensures IsValidLastName(f.(firstName := other)) == IsValidLastName(f)
  {
  }

  /** A name of exactly 32 letters is accepted; one of 33, and the empty
      name, are refused. */
  lemma NameBoundaries()
    ensures IsValidName(seq(32, i => 'a'))
    ensures !IsValidName(seq(33, i => 'a'))
    ensures !IsValidName("")
  {
    NameBounds(seq(32, i => 'a'));
    NameBounds(seq(33, i => 'a'));
  }

  // ---------------------------------------------------------------------
  // The phone pattern ^([0-9]{3})([0-9]{3})([0-9]{4})$

  predicate IsDigit(c: char) {
    '0' <= c <= '9'
  }

  predicate AllDigits(s: string) {
    forall i :: 0 <= i < |s| ==> IsDigit(s[i])
  }

  /** The pattern's three groups, as the number of digits each one takes. */
  const PHONE_GROUPS: seq<nat> := [3, 3, 4]

  /** An anchored match of a sequence of fixed-width digit groups: each
      group takes exactly its width of digits and nothing is left over. */
  predicate MatchesGroups(groups: seq<nat>, s: string)
    decreases |groups|
  {
    if groups == [] then s == []
    else groups[0] <= |s| && AllDigits(s[..groups[0]]) && MatchesGroups(groups[1..], s[groups[0]..])
  }

  function Sum(ns: seq<nat>): nat {
    if ns == [] then 0 else ns[0] + Sum(ns[1..])
  }

  /** `isValidPhone`. */
  predicate IsValidPhone(phoneNumber: string) {
    MatchesGroups(PHONE_GROUPS, phoneNumber)
  }

  /** A run of fixed-width digit groups matches exactly the strings of
      digits as long as the widths together. */
  lemma {:induction false} MatchesGroupsIff(groups: seq<nat>, s: string)
    ensures MatchesGroups(groups, s) <==> |s| == Sum(groups) && AllDigits(s)
  {
    if groups != [] {
      var w := groups[0];
      if w <= |s| {
        MatchesGroupsIff(groups[1..], s[w..]);
        if AllDigits(s) {
          assert AllDigits(s[..w]) && AllDigits(s[w..]) by {
            forall i | 0 <= i < w ensures IsDigit(s[..w][i]) { assert s[..w][i] == s[i]; }
            forall i | 0 <= i < |s| - w ensures IsDigit(s[w..][i]) { assert s[w..][i] == s[w + i]; }
          }
        }
        if AllDigits(s[..w]) && AllDigits(s[w..]) {
          forall i | 0 <= i < |s| ensures IsDigit(s[i]) {
            if i < w { assert s[i] == s[..w][i]; } else { assert s[i] == s[w..][i - w]; }
          }
        }
      }
    }
  }

  /** A phone number is valid exactly when it is ten ASCII digits. */
  lemma PhoneIsTenDigits(phoneNumber: string)
    ensures IsValidPhone(phoneNumber) <==> |phoneNumber| == 10 && AllDigits(phoneNumber)
  {
    MatchesGroupsIff(PHONE_GROUPS, phoneNumber);
    assert Sum(PHONE_GROUPS) == 10;
  }

  /** A country code, spaces or dashes make a number invalid. */
  lemma PhoneExamples()
    ensures IsValidPhone("5551234567")
    ensures !IsValidPhone("+5551234567")
    ensures !IsValidPhone("555 123 4567")
    ensures !IsValidPhone("555-123-4567")
    ensures !IsValidPhone("555123456")
  {
    PhoneIsTenDigits("5551234567");
    PhoneIsTenDigits("+5551234567");
    PhoneIsTenDigits("555 123 4567");
    PhoneIsTenDigits("555-123-4567");
    PhoneIsTenDigits("555123456");
    assert !IsDigit("+5551234567"[0]);
  }

  // ---------------------------------------------------------------------
  // The whole form and the submit button

  /** `isValidInputs`: all four checks pass. The e-mail check is given as a
      predicate on the e-mail field. */
  predicate IsValidInputs(f: Form, isValidEmail: string -> bool) {
    IsValidFirstName(f) && IsValidLastName(f) && IsValidPhone(f.phoneNumber) && isValidEmail(f.email)
  }

  /** The form is valid exactly when each check passes, and in particular
      when both names fit, the phone number is ten digits and the e-mail
      check accepts. */
  lemma ValidInputsIff(f: Form, isValidEmail: string -> bool)
    ensures IsValidInputs(f, isValidEmail) <==>
      && 0 < Utf16Length(f.firstName) <= 32
      && 0 < Utf16Length(f.lastName) <= 32
      && |f.phoneNumber| == 10 && AllDigits(f.phoneNumber)
      && isValidEmail(f.email)
  {
    PhoneIsTenDigits(f.phoneNumber);
  }

  /** What a click on the submit button does. */
  datatype Click = Submitted(path: string, json: seq<(string, string)>) | Alerted(text: string)

  /** `getFormJSON`: the four fields as JSON members, in the page's order. */
  function FormJson(f: Form): seq<(string, string)> {
    [("firstName", f.firstName), ("lastName", f.lastName), ("phoneNumber", f.phoneNumber), ("email", f.email)]
  }

  /** The click handler: a valid form is posted to `/register`, an invalid
      one raises the "Invalid Input" alert. A form is posted exactly when
      both names are 1 to 32 code units, the phone number is ten digits and
      the e-mail check accepts, and the posted JSON reads back as the form. */
  function OnSubmitClick(f: Form, isValidEmail: string -> bool): (c: Click)
    ensures c.Submitted? <==>
      && 0 < Utf16Length(f.firstName) <= 32
      && 0 < Utf16Length(f.lastName) <= 32
      && |f.phoneNumber| == 10 && AllDigits(f.phoneNumber)
      && isValidEmail(f.email)
    ensures c.Submitted? ==> c.path == "/register" && FormFromJson(c.json) == Some(f)
    ensures c.Alerted? ==> c.text == "Invalid Input"
  {
    ValidInputsIff(f, isValidEmail);
    FormJsonRoundTrip(f, FormJson(f));
    if IsValidInputs(f, isValidEmail) then Submitted("/register", FormJson(f)) else Alerted("Invalid Input")
  }

  /** Reading the posted JSON back as a form: the four members, under their
      names and in the page's order. */
  function FormFromJson(json: seq<(string, string)>): Option<Form> {
    if |json| == 4 && json[0].0 == "firstName" && json[1].0 == "lastName"
       && json[2].0 == "phoneNumber" && json[3].0 == "email"
    then Some(Form(json[0].1, json[1].1, json[2].1, json[3].1))
    else None
  }

  /** The posted JSON loses nothing, and only the form's own JSON reads back
      as that form. */
  lemma FormJsonRoundTrip(f: Form, json: seq<(string, string)>)
    ensures FormFromJson(FormJson(f)) == Some(f)
    ensures FormFromJson(json) == Some(f) ==> json == FormJson(f)
  {
    if FormFromJson(json) == Some(f) {
      assert json == [json[0], json[1], json[2], json[3]];
    }
  }
}
