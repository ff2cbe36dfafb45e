/** The sign-up form: field-by-field validation and the submit guard. */
module SignupModal {
  import opened Wrappers
  import opened Text

  /** The form's fields as typed. */
  datatype Form = Form(
    email: string, password: string, confirmPassword: string, fullName: string,
    companyName: string, phoneNumber: string, website: string)

  // ---------------------------------------------------------------------
  // Email: /^[^\s@]+@[^\s@]+\.[^\s@]+$/
  // ---------------------------------------------------------------------

  /** `[^\s@]+` without the length bound: no white space and no `@`. */
  predicate NoSpaceNoAt(t: string) {
    forall k :: 0 <= k < |t| ==> !IsSpace(t[k]) && t[k] != '@'
  }

  /** The email pattern: the text splits at an `@` (index `i`) and a later
      `.` (index `j`) into three non-empty parts free of white space and `@`. */
  predicate EmailPattern(s: string) {
    exists i, j :: 0 < i && i + 1 < j && j + 1 < |s| && s[i] == '@' && s[j] == '.'
      && NoSpaceNoAt(s[..i]) && NoSpaceNoAt(s[i + 1..j]) && NoSpaceNoAt(s[j + 1..])
  }

  /** Index of the first `@`. */
  function FirstAt(s: string): (r: Option<nat>)
    ensures r.None? <==> '@' !in s
    ensures r.Some? ==> r.value < |s| && s[r.value] == '@' && forall k :: 0 <= k < r.value ==> s[k] != '@'
  {
    if s == [] then None
    else if s[0] == '@' then Some(0)
    else match FirstAt(s[1..])
      case None => None
      case Some(i) => Some(i + 1)
  }

  /** The same condition in plain words: no white space, exactly one `@`
      with something before it, and a `.` strictly inside the part after it. */
  predicate EmailShape(s: string) {
    && NoSpace(s)
    && FirstAt(s).Some?
    && var i := FirstAt(s).value;
      && 0 < i
      && (forall k :: i < k < |s| ==> s[k] != '@')
      && (exists j :: i + 1 < j < |s| - 1 && s[j] == '.')
  }

  /** Whatever the pattern accepts has that shape. */
  lemma EmailPatternHasShape(s: string)
    requires EmailPattern(s)
    ensures EmailShape(s)
  {
    var i, j :| 0 < i && i + 1 < j && j + 1 < |s| && s[i] == '@' && s[j] == '.'
      && NoSpaceNoAt(s[..i]) && NoSpaceNoAt(s[i + 1..j]) && NoSpaceNoAt(s[j + 1..]);
    forall k | 0 <= k < |s|
      ensures !IsSpace(s[k]) && (s[k] == '@' ==> k == i)
    {
      if k < i {
        assert s[..i][k] == s[k];
      } else if i < k < j {
        assert s[i + 1..j][k - i - 1] == s[k];
      } else if j < k {
        assert s[j + 1..][k - j - 1] == s[k];
      }
    }
    assert FirstAt(s) == Some(i);
  }

  /** Every address of that shape is accepted by the pattern. */
  lemma EmailShapeMatches(s: string)
    requires EmailShape(s)
    ensures EmailPattern(s)
  {
    var i := FirstAt(s).value;
    var j :| i + 1 < j < |s| - 1 && s[j] == '.';
    assert NoSpaceNoAt(s[..i]);
    assert NoSpaceNoAt(s[i + 1..j]);
    assert NoSpaceNoAt(s[j + 1..]);
  }

  /** The pattern accepts exactly the addresses of that shape. */
  lemma EmailPatternIff(s: string)
    ensures EmailPattern(s) <==> EmailShape(s)
  {
    if EmailPattern(s) {
      EmailPatternHasShape(s);
    }
    if EmailShape(s) {
      EmailShapeMatches(s);
    }
  }

  // ---------------------------------------------------------------------
  // Phone: /^\+?[\d\s-]{10,}$/ and website: /^https?:\/\/.*/
  // ---------------------------------------------------------------------

  /** `[\d\s-]`: an ASCII digit, white space or a hyphen. */
  predicate PhoneChar(c: char) {
    '0' <= c <= '9' || IsSpace(c) || c == '-'
  }

  /** `[\d\s-]{10,}` */
  predicate PhoneBody(t: string) {
    |t| >= 10 && forall k :: 0 <= k < |t| ==> PhoneChar(t[k])
  }

  /** The phone pattern: an optional `+` followed by the body. */
  predicate PhonePattern(s: string) {
    PhoneBody(s) || (|s| > 0 && s[0] == '+' && PhoneBody(s[1..]))
  }

  /** Since `+` is not a body character, a number is accepted exactly when
      what follows a leading `+`, if any, is ten or more digits, spaces or hyphens. */
  lemma PhonePatternIff(s: string)
    ensures PhonePattern(s) <==> PhoneBody(if |s| > 0 && s[0] == '+' then s[1..] else s)
  {
    if |s| > 0 && s[0] == '+' {
      assert !PhoneChar(s[0]);
    }
  }

  /** The website pattern: `.*` matches anything, so only the prefix counts. */
  predicate WebsitePattern(s: string) {
    StartsWith(s, "http://") || StartsWith(s, "https://")
  }

  // ---------------------------------------------------------------------
  // validateForm and handleSubmit
  // ---------------------------------------------------------------------

  /** The keys of the error dictionary. */
  datatype Field = Email | Password | ConfirmPassword | FullName | PhoneNumber | Website | Submit

  /** The message `validateForm` records for one field, if any: each field's
      own if-chain. */
  function FieldError(form: Form, f: Field): Option<string> {
    match f
    case Email =>
      if form.email == "" then Some("Email is required")
      else if !EmailPattern(form.email) then Some("Invalid email format")
      else None
    case Password =>
      if form.password == "" then Some("Password is required")
      else if |form.password| < 8 then Some("Password must be at least 8 characters")
      else None
    case ConfirmPassword =>
      if form.password != form.confirmPassword then Some("Passwords do not match") else None
    case FullName =>
      if form.fullName == "" then Some("Full name is required") else None
    case PhoneNumber =>
      if form.phoneNumber != "" && !PhonePattern(form.phoneNumber)
      then Some("Invalid phone number format") else None
    case Website =>
      if form.website != "" && !WebsitePattern(form.website)
      then Some("Website must start with http:// or https://") else None
    case Submit => None
  }

  /** The fields `validateForm` checks, in the order it checks them. */
  const CheckOrder: seq<Field> := [Email, Password, ConfirmPassword, FullName, PhoneNumber, Website]

  /** Checking one field: a failing field adds its message. */
  function Check(form: Form, f: Field, before: map<Field, string>): map<Field, string> {
    var e := FieldError(form, f);
    if e.Some? then before[f := e.value] else before
  }

  /** The dictionary after checking `fields` in order. */
  function Recorded(form: Form, fields: seq<Field>): map<Field, string>
    decreases |fields|
  {
    if fields == [] then map[]
    else Check(form, fields[|fields| - 1], Recorded(form, fields[..|fields| - 1]))
  }

  /** Checking the first `k` fields of the order is checking the first
      `k - 1` and then field `k`. */
  lemma RecordedPrefix(form: Form, k: nat)
    requires 0 < k <= |CheckOrder|
    ensures Recorded(form, CheckOrder[..k]) == Check(form, CheckOrder[k - 1], Recorded(form, CheckOrder[..k - 1]))
  {
    assert CheckOrder[..k][..k - 1] == CheckOrder[..k - 1];
  }

  /** A field has an entry exactly when it was checked and failed, and the
      entry is that field's message. */
  lemma {:induction false} RecordedEntries(form: Form, fields: seq<Field>, f: Field)
    ensures f in Recorded(form, fields) <==> f in fields && FieldError(form, f).Some?
    ensures f in Recorded(form, fields) ==> Recorded(form, fields)[f] == FieldError(form, f).value
    decreases |fields|
  {
    if fields != [] {
      var init := fields[..|fields| - 1];
      RecordedEntries(form, init, f);
      assert fields == init + [fields[|fields| - 1]];
    }
  }

  /** The dictionary `validateForm` builds: one entry per failing field,
      holding that field's message. */
  function FormErrors(form: Form): (errors: map<Field, string>)
    ensures forall f :: f in errors <==> FieldError(form, f).Some?
    ensures forall f :: f in errors ==> errors[f] == FieldError(form, f).value
  {
    var errors := Recorded(form, CheckOrder);
    forall f ensures f in errors <==> FieldError(form, f).Some? {
      RecordedEntries(form, CheckOrder, f);
    }
    forall f | f in errors ensures errors[f] == FieldError(form, f).value {
      RecordedEntries(form, CheckOrder, f);
    }
    errors
  }

  /** What the form must satisfy to be sent: a well-formed email, a password
      of at least eight characters typed twice, a name, and a phone number and
      website that are either left empty or well-formed. */
  predicate Acceptable(form: Form) {
    && form.email != "" && EmailShape(form.email)
    && |form.password| >= 8
    && form.password == form.confirmPassword
    && form.fullName != ""
    && (form.phoneNumber == "" || PhonePattern(form.phoneNumber))
    && (form.website == "" || WebsitePattern(form.website))
  }

  /** The email entry: required, then the pattern. */
  lemma EmailErrors(form: Form)
    ensures var errors := FormErrors(form);
      && (Email in errors <==> form.email == "" || !EmailShape(form.email))
      && (form.email == "" ==> errors[Email] == "Email is required")
      && (form.email != "" && !EmailShape(form.email) ==> errors[Email] == "Invalid email format")
  {
    EmailPatternIff(form.email);
    assert FieldError(form, Email).Some? <==> form.email == "" || !EmailShape(form.email);
  }

  /** The password entries: required, at least eight characters, confirmed. */
  lemma PasswordErrors(form: Form)
    ensures var errors := FormErrors(form);
      && (Password in errors <==> |form.password| < 8)
      && (form.password == "" ==> errors[Password] == "Password is required")
      && (0 < |form.password| < 8 ==> errors[Password] == "Password must be at least 8 characters")
      && (ConfirmPassword in errors <==> form.password != form.confirmPassword)
  {
    assert FieldError(form, Password).Some? <==> |form.password| < 8;
    assert FieldError(form, ConfirmPassword).Some? <==> form.password != form.confirmPassword;
  }

  /** The optional fields are checked only when filled in; a submit error is
      never produced by validation. */
  lemma OptionalFieldErrors(form: Form)
    ensures var errors := FormErrors(form);
      && (FullName in errors <==> form.fullName == "")
      && (PhoneNumber in errors <==> form.phoneNumber != "" && !PhonePattern(form.phoneNumber))
      && (Website in errors <==> form.website != "" && !WebsitePattern(form.website))
      && Submit !in errors
  {
    assert FieldError(form, FullName).Some? <==> form.fullName == "";
    assert FieldError(form, PhoneNumber).Some? <==> form.phoneNumber != "" && !PhonePattern(form.phoneNumber);
    assert FieldError(form, Website).Some? <==> form.website != "" && !WebsitePattern(form.website);
    assert FieldError(form, Submit).None?;
  }

  /** `validateForm` returns true exactly for acceptable forms. */
  lemma {:induction false} ValidIffAcceptable(form: Form)
    ensures FormErrors(form) == map[] <==> Acceptable(form)
  {
    EmailErrors(form);
    PasswordErrors(form);
    OptionalFieldErrors(form);
    var errors := FormErrors(form);
    if errors == map[] {
      assert Email !in errors && Password !in errors && ConfirmPassword !in errors;
      assert FullName !in errors && PhoneNumber !in errors && Website !in errors;
    } else {
      var f :| f in errors;
      assert f != Submit;
    }
  }

  /** One of `validateForm`'s if-chains: record the field's message when
      its check fails. */
  method RecordField(form: Form, f: Field, errors: map<Field, string>) returns (newErrors: map<Field, string>)
    ensures newErrors == Check(form, f, errors)
  {
    newErrors := errors;
    match f {
      case Email =>
        if form.email == "" {
          newErrors := newErrors[Email := "Email is required"];
        } else if !EmailPattern(form.email) {
          newErrors := newErrors[Email := "Invalid email format"];
        }
      case Password =>
        if form.password == "" {
          newErrors := newErrors[Password := "Password is required"];
        } else if |form.password| < 8 {
          newErrors := newErrors[Password := "Password must be at least 8 characters"];
        }
      case ConfirmPassword =>
        if form.password != form.confirmPassword {
          newErrors := newErrors[ConfirmPassword := "Passwords do not match"];
        }
      case FullName =>
        if form.fullName == "" {
          newErrors := newErrors[FullName := "Full name is required"];
        }
      case PhoneNumber =>
        if form.phoneNumber != "" && !PhonePattern(form.phoneNumber) {
          newErrors := newErrors[PhoneNumber := "Invalid phone number format"];
        }
      case Website =>
        if form.website != "" && !WebsitePattern(form.website) {
          newErrors := newErrors[Website := "Website must start with http:// or https://"];
        }
      case Submit =>
    }
  }

  /** Checking the whole order is checking each field in turn. */
  lemma RecordedInTurn(form: Form)
    ensures Recorded(form, CheckOrder)
      == Check(form, Website, Check(form, PhoneNumber, Check(form, FullName,
           Check(form, ConfirmPassword, Check(form, Password, Check(form, Email, map[]))))))
  {
    var e0: map<Field, string> := map[];
    var e1 := Check(form, Email, e0);
    var e2 := Check(form, Password, e1);
    var e3 := Check(form, ConfirmPassword, e2);
    var e4 := Check(form, FullName, e3);
    var e5 := Check(form, PhoneNumber, e4);
    var e6 := Check(form, Website, e5);
    assert CheckOrder[..0] == [];
    assert Recorded(form, CheckOrder[..1]) == e1 by { RecordedPrefix(form, 1); }
    assert Recorded(form, CheckOrder[..2]) == e2 by { RecordedPrefix(form, 2); }
    assert Recorded(form, CheckOrder[..3]) == e3 by { RecordedPrefix(form, 3); }
    assert Recorded(form, CheckOrder[..4]) == e4 by { RecordedPrefix(form, 4); }
    assert Recorded(form, CheckOrder[..5]) == e5 by { RecordedPrefix(form, 5); }
    assert Recorded(form, CheckOrder[..6]) == e6 by { RecordedPrefix(form, 6); }
    assert CheckOrder[..6] == CheckOrder;
  }

  /** `validateForm`: run the checks in order on an empty dictionary; the
      form is valid when nothing was recorded, which is exactly when it is
      acceptable. */
  method ValidateForm(form: Form) returns (newErrors: map<Field, string>, valid: bool)
    ensures newErrors == FormErrors(form)
    ensures valid <==> newErrors == map[]
    ensures valid <==> Acceptable(form)
  {
    newErrors := map[];
    newErrors := RecordField(form, Email, newErrors);
    newErrors := RecordField(form, Password, newErrors);
    newErrors := RecordField(form, ConfirmPassword, newErrors);
    newErrors := RecordField(form, FullName, newErrors);
    newErrors := RecordField(form, PhoneNumber, newErrors);
    newErrors := RecordField(form, Website, newErrors);
    RecordedInTurn(form);
    assert newErrors == FormErrors(form);
    valid := |newErrors.Keys| == 0;
    assert valid <==> newErrors == map[] by {
      if newErrors != map[] {
        var f :| f in newErrors;
        assert f in newErrors.Keys;
      }
    }
    ValidIffAcceptable(form);
  }

  /** An address the email check accepts: one `@`, then a `.` with text on both sides. */
  lemma EmailExample()
    ensures EmailPattern("ann@shop.co")
  {
    var s := "ann@shop.co";
    assert s[..3] == "ann" && s[4..8] == "shop" && s[9..] == "co";
    assert 0 < 3 && 3 + 1 < 8 && 8 + 1 < |s| && s[3] == '@' && s[8] == '.'
      && NoSpaceNoAt(s[..3]) && NoSpaceNoAt(s[3 + 1..8]) && NoSpaceNoAt(s[8 + 1..]);
  }

  /** A second `@` makes the address invalid. */
  lemma EmailCounterExample()
    ensures !EmailShape("a@b@c.d")
  {
    assert FirstAt("a@b@c.d") == Some(1);
    assert "a@b@c.d"[3] == '@';
  }

  /** A leading `+` is allowed once, before at least ten digits, spaces or hyphens. */
  lemma PhoneExamples()
    ensures PhonePattern("+1 555-0100-22")
    ensures !PhonePattern("555-0100")
  {
    assert "+1 555-0100-22"[1..] == "1 555-0100-22";
  }

  /** The form component: the errors it shows and the sign-up calls it makes. */
  class SignupForm {
    var errors: map<Field, string>
    var closed: bool
    /** The forms passed to `signup`, in order. */
    var signups: seq<Form>

    constructor()
      ensures errors == map[] && !closed && signups == []
    {
      errors := map[];
      closed := false;
      signups := [];
    }

    /** `handleSubmit`: sign up only an acceptable form; a sign-up error is
        shown as the only error, and success closes the modal. */
    method HandleSubmit(form: Form, signupError: Option<string>)
      modifies this`errors, this`closed, this`signups
      ensures Acceptable(form) ==> signups == old(signups) + [form]
      ensures !Acceptable(form) ==>
        signups == old(signups) && errors == FormErrors(form) && errors != map[] && closed == old(closed)
      ensures Acceptable(form) && signupError.Some? ==>
        errors == map[Submit := signupError.value] && closed == old(closed)
      ensures Acceptable(form) && signupError.None? ==> errors == map[] && closed
    {
      var newErrors, valid := ValidateForm(form);
      errors := newErrors;
      if valid {
        signups := signups + [form];
        if signupError.Some? {
          errors := map[Submit := signupError.value];
        } else {
          closed := true;
        }
      }
    }
  }
}
