/** The contact form of frontend/src/sections/Contact.jsx: field validation,
    error clearing on edit, and the submit gate. */
module Contact {
  import opened Common

  datatype Field = Name | Email | Company | Message

  const NameRequired := "Please enter your name."
  const EmailRequired := "Please enter your email."
  const EmailInvalid := "Please enter a valid email address."
  const MessageTooShort := "Message should be at least 10 characters."
  const MinMessageLength: nat := 10

  /** Neither white space nor '@' (the class `[^\s@]`). */
  predicate NoSpaceOrAt(s: string) {
    forall k :: 0 <= k < |s| ==> !IsJsSpace(s[k]) && s[k] != '@'
  }

  /** `[^\s@]+\.[^\s@]+`: a '.' with at least one character on each side. */
  predicate EmailDomain(d: string) {
    NoSpaceOrAt(d) && exists j | 1 <= j < |d| - 1 :: d[j] == '.'
  }

  /** `/^[^\s@]+@[^\s@]+\.[^\s@]+$/.test(e)`. */
  predicate LooksLikeEmail(e: string) {
    exists i | 1 <= i < |e| :: e[i] == '@' && NoSpaceOrAt(e[..i]) && EmailDomain(e[i + 1..])
  }

  /** In an accepted address, every '@' is the separator. */
  lemma OnlySeparatorIsAt(e: string, k: nat, i: nat)
    requires 1 <= k < |e| && e[k] == '@' && NoSpaceOrAt(e[..k]) && EmailDomain(e[k + 1..])
    requires i < |e| && e[i] == '@'
    ensures i == k
  {
  }

  /** An accepted address has exactly one '@'. */
  lemma EmailHasOneAt(e: string, i: nat, j: nat)
    requires LooksLikeEmail(e) && i < |e| && j < |e| && e[i] == '@' && e[j] == '@'
    ensures i == j
  {
    var k :| 1 <= k < |e| && e[k] == '@' && NoSpaceOrAt(e[..k]) && EmailDomain(e[k + 1..]);
    OnlySeparatorIsAt(e, k, i);
    OnlySeparatorIsAt(e, k, j);
  }

  lemma EmailExamples()
    ensures LooksLikeEmail("a@b.c")
    ensures !LooksLikeEmail("a@b")
    ensures !LooksLikeEmail("@b.c")
    ensures !LooksLikeEmail("a b@c.d")
  {
    assert "a@b.c"[..1] == "a" && "a@b.c"[2..] == "b.c";
    assert EmailDomain("b.c") by { assert "b.c"[1] == '.'; }
    var spaced := "a b@c.d";
    forall i | 1 <= i < |spaced| && spaced[i] == '@' ensures !NoSpaceOrAt(spaced[..i]) {
      assert spaced[..i][1] == ' ';
    }
  }

  function NameError(name: string): (r: Option<string>)
    ensures r.Some? <==> Trim(name) == ""
    ensures r.Some? ==> r.value == NameRequired
  {
    if Trim(name) == "" then Some(NameRequired) else None
  }

  /** A blank address is missing; otherwise it must have the address shape. */
  function EmailError(email: string): (r: Option<string>)
    ensures Trim(email) == "" ==> r == Some(EmailRequired)
    ensures Trim(email) != "" ==> (r.Some? <==> !LooksLikeEmail(email))
    ensures Trim(email) != "" && r.Some? ==> r.value == EmailInvalid
  {
    if Trim(email) == "" then Some(EmailRequired)
    else if !LooksLikeEmail(email) then Some(EmailInvalid)
    else None
  }

  /** The trimmed message needs at least 10 UTF-16 code units. */
  function MessageError(message: string): (r: Option<string>)
    ensures r.Some? <==> Utf16Length(Trim(message)) < MinMessageLength
    ensures r.Some? ==> r.value == MessageTooShort
  {
    if Trim(message) == "" || Utf16Length(Trim(message)) < MinMessageLength then Some(MessageTooShort) else None
  }

  function Put(errors: map<Field, string>, f: Field, e: Option<string>): (r: map<Field, string>)
    ensures f in r <==> e.Some? || f in errors
    ensures e.Some? ==> r[f] == e.value
    ensures forall g :: g != f ==> (g in r <==> g in errors) && (g in r ==> r[g] == errors[g])
  {
    if e.Some? then errors[f := e.value] else errors
  }

  /** The `next` object filled field by field from the three checks. */
  function Collect(nameErr: Option<string>, emailErr: Option<string>, messageErr: Option<string>): (errors: map<Field, string>)
    ensures errors.Keys <= {Name, Email, Message}
    ensures Name in errors <==> nameErr.Some?
    ensures Email in errors <==> emailErr.Some?
    ensures Message in errors <==> messageErr.Some?
    ensures Name in errors ==> errors[Name] == nameErr.value
    ensures Email in errors ==> errors[Email] == emailErr.value
    ensures Message in errors ==> errors[Message] == messageErr.value
  {
    Put(Put(Put(map[], Name, nameErr), Email, emailErr), Message, messageErr)
  }

  /** `validate()`: the error message of each failing field; the company
      field is never checked. */
  function Validate(name: string, email: string, message: string): (errors: map<Field, string>)
    ensures errors.Keys <= {Name, Email, Message}
    ensures Name in errors <==> NameError(name).Some?
    ensures Email in errors <==> EmailError(email).Some?
    ensures Message in errors <==> MessageError(message).Some?
    ensures Name in errors ==> errors[Name] == NameRequired
    ensures Email in errors ==> Some(errors[Email]) == EmailError(email)
    ensures Message in errors ==> errors[Message] == MessageTooShort
  {
    Collect(NameError(name), EmailError(email), MessageError(message))
  }

  /** A message of only white space is too short, whatever its length. */
  lemma BlankMessageRejected(name: string, email: string, message: string)
    requires AllSpace(message)
    ensures Message in Validate(name, email, message)
  {
    assert Trim(message) == [];
  }

  datatype SubmitStatus = SubmitStatus(loading: bool, ok: bool, error: string)

  class ContactForm {
    var name: string
    var email: string
    var company: string
    var message: string
    var errors: map<Field, string>
    var status: SubmitStatus

    constructor ()
      ensures name == "" && email == "" && company == "" && message == ""
      ensures errors == map[] && status == SubmitStatus(false, false, "")
    {
      name, email, company, message := "", "", "", "";
      errors := map[];
      status := SubmitStatus(false, false, "");
    }

    function Value(f: Field): string
      reads this
    {
      match f
      case Name => name
      case Email => email
      case Company => company
      case Message => message
    }

    /** `onChange`: stores the value; an error shown for that field is blanked. */
    method OnChange(f: Field, value: string)
      modifies this`name, this`email, this`company, this`message, this`errors
      ensures Value(f) == value
      ensures forall g :: g != f ==> Value(g) == old(Value(g))
      ensures f in old(errors) && old(errors)[f] != "" ==> errors == old(errors)[f := ""]
      ensures !(f in old(errors) && old(errors)[f] != "") ==> errors == old(errors)
    {
      match f {
        case Name => name := value;
        case Email => email := value;
        case Company => company := value;
        case Message => message := value;
      }
      if f in errors && errors[f] != "" {
        errors := errors[f := ""];
      }
    }

    /** `onSubmit`: validation errors replace the shown ones; with none, the
        (placeholder) send completes and every field is cleared. */
    method OnSubmit()
      modifies this
      ensures errors == Validate(old(name), old(email), old(message))
      ensures errors != map[] ==>
                status == old(status) && name == old(name) && email == old(email) &&
                company == old(company) && message == old(message)
      ensures errors == map[] ==>
                status == SubmitStatus(false, true, "") && name == "" && email == "" && company == "" && message == ""
    {
      var v := Validate(name, email, message);
      errors := v;
      if v != map[] {
        return;
      }
      status := SubmitStatus(true, false, "");
      // the request itself is a timer that cannot fail
      status := SubmitStatus(false, true, "");
      name, email, company, message := "", "", "", "";
    }
  }
}
