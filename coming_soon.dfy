/** The register-interest page (src/pages/ComingSoon.tsx): `registerSchema`
    over a name and an e-mail address, the errors shown under the fields,
    and the submit sequence that sends the registration, records the
    outcome and swaps the form for a confirmation once it went through.
    `isEmail` stands for zod's e-mail check. */
module ComingSoon {
  import opened JsText
  import opened FormErrors

  // ------------------------------------------------------------ schema

  /** The keys of `registerSchema`, in the order of its shape. */
  datatype Field = Name | Email

  const ShapeOrder: seq<Field> := [Name, Email]

  datatype RegisterForm = RegisterForm(name: string, email: string)

  const EmptyForm := RegisterForm("", "")

  function Get(form: RegisterForm, f: Field): string {
    match f
    case Name => form.name
    case Email => form.email
  }

  /** `{ ...prev, [name]: value }`: that field takes the value, no other changes. */
  function With(form: RegisterForm, f: Field, value: string): (r: RegisterForm)
    ensures Get(r, f) == value
    ensures forall g :: g != f ==> Get(r, g) == Get(form, g)
  {
    match f
    case Name => form.(name := value)
    case Email => form.(email := value)
  }

  const NameMax := 100
  const EmailMax := 255
  const NameRequiredMessage := "Name is required"
  const InvalidEmailMessage := "Please enter a valid email address"

  /** zod's default message for a failed `max` on a string, given the bound as
      printed. */
  function TooLongMessage(bound: string): string {
    "String must contain at most " + bound + " character(s)"
  }

  const NameTooLongMessage := TooLongMessage("100")
  const EmailTooLongMessage := TooLongMessage("255")

  /** The bounds quoted in the messages are the decimal forms of the bounds
      checked. */
  lemma BoundsPrinted()
    ensures NatString(NameMax) == "100" && NatString(EmailMax) == "255"
  {
    assert NatString(10) == NatString(1) + [DigitChar(0)];
    assert NatString(100) == NatString(10) + [DigitChar(0)];
    assert NatString(25) == NatString(2) + [DigitChar(5)];
    assert NatString(255) == NatString(25) + [DigitChar(5)];
  }

  /** What the schema accepts: a trimmed name of 1 to 100 UTF-16 code units,
      and a trimmed e-mail address of at most 255. */
  predicate FieldValid(f: Field, value: string, isEmail: string -> bool) {
    match f
    case Name => Trim(value) != [] && Utf16Length(Trim(value)) <= NameMax
    case Email => isEmail(Trim(value)) && Utf16Length(Trim(value)) <= EmailMax
  }

  /** The messages of the issues zod raises for a field's value, one per
      failed check, in check order. An e-mail can fail both of its checks. */
  function FieldMessages(f: Field, value: string, isEmail: string -> bool): (ms: seq<string>)
    ensures ms == [] <==> FieldValid(f, value, isEmail)
  {
    var t := Trim(value);
    var n := Utf16Length(t);
    match f
    case Name => if n < 1 then [NameRequiredMessage] else if n > NameMax then [NameTooLongMessage] else []
    case Email =>
      (if isEmail(t) then [] else [InvalidEmailMessage]) + (if n > EmailMax then [EmailTooLongMessage] else [])
  }

  /** Each field's messages for the given form. */
  function FormMessages(form: RegisterForm, isEmail: string -> bool): Field -> seq<string> {
    f => FieldMessages(f, Get(form, f), isEmail)
  }

  /** `registerSchema.safeParse(form)`'s issues, name first. */
  function RegisterIssues(form: RegisterForm, isEmail: string -> bool): seq<Issue<Field>> {
    ShapeIssues(ShapeOrder, FormMessages(form, isEmail))
  }

  predicate RegisterValid(form: RegisterForm, isEmail: string -> bool) {
    FieldValid(Name, form.name, isEmail) && FieldValid(Email, form.email, isEmail)
  }

  /** The errors the page should show: for each field that failed a check,
      the message of the last check it failed. */
  function FieldErrors(form: RegisterForm, isEmail: string -> bool): map<Field, string> {
    KeyErrors(ShapeOrder, FormMessages(form, isEmail))
  }

  /** The last message of a non-empty list of messages. */
  function LastOf(ms: seq<string>): string
    requires ms != []
  {
    ms[|ms| - 1]
  }

  /** A field has an error exactly when it is invalid, and the error is the
      message of the last check it failed. */
  lemma FieldErrorsAt(form: RegisterForm, isEmail: string -> bool, f: Field)
    ensures f in FieldErrors(form, isEmail) <==> !FieldValid(f, Get(form, f), isEmail)
    ensures f in FieldErrors(form, isEmail) ==> FieldErrors(form, isEmail)[f] == LastOf(FieldMessages(f, Get(form, f), isEmail))
  {
    assert f in ShapeOrder by {
      match f
      case Name => assert f == ShapeOrder[0];
      case Email => assert f == ShapeOrder[1];
    }
    assert FormMessages(form, isEmail)(f) == FieldMessages(f, Get(form, f), isEmail);
  }

  /** The name's error says it is required when the trimmed name is empty,
      and too long otherwise. */
  lemma NameError(form: RegisterForm, isEmail: string -> bool)
    requires Name in FieldErrors(form, isEmail)
    ensures FieldErrors(form, isEmail)[Name] == if Trim(form.name) == [] then NameRequiredMessage else NameTooLongMessage
  {
    FieldErrorsAt(form, isEmail, Name);
    var t := Trim(form.name);
    assert Utf16Length(t) < 1 <==> t == [];
  }

  /** An e-mail that is both malformed and too long shows the length
      message, because that issue comes last. */
  lemma EmailError(form: RegisterForm, isEmail: string -> bool)
    requires Email in FieldErrors(form, isEmail)
    ensures FieldErrors(form, isEmail)[Email] ==
      if Utf16Length(Trim(form.email)) > EmailMax then EmailTooLongMessage else InvalidEmailMessage
  {
    FieldErrorsAt(form, isEmail, Email);
  }

  /** Every field the errors name is invalid. */
  lemma FieldErrorsAreInvalid(form: RegisterForm, isEmail: string -> bool)
    ensures forall f :: f in FieldErrors(form, isEmail) ==> !FieldValid(f, Get(form, f), isEmail)
  {
    forall f | f in FieldErrors(form, isEmail)
      ensures !FieldValid(f, Get(form, f), isEmail)
    {
      FieldErrorsAt(form, isEmail, f);
    }
  }

  /** The form passes `registerSchema` exactly when both fields are valid. */
  lemma RegisterValidIff(form: RegisterForm, isEmail: string -> bool)
    ensures RegisterIssues(form, isEmail) == [] <==> RegisterValid(form, isEmail)
  {
    var messages := FormMessages(form, isEmail);
    ShapeIssuesEmpty(ShapeOrder, messages);
    assert messages(ShapeOrder[0]) == FieldMessages(Name, form.name, isEmail);
    assert messages(ShapeOrder[1]) == FieldMessages(Email, form.email, isEmail);
  }

  /** Every error shown belongs to a field whose value is invalid. */
  predicate ErrorsCurrentFor(errors: map<Field, string>, form: RegisterForm, isEmail: string -> bool) {
    forall f :: f in errors ==> !FieldValid(f, Get(form, f), isEmail)
  }

  /** A valid form has no current errors: every error names an invalid
      field, and there is none. */
  lemma ValidLeavesNoErrors(form: RegisterForm, isEmail: string -> bool, errors: map<Field, string>)
    requires RegisterValid(form, isEmail) && ErrorsCurrentFor(errors, form, isEmail)
    ensures errors == map[]
  {
    forall f
      ensures FieldValid(f, Get(form, f), isEmail)
    {
      match f
      case Name =>
      case Email =>
    }
  }

  /** `handleSubmit`'s validation: `safeParse`, then, when it fails, the
      `forEach` that fills a fresh errors object, which replaces the errors
      shown; when it succeeds the errors shown stay, and there are none if
      they were all current. */
  method ValidateRegistration(form: RegisterForm, isEmail: string -> bool, shown: map<Field, string>)
    returns (valid: bool, errors: map<Field, string>)
    ensures valid <==> RegisterValid(form, isEmail)
    ensures !valid ==> errors == FieldErrors(form, isEmail)
    ensures valid ==> errors == shown
    ensures ErrorsCurrentFor(shown, form, isEmail) ==> ErrorsCurrentFor(errors, form, isEmail)
    ensures valid && ErrorsCurrentFor(shown, form, isEmail) ==> errors == map[]
  {
    var issues := RegisterIssues(form, isEmail);
    RegisterValidIff(form, isEmail);
    ShapeErrors(ShapeOrder, FormMessages(form, isEmail));
    valid := issues == [];
    if valid {
      errors := shown;
      if ErrorsCurrentFor(shown, form, isEmail) {
        ValidLeavesNoErrors(form, isEmail, shown);
      }
    } else {
      errors := CollectFieldErrors(issues);
      FieldErrorsAreInvalid(form, isEmail);
    }
  }

  // ------------------------------------------------------------ page state

  /** A toast: its title, its description and whether it is the destructive
      variant. */
  datatype Toast = Toast(title: string, description: string, destructive: bool)

  const RegisteredToast := Toast("Interest registered!", "We'll notify you when our medical products are available.", false)
  const FailedToast := Toast("Something went wrong", "Please try again later or contact us directly.", true)

  /** How the `send-interest-email` invocation ended: without an error, or
      with one (returned or thrown, which the page handles alike). */
  datatype InvokeOutcome = InvokeOk | InvokeFailed

  /** What the registration panel shows. */
  datatype RegisterView =
    | FormPanel(nameError: string, emailError: string, submitDisabled: bool, submitCaption: string)
    | ConfirmationPanel

  class ComingSoonPage {
    /** zod's e-mail check, fixed for the life of the page. */
    const isEmail: string -> bool
    var form: RegisterForm
    /** The messages under the fields; a field without an entry shows none. */
    var errors: map<Field, string>
    var isSubmitting: bool
    var isSubmitted: bool
    /** The bodies sent to `send-interest-email`, in order. */
    var requests: seq<RegisterForm>
    var toasts: seq<Toast>

    /** Every error shown belongs to a field whose current value is still
        invalid: editing a field drops its error. */
    predicate ErrorsCurrent()
      reads this
    {
      ErrorsCurrentFor(errors, form, isEmail)
    }

    constructor(isEmail: string -> bool)
      ensures this.isEmail == isEmail && form == EmptyForm && errors == map[]
      ensures !isSubmitting && !isSubmitted && requests == [] && toasts == []
      ensures ErrorsCurrent()
    {
      this.isEmail := isEmail;
      form := EmptyForm;
      errors := map[];
      isSubmitting := false;
      isSubmitted := false;
      requests := [];
      toasts := [];
    }

    /** `handleChange`: the edited field takes the new value and loses its
        error; every other field and error stays. */
    method HandleChange(f: Field, value: string)
      modifies this
      ensures form == With(old(form), f, value)
      ensures errors == old(errors) - {f}
      ensures isSubmitting == old(isSubmitting) && isSubmitted == old(isSubmitted)
      ensures requests == old(requests) && toasts == old(toasts)
      ensures old(ErrorsCurrent()) ==> ErrorsCurrent()
    {
      form := With(form, f, value);
      if f in errors {
        errors := errors - {f};
      }
    }

    /** `handleSubmit` up to the awaited invocation: an invalid form replaces
        the errors with one message per invalid field and sends nothing; a
        valid one starts submitting and sends the form as it is. A valid
        form never has errors showing, since each was dropped when its
        field was edited. */
    method Submit() returns (sent: bool)
      modifies this
      ensures sent <==> RegisterValid(form, isEmail)
      ensures !sent ==> errors == FieldErrors(form, isEmail) && isSubmitting == old(isSubmitting) && requests == old(requests)
      ensures sent ==> isSubmitting && requests == old(requests) + [form] && errors == old(errors)
      ensures sent && old(ErrorsCurrent()) ==> errors == map[]
      ensures old(ErrorsCurrent()) ==> ErrorsCurrent()
      ensures form == old(form) && isSubmitted == old(isSubmitted) && toasts == old(toasts)
    {
      var valid, newErrors := ValidateRegistration(form, isEmail, errors);
      errors := newErrors;
      if valid {
        isSubmitting := true;
        requests := requests + [form];
      }
      return valid;
    }

    /** The rest of `handleSubmit` once the invocation has ended: the page is
        marked submitted only when no error came back, a toast reports the
        outcome, and submitting stops either way. */
    method FinishSubmit(outcome: InvokeOutcome)
      requires isSubmitting
      modifies this
      ensures !isSubmitting
      ensures isSubmitted <==> old(isSubmitted) || outcome == InvokeOk
      ensures toasts == old(toasts) + [if outcome == InvokeOk then RegisteredToast else FailedToast]
      ensures form == old(form) && errors == old(errors) && requests == old(requests)
    {
      if outcome == InvokeOk {
        isSubmitted := true;
        toasts := toasts + [RegisteredToast];
      } else {
        toasts := toasts + [FailedToast];
      }
      isSubmitting := false;
    }

    /** The panel: the confirmation once submitted, otherwise the form with
        its errors and a submit button that is disabled and reads
        "Registering..." while submitting. */
    function View(): (v: RegisterView)
      reads this
      ensures v.ConfirmationPanel? <==> isSubmitted
      ensures v.FormPanel? ==> (v.submitDisabled <==> isSubmitting)
    {
      if isSubmitted then ConfirmationPanel
      else FormPanel(
        if Name in errors then errors[Name] else "",
        if Email in errors then errors[Email] else "",
        isSubmitting,
        if isSubmitting then "Registering..." else "Register Interest")
    }
  }
}
