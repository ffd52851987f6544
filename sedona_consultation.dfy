/** The SEDONA callback request page (src/pages/SedonaConsultation.tsx): an
    eight-field form whose product-interest choices come from the catalogue,
    and a submit sequence that sends the form to `send-callback-email`,
    clears it when the request went through and keeps it when it did not.
    The browser's own checks on the `required` and `type="email"` inputs
    gate the submit; `isBrowserEmail` stands for the browser's e-mail
    check. */
module SedonaConsultation {
  import opened Common
  import opened SedonaCatalogue

  // ------------------------------------------------------------ form

  datatype Field = FirstName | LastName | Email | Phone | Company | ProductInterest | UseCase | Message

  datatype ConsultationForm = ConsultationForm(
    firstName: string, lastName: string, email: string, phone: string,
    company: string, productInterest: string, useCase: string, message: string)

  const EmptyForm := ConsultationForm("", "", "", "", "", "", "", "")

  function Get(form: ConsultationForm, f: Field): string {
    match f
    case FirstName => form.firstName
    case LastName => form.lastName
    case Email => form.email
    case Phone => form.phone
    case Company => form.company
    case ProductInterest => form.productInterest
    case UseCase => form.useCase
    case Message => form.message
  }

  /** `{ ...prev, [e.target.name]: e.target.value }`: that field takes the
      value, no other changes. */
  function With(form: ConsultationForm, f: Field, value: string): (r: ConsultationForm)
    ensures Get(r, f) == value
    ensures forall g :: g != f ==> Get(r, g) == Get(form, g)
  {
    match f
    case FirstName => form.(firstName := value)
    case LastName => form.(lastName := value)
    case Email => form.(email := value)
    case Phone => form.(phone := value)
    case Company => form.(company := value)
    case ProductInterest => form.(productInterest := value)
    case UseCase => form.(useCase := value)
    case Message => form.(message := value)
  }

  /** The blank form holds the empty string in every field. */
  lemma EmptyFormIsBlank(f: Field)
    ensures Get(EmptyForm, f) == ""
  {
  }

  /** The inputs and selects marked `required`. */
  predicate IsRequired(f: Field) {
    f == FirstName || f == LastName || f == Email || f == ProductInterest || f == UseCase
  }

  /** The browser submits the form only when every required control has a
      value and a non-empty e-mail input holds an address. */
  predicate BrowserAllowsSubmit(form: ConsultationForm, isBrowserEmail: string -> bool) {
    (forall f :: IsRequired(f) ==> Get(form, f) != "") && (form.email != "" ==> isBrowserEmail(form.email))
  }

  // ------------------------------------------------------------ choices

  const NotSureOption := "Not sure - need guidance"

  /** The values of the product-interest select: the empty placeholder, one
      per catalogue product (its name), then "Not sure - need guidance". */
  function InterestOptions(products: seq<SedonaProduct>): seq<string> {
    [""] + seq(|products|, i requires 0 <= i < |products| => products[i].name) + [NotSureOption]
  }

  /** One option per product, in catalogue order, between the placeholder
      and the fallback. */
  lemma InterestOptionsFollowCatalogue(products: seq<SedonaProduct>)
    ensures |InterestOptions(products)| == |products| + 2
    ensures InterestOptions(products)[0] == ""
    ensures forall i :: 0 <= i < |products| ==> InterestOptions(products)[i + 1] == products[i].name
    ensures InterestOptions(products)[|products| + 1] == NotSureOption
  {
  }

  /** The values of the intended-use select, placeholder first. */
  const UseCaseOptions := [
    "", "Personal / Home Use", "Professional Clinic", "Wellness Centre / Spa",
    "Sports / Athletic Recovery", "Medical Practice", "Other"]

  // ------------------------------------------------------------ outcome

  /** What `send-callback-email` answered with: its `success` flag, when
      present. */
  datatype CallbackData = CallbackData(success: Option<bool>, error: Option<string>)

  /** How the invocation ended: an error, or else the data returned, if any.
      A thrown exception counts as an error. */
  datatype CallbackResult = CallbackResult(error: Option<string>, data: Option<CallbackData>)

  /** The request went through: no error, and `data?.success` is true. */
  predicate Succeeded(result: CallbackResult) {
    result.error.None? && result.data.Some? && result.data.value.success == Some(true)
  }

  /** The form after a submission: cleared when it went through, kept as it
      is otherwise. */
  function FormAfter(form: ConsultationForm, result: CallbackResult): ConsultationForm {
    if Succeeded(result) then EmptyForm else form
  }

  /** A success leaves every field empty; a failure leaves every field as it
      was, so trying again sends the same request. */
  lemma FormAfterOutcome(form: ConsultationForm, result: CallbackResult, f: Field)
    ensures Succeeded(result) ==> Get(FormAfter(form, result), f) == ""
    ensures !Succeeded(result) ==> Get(FormAfter(form, result), f) == Get(form, f)
  {
  }

  /** A toast: its title, its description and whether it is the destructive
      variant. */
  datatype Toast = Toast(title: string, description: string, destructive: bool)

  const ReceivedToast := Toast(
    "Callback Request Received",
    "Thank you for your interest! Our team will contact you within 24-48 hours. A confirmation email has been sent to you.",
    false)
  const ErrorToast := Toast("Error", "Failed to submit your request. Please try again or contact us directly.", true)

  // ------------------------------------------------------------ page state

  class ConsultationPage {
    var formData: ConsultationForm
    var isSubmitting: bool
    /** The bodies sent to `send-callback-email`, in order. */
    var requests: seq<ConsultationForm>
    var toasts: seq<Toast>

    constructor()
      ensures formData == EmptyForm && !isSubmitting && requests == [] && toasts == []
    {
      formData := EmptyForm;
      isSubmitting := false;
      requests := [];
      toasts := [];
    }

    /** `handleChange`: the edited field takes the new value. */
    method HandleChange(f: Field, value: string)
      modifies this
      ensures formData == With(old(formData), f, value)
      ensures isSubmitting == old(isSubmitting) && requests == old(requests) && toasts == old(toasts)
    {
      formData := With(formData, f, value);
    }

    /** `handleSubmit` up to the awaited invocation, reached only when the
        browser lets the form submit and the button is enabled: submitting
        starts and the form is sent as it is. */
    method Submit(isBrowserEmail: string -> bool) returns (sent: bool)
      modifies this
      ensures sent <==> BrowserAllowsSubmit(old(formData), isBrowserEmail) && !old(isSubmitting)
      ensures sent ==> isSubmitting && requests == old(requests) + [formData]
      ensures !sent ==> isSubmitting == old(isSubmitting) && requests == old(requests)
      ensures formData == old(formData) && toasts == old(toasts)
    {
      sent := BrowserAllowsSubmit(formData, isBrowserEmail) && !isSubmitting;
      if sent {
        isSubmitting := true;
        requests := requests + [formData];
      }
    }

    /** The rest of `handleSubmit` once the invocation has ended: a success
        is acknowledged and clears the form, a failure is reported and keeps
        it, and submitting stops either way. */
    method FinishSubmit(result: CallbackResult)
      requires isSubmitting
      modifies this
      ensures !isSubmitting
      ensures formData == FormAfter(old(formData), result)
      ensures toasts == old(toasts) + [if Succeeded(result) then ReceivedToast else ErrorToast]
      ensures requests == old(requests)
    {
      if Succeeded(result) {
        toasts := toasts + [ReceivedToast];
        formData := EmptyForm;
      } else {
        toasts := toasts + [ErrorToast];
      }
      isSubmitting := false;
    }

    /** The submit button: disabled and reading "Submitting..." while a
        request is under way. */
    function SubmitButton(): (b: (bool, string))
      reads this
      ensures b.0 <==> isSubmitting
    {
      if isSubmitting then (true, "Submitting...") else (false, "Request a Callback")
    }
  }

  /** The page's product-interest select lists every catalogue product. */
  lemma CatalogueInterestOptions()
    ensures |InterestOptions(SedonaProducts)| == 8
    ensures InterestOptions(SedonaProducts)[1] == PemfChair.name
    ensures InterestOptions(SedonaProducts)[7] == NotSureOption
  {
    InterestOptionsFollowCatalogue(SedonaProducts);
  }
}
