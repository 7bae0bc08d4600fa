/** The public contact form: a simulated submission that shows a thank-you
    panel for a while and clears the form, and the fixed contact entries. */
module ContactForm {

  datatype ContactFields = ContactFields(name: string, email: string, message: string)
  datatype ContactField = Name | Email | Message

  const EmptyForm := ContactFields("", "", "")

  function Field(f: ContactFields, which: ContactField): string {
    match which
    case Name => f.name
    case Email => f.email
    case Message => f.message
  }

  /** `{ ...formData, [e.target.name]: e.target.value }`. */
  function Change(f: ContactFields, which: ContactField, value: string): (r: ContactFields)
    ensures Field(r, which) == value
    ensures forall g :: g != which ==> Field(r, g) == Field(f, g)
  {
    match which
    case Name => f.(name := value)
    case Email => f.(email := value)
    case Message => f.(message := value)
  }

  /** The three inputs are `required`: the browser submits only when none is
      empty. (The format check of the email input is not modelled.) */
  predicate Filled(f: ContactFields) {
    f.name != "" && f.email != "" && f.message != ""
  }

  /** The form's state. The 2000 ms timer is pending exactly while
      `isSubmitting`, the 5000 ms one exactly while `isSubmitted`. */
  datatype ContactState = ContactState(form: ContactFields, isSubmitting: bool, isSubmitted: bool)

  const Idle := ContactState(EmptyForm, false, false)

  /** Never both submitting and showing the thank-you panel. */
  predicate Inv(s: ContactState) {
    !(s.isSubmitting && s.isSubmitted)
  }

  /** A submit event reaches `handleSubmit` only from the visible form, with
      all fields filled and the button enabled. */
  predicate CanSubmit(s: ContactState) {
    !s.isSubmitted && !s.isSubmitting && Filled(s.form)
  }

  /** `handleSubmit`: when allowed, the submission starts; otherwise nothing
      happens. No request leaves the page. */
  function Submit(s: ContactState): (t: ContactState)
    ensures CanSubmit(s) ==> t == s.(isSubmitting := true)
    ensures !CanSubmit(s) ==> t == s
  {
    if CanSubmit(s) then s.(isSubmitting := true) else s
  }

  /** The 2000 ms timer: submitted, and every field cleared. */
  function Complete(s: ContactState): (t: ContactState)
    requires s.isSubmitting
    ensures !t.isSubmitting && t.isSubmitted && t.form == EmptyForm
  {
    ContactState(EmptyForm, false, true)
  }

  /** The 5000 ms timer: the thank-you panel goes. */
  function ClearSubmitted(s: ContactState): (t: ContactState)
    requires s.isSubmitted
    ensures !t.isSubmitted && t.form == s.form && t.isSubmitting == s.isSubmitting
  {
    s.(isSubmitted := false)
  }

  lemma InvPreserved(s: ContactState)
    requires Inv(s)
    ensures Inv(Submit(s))
    ensures s.isSubmitting ==> Inv(Complete(s))
    ensures s.isSubmitted ==> Inv(ClearSubmitted(s))
  {
  }

  /** A whole submission, from a filled idle form: submitting, then the
      thank-you panel over a cleared form, then the empty idle form. */
  lemma Lifecycle(f: ContactFields)
    requires Filled(f)
    ensures var a := Submit(ContactState(f, false, false));
      && a == ContactState(f, true, false)
      && Complete(a) == ContactState(EmptyForm, false, true)
      && ClearSubmitted(Complete(a)) == Idle
  {
  }

  /** What the form area shows. */
  datatype FormView = ThankYou | Form(buttonDisabled: bool, buttonText: string)

  function View(s: ContactState): (v: FormView)
    ensures v.ThankYou? <==> s.isSubmitted
    ensures v.Form? ==> (v.buttonDisabled <==> s.isSubmitting)
    ensures v.Form? ==> v.buttonText == (if s.isSubmitting then "Sending..." else "Send Message")
  {
    if s.isSubmitted then ThankYou
    else Form(s.isSubmitting, if s.isSubmitting then "Sending..." else "Send Message")
  }

  /** While the submission runs, the visible form cannot start another. */
  lemma NoDoubleSubmit(s: ContactState)
    requires s.isSubmitting
    ensures Submit(s) == s
    ensures View(s).Form? ==> View(s).buttonDisabled
  {
  }

  datatype ContactEntry = ContactEntry(title: string, value: string, link: string)

  /** The fixed contact details beside the form. */
  const ContactInfo: seq<ContactEntry> := [
    ContactEntry("Email", "suriya.prakash@example.com", "mailto:suriya.prakash@example.com"),
    ContactEntry("Phone", "+91 98765 43210", "tel:+919876543210"),
    ContactEntry("Location", "Tamil Nadu, India", "#")]

  class Contact {
    var formData: ContactFields
    var isSubmitting: bool
    var isSubmitted: bool

    function State(): ContactState
      reads this
    {
      ContactState(formData, isSubmitting, isSubmitted)
    }

    constructor ()
      ensures State() == Idle
    {
      formData, isSubmitting, isSubmitted := EmptyForm, false, false;
    }

    method HandleChange(which: ContactField, value: string)
      modifies this
      ensures State() == old(State()).(form := Change(old(formData), which, value))
    {
      formData := Change(formData, which, value);
    }

    method HandleSubmit()
      modifies this
      ensures State() == Submit(old(State()))
    {
      if !isSubmitted && !isSubmitting && Filled(formData) {
        isSubmitting := true;
      }
    }

    method SubmitTimerFires()
      requires isSubmitting
      modifies this
      ensures State() == Complete(old(State()))
    {
      isSubmitting := false;
      isSubmitted := true;
      formData := EmptyForm;
    }

    method ResetTimerFires()
      requires isSubmitted
      modifies this
      ensures State() == ClearSubmitted(old(State()))
    {
      isSubmitted := false;
    }
  }
}
