/** The public contact form: field edits, the browser's required-field check, and the submit
    cycle against the lead RPC. */
module ContactForm {
  import opened Common
  import opened Records

  datatype Field = Name | Email | Phone | Message

  datatype FormData = FormData(name: string, email: string, phone: string, message: string)
  {
    function Get(f: Field): string {
      match f
      case Name => name
      case Email => email
      case Phone => phone
      case Message => message
    }

    /** `{ ...formData, [name]: value }`: the named field only. */
    function With(f: Field, value: string): (r: FormData)
      ensures r.Get(f) == value
      ensures forall g :: g != f ==> r.Get(g) == Get(g)
    {
      match f
      case Name => this.(name := value)
      case Email => this.(email := value)
      case Phone => this.(phone := value)
      case Message => this.(message := value)
    }
  }

  const EmptyForm := FormData("", "", "", "")

  /** The inputs marked `required`. */
  predicate Required(f: Field) {
    f != Phone
  }

  predicate Submittable(form: FormData) {
    forall f :: Required(f) ==> form.Get(f) != ""
  }

  /** Name, email and message must be filled; phone may be empty. */
  lemma SubmittableMeaning(form: FormData)
    ensures Submittable(form) <==> form.name != "" && form.email != "" && form.message != ""
  {
    if form.name != "" && form.email != "" && form.message != "" {
      forall f | Required(f) ensures form.Get(f) != "" {
      }
    } else {
      assert !Submittable(form) by {
        if form.name == "" { assert Required(Name); }
        else if form.email == "" { assert Required(Email); }
        else { assert Required(Message); }
      }
    }
  }

  const ContactSource := "contact_form"

  /** The create request: the four fields with the source fixed. */
  datatype Request = Request(form: FormData, source: string)

  const SentToast := Toast("¡Mensaje enviado!", "Gracias por contactarnos. Te responderemos pronto.", false)
  const RejectedFallback := "Error al enviar el mensaje"
  const ThrownFallback := "No se pudo enviar el mensaje. Por favor intenta nuevamente."

  /** The error toast's text for this form. */
  function FailureMessage(reply: Call<RpcResult>): string
    requires !RpcSucceeded(reply)
  {
    RpcFailureMessage(reply, RejectedFallback, ThrownFallback)
  }

  class Form {
    var form: FormData
    var loading: bool

    constructor ()
      ensures form == EmptyForm && !loading
    {
      form := EmptyForm;
      loading := false;
    }

    /** `handleChange`. */
    method HandleChange(f: Field, value: string)
      modifies this
      ensures form == old(form).With(f, value) && loading == old(loading)
    {
      form := form.With(f, value);
    }

    /** `handleSubmit` up to its await: blocked while loading or with an empty required input;
        otherwise the spinner goes on and the request carries the fields and the source. */
    method BeginSubmit() returns (request: Option<Request>)
      modifies this
      ensures request.Some? <==> !old(loading) && Submittable(old(form))
      ensures request.Some? ==> request.value == Request(form, ContactSource) && loading
      ensures request.None? ==> loading == old(loading)
      ensures form == old(form)
    {
      if loading || !Submittable(form) {
        return None;
      }
      loading := true;
      request := Some(Request(form, ContactSource));
    }

    /** `handleSubmit` after its await: success clears all four fields; any failure keeps them
        and shows the error; the spinner goes off. */
    method OnSubmitSettled(reply: Call<RpcResult>) returns (toasts: seq<Toast>)
      modifies this
      ensures !loading
      ensures RpcSucceeded(reply) ==> form == EmptyForm && toasts == [SentToast]
      ensures !RpcSucceeded(reply) ==>
        form == old(form) && toasts == [Toast("Error", FailureMessage(reply), true)]
    {
      if RpcSucceeded(reply) {
        toasts := [SentToast];
        form := EmptyForm;
      } else {
        toasts := [Toast("Error", FailureMessage(reply), true)];
      }
      loading := false;
    }
  }
}
