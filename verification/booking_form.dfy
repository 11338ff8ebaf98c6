/** The public booking form for one catalog item: field edits, the browser's required-field
    check, and the submit cycle against the booking RPC. */
module BookingForm {
  import opened Common
  import opened Records

  datatype Field = CustomerName | CustomerEmail | CustomerPhone | BookingDate | StartTime | EndTime | Notes

  datatype FormData = FormData(
    customerName: string,
    customerEmail: string,
    customerPhone: string,
    bookingDate: string,
    startTime: string,
    endTime: string,
    notes: string)
  {
    function Get(f: Field): string {
      match f
      case CustomerName => customerName
      case CustomerEmail => customerEmail
      case CustomerPhone => customerPhone
      case BookingDate => bookingDate
      case StartTime => startTime
      case EndTime => endTime
      case Notes => notes
    }

    /** `{ ...formData, [name]: value }`: the named field only. */
    function With(f: Field, value: string): (r: FormData)
      ensures r.Get(f) == value
      ensures forall g :: g != f ==> r.Get(g) == Get(g)
    {
      match f
      case CustomerName => this.(customerName := value)
      case CustomerEmail => this.(customerEmail := value)
      case CustomerPhone => this.(customerPhone := value)
      case BookingDate => this.(bookingDate := value)
      case StartTime => this.(startTime := value)
      case EndTime => this.(endTime := value)
      case Notes => this.(notes := value)
    }
  }

  const EmptyForm := FormData("", "", "", "", "", "", "")

  /** The inputs marked `required`. */
  predicate Required(f: Field) {
    f != CustomerPhone && f != Notes
  }

  /** The browser lets the form submit only when every required input is filled. */
  predicate Submittable(form: FormData) {
    forall f :: Required(f) ==> form.Get(f) != ""
  }

  /** Name, email, date, start and end must be filled; phone and notes may be empty. */
  lemma SubmittableMeaning(form: FormData)
    ensures Submittable(form) <==>
      form.customerName != "" && form.customerEmail != "" && form.bookingDate != "" &&
      form.startTime != "" && form.endTime != ""
  {
    if form.customerName != "" && form.customerEmail != "" && form.bookingDate != "" &&
       form.startTime != "" && form.endTime != "" {
      forall f | Required(f) ensures form.Get(f) != "" {
      }
    } else {
      assert !Submittable(form) by {
        if form.customerName == "" { assert Required(CustomerName); }
        else if form.customerEmail == "" { assert Required(CustomerEmail); }
        else if form.bookingDate == "" { assert Required(BookingDate); }
        else if form.startTime == "" { assert Required(StartTime); }
        else { assert Required(EndTime); }
      }
    }
  }

  /** The fresh form cannot be submitted. */
  lemma EmptyFormBlocked()
    ensures !Submittable(EmptyForm)
  {
    assert Required(CustomerName);
  }

  /** The create request: every field plus the item's id. */
  datatype Request = Request(form: FormData, catalogItemId: Id)

  const CreatedToast := Toast("¡Reserva creada!", "Tu reserva ha sido enviada correctamente. Te contactaremos pronto.", false)
  const RejectedFallback := "Error al crear la reserva"
  const ThrownFallback := "No se pudo crear la reserva. Por favor intenta nuevamente."

  /** The error toast's text for this form. */
  function FailureMessage(reply: Call<RpcResult>): string
    requires !RpcSucceeded(reply)
  {
    RpcFailureMessage(reply, RejectedFallback, ThrownFallback)
  }

  class Form {
    const catalogItemId: Id
    /** Whether the parent passed `onSuccess`. */
    const hasOnSuccess: bool
    var form: FormData
    var loading: bool
    /** How many times `onSuccess` has been called. */
    var successCalls: nat

    constructor (catalogItemId: Id, hasOnSuccess: bool)
      ensures this.catalogItemId == catalogItemId && this.hasOnSuccess == hasOnSuccess
      ensures form == EmptyForm && !loading && successCalls == 0
    {
      this.catalogItemId := catalogItemId;
      this.hasOnSuccess := hasOnSuccess;
      form := EmptyForm;
      loading := false;
      successCalls := 0;
    }

    /** `handleChange`. */
    method HandleChange(f: Field, value: string)
      modifies this
      ensures form == old(form).With(f, value)
      ensures loading == old(loading) && successCalls == old(successCalls)
    {
      form := form.With(f, value);
    }

    /** `handleSubmit` up to its await. The submit button is disabled while loading and the
        browser blocks a form with an empty required input; otherwise the spinner goes on and
        the request carries the current fields and the item id. */
    method BeginSubmit() returns (request: Option<Request>)
      modifies this
      ensures request.Some? <==> !old(loading) && Submittable(old(form))
      ensures request.Some? ==> request.value == Request(form, catalogItemId) && loading
      ensures request.None? ==> loading == old(loading)
      ensures form == old(form) && successCalls == old(successCalls)
    {
      if loading || !Submittable(form) {
        return None;
      }
      loading := true;
      request := Some(Request(form, catalogItemId));
    }

    /** `handleSubmit` after its await: success clears every field and calls `onSuccess` if
        given; any failure keeps the fields and shows the error; the spinner goes off. */
    method OnSubmitSettled(reply: Call<RpcResult>) returns (toasts: seq<Toast>)
      modifies this
      ensures !loading
      ensures RpcSucceeded(reply) ==> form == EmptyForm && toasts == [CreatedToast]
      ensures RpcSucceeded(reply) ==> successCalls == old(successCalls) + (if hasOnSuccess then 1 else 0)
      ensures !RpcSucceeded(reply) ==>
        form == old(form) && successCalls == old(successCalls) &&
        toasts == [Toast("Error", FailureMessage(reply), true)]
    {
      if RpcSucceeded(reply) {
        toasts := [CreatedToast];
        form := EmptyForm;
        if hasOnSuccess {
          successCalls := successCalls + 1;
        }
      } else {
        toasts := [Toast("Error", FailureMessage(reply), true)];
      }
      loading := false;
    }
  }
}
