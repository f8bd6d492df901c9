/** The add-service overlay (`AddServiceModal`): a flat six-field form posted
    as a nested service body. On success the form is cleared, the parent is
    told once that a service was added, and closing is scheduled; on failure
    the form is kept. */
module AddService {
  import opened Common

  const MsgAdded := "Service added successfully!"
  const MsgAddFailed := "Error adding service"

  /** The inputs of the form, by their `name` attribute. */
  datatype Field = ServiceName | ServiceType | Description | ContactPhone | WorkingStart | WorkingEnd

  datatype ServiceForm = ServiceForm(serviceName: string, serviceType: string, description: string,
                                     contactPhone: string, workingStart: string, workingEnd: string)
  {
    function Get(f: Field): string
    {
      match f
      case ServiceName => serviceName
      case ServiceType => serviceType
      case Description => description
      case ContactPhone => contactPhone
      case WorkingStart => workingStart
      case WorkingEnd => workingEnd
    }

    /** `{ ...formData, [field]: value }` */
    function With(f: Field, value: string): (r: ServiceForm)
      ensures r.Get(f) == value
      ensures forall g :: g != f ==> r.Get(g) == Get(g)
    {
      match f
      case ServiceName => this.(serviceName := value)
      case ServiceType => this.(serviceType := value)
      case Description => this.(description := value)
      case ContactPhone => this.(contactPhone := value)
      case WorkingStart => this.(workingStart := value)
      case WorkingEnd => this.(workingEnd := value)
    }
  }

  const EmptyForm := ServiceForm("", "", "", "", "", "")

  datatype ContactInfo = ContactInfo(phone: string)
  datatype WorkingHours = WorkingHours(start: string, end: string)

  /** The JSON body of the POST to `/services`. */
  datatype ServiceBody = ServiceBody(serviceName: string, description: string, contactInfo: ContactInfo,
                                     workingHours: WorkingHours, serviceType: string)

  /** Reads a body back into the flat form. */
  function FormOf(b: ServiceBody): (f: ServiceForm)
    ensures f.serviceName == b.serviceName && f.description == b.description
    ensures f.serviceType == b.serviceType
    ensures f.contactPhone == b.contactInfo.phone
    ensures f.workingStart == b.workingHours.start && f.workingEnd == b.workingHours.end
  {
    ServiceForm(b.serviceName, b.serviceType, b.description, b.contactInfo.phone,
                b.workingHours.start, b.workingHours.end)
  }

  /** The body `handleSubmit` builds. Nothing is lost: reading it back gives
      the form again. */
  function BodyOf(f: ServiceForm): (b: ServiceBody)
    ensures FormOf(b) == f
  {
    ServiceBody(f.serviceName, f.description, ContactInfo(f.contactPhone),
                WorkingHours(f.workingStart, f.workingEnd), f.serviceType)
  }

  /** Every body is built from exactly one form: the mapping is a bijection. */
  lemma BodyOfFormOf(b: ServiceBody)
    ensures BodyOf(FormOf(b)) == b
  {
  }

  /** The overlay's state. `addedSignals` counts calls of `onServiceAdded`,
      `closeScheduled` records that `onClose` has been scheduled. A submission
      is in flight exactly while `pending` holds its body. */
  class AddServiceModal {
    var form: ServiceForm
    var loading: bool
    var message: string
    var pending: Option<ServiceBody>
    var addedSignals: nat
    var closeScheduled: bool

    ghost predicate Valid()
      reads this
    {
      loading <==> pending.Some?
    }

    constructor ()
      ensures Valid()
      ensures form == EmptyForm && !loading && message == ""
      ensures addedSignals == 0 && !closeScheduled
    {
      form := EmptyForm;
      loading := false;
      message := "";
      pending := None;
      addedSignals := 0;
      closeScheduled := false;
    }

    /** `handleChange`: only the named field changes. */
    method HandleChange(field: Field, value: string)
      modifies this`form
      ensures form == old(form).With(field, value)
    {
      form := form.With(field, value);
    }

    /** `handleSubmit` up to the awaited POST. There is no client-side
        validation; the submit button is disabled while `loading`. */
    method HandleSubmit() returns (body: ServiceBody)
      requires Valid() && !loading
      modifies this`loading, this`message, this`pending
      ensures Valid()
      ensures loading && message == ""
      ensures body == BodyOf(form) && pending == Some(body)
    {
      loading := true;
      message := "";
      body := BodyOf(form);
      pending := Some(body);
    }

    /** The rest of `handleSubmit` once the POST settles. */
    method Settle(outcome: Outcome<()>)
      requires Valid() && pending.Some?
      modifies this`form, this`loading, this`message, this`pending, this`addedSignals, this`closeScheduled
      ensures Valid() && !loading && pending.None?
      ensures outcome.Ok? ==>
        && message == MsgAdded && form == EmptyForm
        && addedSignals == old(addedSignals) + 1 && closeScheduled
      ensures outcome.Err? ==>
        && message == MsgAddFailed && form == old(form)
        && addedSignals == old(addedSignals) && closeScheduled == old(closeScheduled)
    {
      match outcome {
        case Ok(_) =>
          message := MsgAdded;
          form := EmptyForm;
          addedSignals := addedSignals + 1;
          closeScheduled := true;
        case Err(_) =>
          message := MsgAddFailed;
      }
      loading := false;
      pending := None;
    }
  }
}
