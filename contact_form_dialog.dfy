/**
 * The general contact dialog: a form over seven fields, opened from a
 * trigger, that posts to the contact endpoint and on success shows a
 * confirmation, clears itself and schedules a redirect to the thank-you page.
 */
module ContactFormDialog {
  import opened Optional
  import opened Wire
  import ContactRoute

  /** A day picked in the calendar, identified by its `toISOString()` text. */
  datatype Date = Date(iso: string)

  /** `ContactFormData`. */
  datatype FormData = FormData(
    name: string,
    email: string,
    phone: string,
    message: string,
    serviceType: string,
    preferredDate: Option<Date>,
    propertyName: Option<string>)

  /** The inputs wired to `handleInputChange`, by their `name` attribute. */
  datatype FieldName = Name | Email | Phone | ServiceType | Message

  /** The JSON object `handleSubmit` posts; a None member is one `JSON.stringify` leaves out. */
  datatype Payload = Payload(
    name: string,
    email: string,
    phone: string,
    message: string,
    serviceType: string,
    preferredDate: Option<string>,
    propertyName: Option<string>)

  const SendFailure := "Failed to send message. Please try again."

  /** The record the dialog starts from, and returns to after a success or a reset. */
  function InitialFormData(serviceType: string, propertyName: Option<string>): FormData {
    FormData("", "", "", "", serviceType, None, Some(propertyName.GetOr("")))
  }

  /** The value of the input called `field`. */
  function Get(f: FormData, field: FieldName): string {
    match field
    case Name => f.name
    case Email => f.email
    case Phone => f.phone
    case ServiceType => f.serviceType
    case Message => f.message
  }

  /** `{...prev, [name]: value}`: the named input takes the value, nothing else changes. */
  function WithField(f: FormData, field: FieldName, value: string): (g: FormData)
    ensures Get(g, field) == value
    ensures forall other :: other != field ==> Get(g, other) == Get(f, other)
    ensures g.preferredDate == f.preferredDate && g.propertyName == f.propertyName
  {
    match field
    case Name => f.(name := value)
    case Email => f.(email := value)
    case Phone => f.(phone := value)
    case ServiceType => f.(serviceType := value)
    case Message => f.(message := value)
  }

  /** `{...formData, preferredDate: formData.preferredDate ? formData.preferredDate.toISOString() : undefined}`. */
  function PayloadOf(f: FormData): Payload {
    Payload(f.name, f.email, f.phone, f.message, f.serviceType,
            if f.preferredDate.Some? then Some(f.preferredDate.value.iso) else None,
            f.propertyName)
  }

  /** A present string member is sent as a JSON string; an undefined one is left out of the body. */
  function Member(v: Option<string>): Field {
    if v.Some? then Text(v.value) else Absent
  }

  /** The body the contact endpoint receives for a payload. */
  function RequestBody(p: Payload): Body {
    Json(Submission(Text(p.name), Text(p.email), Text(p.phone), Text(p.message), Text(p.serviceType),
                    Member(p.preferredDate), Member(p.propertyName)))
  }

  /** Reads a received body back as a form record, when it has the shape this dialog sends. */
  function FormOf(b: Body): Option<FormData> {
    match b
    case Malformed => None
    case Json(s) =>
      if s.name.Text? && s.email.Text? && s.phone.Text? && s.message.Text? && s.serviceType.Text? &&
         !s.preferredDate.NonText? && !s.propertyName.NonText?
      then Some(FormData(s.name.s, s.email.s, s.phone.s, s.message.s, s.serviceType.s,
                         if s.preferredDate.Text? then Some(Date(s.preferredDate.s)) else None,
                         if s.propertyName.Text? then Some(s.propertyName.s) else None))
      else None
  }

  /** Nothing of the form is lost on the way to the endpoint: the date travels as its ISO text and comes back whole. */
  lemma PayloadRoundTrip(f: FormData)
    ensures FormOf(RequestBody(PayloadOf(f))) == Some(f)
  {
  }

  /**
   * What the endpoint does with this dialog's request: it is accepted exactly
   * when name, email and phone are non-empty, building the staff mail never
   * throws (the message is always a string), and the property banner appears
   * exactly when the dialog was given a non-empty property name.
   */
  lemma EndpointView(f: FormData, env: ContactRoute.Env)
    ensures var s := RequestBody(PayloadOf(f)).submission;
      (HasRequired(s) <==> f.name != "" && f.email != "" && f.phone != "") &&
      ContactRoute.AdminHtml(s, env).Some? &&
      (ContactRoute.Title(ContactRoute.PropertyInquiry) in ContactRoute.AdminHtml(s, env).value <==>
         f.propertyName.Some? && f.propertyName.value != "") &&
      (Truthy(s.preferredDate) <==> f.preferredDate.Some? && f.preferredDate.value.iso != "")
  {
    var s := RequestBody(PayloadOf(f)).submission;
    ContactRoute.AdminBannerIffProperty(s, env);
  }

  /**
   * The record the dialog starts from carries the props, with every typed
   * input empty: posted as it is, the endpoint answers 400 and sends nothing.
   */
  lemma InitialRecordIsRejected(serviceType: string, propertyName: Option<string>,
                                env: ContactRoute.Env, relay: seq<bool>)
    ensures var f := InitialFormData(serviceType, propertyName);
      f.serviceType == serviceType && f.propertyName == Some(propertyName.GetOr("")) &&
      f.preferredDate == None &&
      ContactRoute.Handle(RequestBody(PayloadOf(f)), env, relay) ==
        ContactRoute.Outcome(ContactRoute.BadRequest, [], 0)
  {
    var s := RequestBody(PayloadOf(InitialFormData(serviceType, propertyName))).submission;
    ContactRoute.MissingFieldsRejected(s, env, relay);
  }

  /** The dialog's state, hooks by hook. */
  class Dialog {
    /** The `serviceType` and `propertyName` props the dialog was rendered with. */
    const serviceTypeProp: string
    const propertyNameProp: Option<string>

    var open: bool
    var loading: bool
    var success: bool
    var error: string
    var dateOpen: bool
    var formData: FormData
    /** The 3-second timer started by a successful submit has not fired yet. */
    var redirectPending: bool
    /** The page has been sent to `/thank-you`. */
    var navigated: bool

    /**
     * The error banner is empty or the one fixed message, and the property
     * name is the prop's (no input edits it).
     */
    ghost predicate Valid()
      reads this
    {
      (error == "" || error == SendFailure) &&
      formData.propertyName == Some(propertyNameProp.GetOr(""))
    }

    /** Everything but the form record. */
    ghost function Flags(): (bool, bool, bool, string, bool, bool, bool)
      reads this
    {
      (open, loading, success, error, dateOpen, redirectPending, navigated)
    }

    constructor (serviceType: string, propertyName: Option<string>)
      ensures Valid()
      ensures serviceTypeProp == serviceType && propertyNameProp == propertyName
      ensures !open && !loading && !success && error == "" && !dateOpen && !redirectPending && !navigated
      ensures formData.name == formData.email == formData.phone == formData.message == ""
      ensures formData.serviceType == serviceType && formData.preferredDate == None
      ensures formData.propertyName == Some(propertyName.GetOr(""))
    {
      serviceTypeProp, propertyNameProp := serviceType, propertyName;
      open, loading, success, error, dateOpen := false, false, false, "", false;
      formData := InitialFormData(serviceType, propertyName);
      redirectPending, navigated := false, false;
    }

    /** `handleInputChange`: only the named input changes. */
    method HandleInputChange(field: FieldName, value: string)
      requires Valid()
      modifies this
      ensures Valid()
      ensures formData == WithField(old(formData), field, value)
      ensures Flags() == old(Flags())
    {
      formData := WithField(formData, field, value);
    }

    /** `handleDateSelect`: the picked day (or none) replaces the date, and the calendar closes. */
    method HandleDateSelect(date: Option<Date>)
      requires Valid()
      modifies this
      ensures Valid()
      ensures formData == old(formData).(preferredDate := date)
      ensures !dateOpen
      ensures (open, loading, success, error, redirectPending, navigated) ==
              old((open, loading, success, error, redirectPending, navigated))
    {
      formData := formData.(preferredDate := date);
      dateOpen := false;
    }

    /** The calendar popover opening or closing itself. */
    method SetDateOpen(isOpen: bool)
      requires Valid()
      modifies this
      ensures Valid()
      ensures dateOpen == isOpen && formData == old(formData)
      ensures (open, loading, success, error, redirectPending, navigated) ==
              old((open, loading, success, error, redirectPending, navigated))
    {
      dateOpen := isOpen;
    }

    /** The synchronous start of `handleSubmit`: spinner on, error cleared, request built from the current record. */
    method BeginSubmit() returns (payload: Payload)
      requires Valid()
      modifies this
      ensures Valid()
      ensures loading && error == ""
      ensures payload == PayloadOf(formData) && formData == old(formData)
      ensures (open, success, dateOpen, redirectPending, navigated) ==
              old((open, success, dateOpen, redirectPending, navigated))
    {
      loading := true;
      error := "";
      payload := PayloadOf(formData);
    }

    /** The rest of `handleSubmit`, once `fetch` has settled. */
    method FinishSubmit(result: FetchResult)
      requires Valid()
      modifies this
      ensures Valid()
      ensures !loading
      ensures result == OkResponse ==>
        success && redirectPending && error == old(error) &&
        formData == InitialFormData(serviceTypeProp, propertyNameProp)
      ensures result != OkResponse ==>
        error == SendFailure && success == old(success) && redirectPending == old(redirectPending) &&
        formData == old(formData)
      ensures open == old(open) && dateOpen == old(dateOpen) && navigated == old(navigated)
    {
      if result == OkResponse {
        success := true;
        formData := InitialFormData(serviceTypeProp, propertyNameProp);
        redirectPending := true;
      } else {
        error := SendFailure;
      }
      loading := false;
    }

    /** `handleSubmit` from start to finish; `payload` is what was posted. */
    method HandleSubmit(result: FetchResult) returns (payload: Payload)
      requires Valid()
      modifies this
      ensures Valid()
      ensures payload == PayloadOf(old(formData))
      ensures !loading
      ensures result == OkResponse ==>
        success && redirectPending && error == "" && formData == InitialFormData(serviceTypeProp, propertyNameProp)
      ensures result != OkResponse ==>
        error == SendFailure && success == old(success) && redirectPending == old(redirectPending) &&
        formData == old(formData)
      ensures open == old(open) && dateOpen == old(dateOpen) && navigated == old(navigated)
    {
      payload := BeginSubmit();
      FinishSubmit(result);
    }

    /** The timer callback: close the dialog, drop the confirmation, go to the thank-you page. */
    method FireRedirectTimer()
      requires Valid() && redirectPending
      modifies this
      ensures Valid()
      ensures !open && !success && navigated && !redirectPending
      ensures formData == old(formData) && (loading, error, dateOpen) == old((loading, error, dateOpen))
    {
      open := false;
      success := false;
      navigated := true;
      redirectPending := false;
    }

    /** `resetForm`. */
    method ResetForm()
      requires Valid()
      modifies this
      ensures Valid()
      ensures formData == InitialFormData(serviceTypeProp, propertyNameProp) && error == "" && !success
      ensures (open, loading, dateOpen, redirectPending, navigated) ==
              old((open, loading, dateOpen, redirectPending, navigated))
    {
      formData := InitialFormData(serviceTypeProp, propertyNameProp);
      error := "";
      success := false;
    }

    /** `handleOpenChange`: the dialog opening, or closing by Escape or a click outside. */
    method HandleOpenChange(isOpen: bool)
      requires Valid()
      modifies this
      ensures Valid()
      ensures open == isOpen
      ensures isOpen ==> formData == old(formData) && Flags() == old(Flags()).(0 := true)
      ensures !isOpen ==>
        formData == InitialFormData(serviceTypeProp, propertyNameProp) && error == "" && !success &&
        (loading, dateOpen, redirectPending, navigated) == old((loading, dateOpen, redirectPending, navigated))
    {
      open := isOpen;
      if !isOpen {
        ResetForm();
      }
    }

    /** The header's close button: it sets `open` directly, so nothing is reset. */
    method PressCloseButton()
      requires Valid()
      modifies this
      ensures Valid()
      ensures !open && formData == old(formData)
      ensures (loading, success, error, dateOpen, redirectPending, navigated) ==
              old((loading, success, error, dateOpen, redirectPending, navigated))
    {
      open := false;
    }
  }
}
