/**
 * The property-management quote dialog: a form over nine inputs whose
 * property details are folded into one message text before it posts to the
 * contact endpoint; on success it shows a confirmation, clears itself and
 * schedules a redirect to the thank-you page.
 */
module PropertyManagementForm {
  import opened Wire
  import opened JsString
  import ContactRoute

  /** `PropertyManagementFormData`. */
  datatype FormData = FormData(
    name: string,
    email: string,
    phone: string,
    city: string,
    propertyType: string,
    furnishing: string,
    occupancyStatus: string,
    expectedRent: string,
    notes: string,
    serviceType: string)

  /** The inputs wired to `handleInputChange`, by their `name` attribute (there is none for the service type). */
  datatype FieldName = Name | Email | Phone | City | PropertyType | Furnishing | OccupancyStatus | ExpectedRent | Notes

  /** The JSON object `handleSubmit` posts: five members, the property details only inside `message`. */
  datatype Payload = Payload(name: string, email: string, phone: string, message: string, serviceType: string)

  const ServiceLabel := "Property Management"
  const SendFailure := "Failed to send message. Please try again."

  /** The record the form starts from, and returns to after a success or a reset. */
  const InitialFormData := FormData("", "", "", "", "", "", "", "", "", ServiceLabel)

  /** The value of the input called `field`. */
  function Get(f: FormData, field: FieldName): string {
    match field
    case Name => f.name
    case Email => f.email
    case Phone => f.phone
    case City => f.city
    case PropertyType => f.propertyType
    case Furnishing => f.furnishing
    case OccupancyStatus => f.occupancyStatus
    case ExpectedRent => f.expectedRent
    case Notes => f.notes
  }

  /** `{...prev, [name]: value}`: the named input takes the value, nothing else changes. */
  function WithField(f: FormData, field: FieldName, value: string): (g: FormData)
    ensures Get(g, field) == value
    ensures forall other :: other != field ==> Get(g, other) == Get(f, other)
    ensures g.serviceType == f.serviceType
  {
    match field
    case Name => f.(name := value)
    case Email => f.(email := value)
    case Phone => f.(phone := value)
    case City => f.(city := value)
    case PropertyType => f.(propertyType := value)
    case Furnishing => f.(furnishing := value)
    case OccupancyStatus => f.(occupancyStatus := value)
    case ExpectedRent => f.(expectedRent := value)
    case Notes => f.(notes := value)
  }

  // ---------------------------------------------------------------- detailedMessage

  /** The rupee sign. */
  const Rupee := "\U{20B9}"

  /** The three characters the template holds before the rent: the rupee sign's UTF-8 bytes read as Windows-1252. */
  const MisencodedRupee := "\U{00E2}\U{201A}\U{00B9}"

  const RequestTitle := "Property Management Request:"
  const NotesLabel := "\n\nAdditional Notes:"

  /** The "Property Details" heading and the city, type, furnishing and occupancy lines. */
  function PropertyFacts(f: FormData): string {
    "\n\nProperty Details:\n- City: " + f.city +
    "\n- Property Type: " + f.propertyType +
    "\n- Furnishing: " + f.furnishing +
    "\n- Occupancy Status: " + f.occupancyStatus
  }

  /** The rent line, with `currency` before the amount. */
  function RentLine(f: FormData, currency: string): string {
    "\n- Expected Rent: " + currency + f.expectedRent
  }

  /** The five property lines. */
  function PropertyLines(f: FormData, currency: string): string {
    PropertyFacts(f) + RentLine(f, currency)
  }

  /** The lines from the request title down to "Additional Notes:". */
  function Details(f: FormData, currency: string): string {
    RequestTitle + PropertyLines(f, currency) + NotesLabel
  }

  const NoNotes := "None"

  /** `formData.notes || 'None'`. */
  function NotesOrNone(notes: string): string {
    if notes == "" then NoNotes else notes
  }

  /** The template literal before `.trim()`: it opens with a line feed and closes with a line feed and indentation. */
  function RawMessage(f: FormData, currency: string): string {
    "\n" + Details(f, currency) + "\n" + NotesOrNone(f.notes) + Indent
  }

  /** `detailedMessage`, with the given currency sign. */
  function DetailedMessageWith(f: FormData, currency: string): string {
    Trim(RawMessage(f, currency))
  }

  /** `detailedMessage` as evidently intended, with the rupee sign. */
  function DetailedMessage(f: FormData): string {
    DetailedMessageWith(f, Rupee)
  }

  const Indent := "\n      "

  /** The leading line feed goes, and nothing more when the text after it begins visibly. */
  lemma TrimStartLeadingNewline(d: string, t: string)
    requires d != [] && !IsWhitespace(d[0])
    ensures TrimStart("\n" + (d + t)) == d + t
  {
    var raw := "\n" + (d + t);
    assert raw[1..] == d + t;
    assert (d + t)[0] == d[0];
  }

  /** The part after the details is blank exactly when the notes are. */
  lemma NotesTailBlank(n: string)
    ensures Blank("\n" + n + Indent) <==> Blank(n)
  {
    var tail := "\n" + n + Indent;
    assert Blank(Indent);
    if Blank(n) {
      forall i | 0 <= i < |tail| ensures IsWhitespace(tail[i]) {
        if 0 < i <= |n| {
          assert tail[i] == n[i - 1];
        } else if i > |n| {
          assert tail[i] == Indent[i - 1 - |n|];
        }
      }
    } else {
      var i :| 0 <= i < |n| && !IsWhitespace(n[i]);
      assert tail[i + 1] == n[i];
    }
  }

  /** With visible notes, trimming the part after the details keeps the notes up to their last visible character. */
  lemma TrimEndNotesTail(n: string)
    requires !Blank(n)
    ensures TrimEnd("\n" + n + Indent) == "\n" + TrimEnd(n)
  {
    assert Blank(Indent);
    TrimEndBlankSuffix("\n" + n, Indent);
    TrimEndVisibleSuffix("\n", n);
  }

  /** The template's parts, regrouped around the details. */
  lemma FrameRegroup(d: string, n: string)
    ensures "\n" + d + "\n" + n + Indent == "\n" + (d + ("\n" + n + Indent))
  {
  }

  /** Once the leading whitespace is known, trimming is trimming the end of what is left. */
  lemma TrimAfterStart(d: string, t: string)
    requires TrimStart("\n" + (d + t)) == d + t
    ensures Trim("\n" + (d + t)) == TrimEnd(d + t)
  {
  }

  /** Trimming the template's frame drops the leading line feed: what remains is the end-trimmed rest. */
  lemma TrimFrameStart(d: string, n: string)
    requires d != [] && !IsWhitespace(d[0])
    ensures Trim("\n" + d + "\n" + n + Indent) == TrimEnd(d + ("\n" + n + Indent))
  {
    var tail := "\n" + n + Indent;
    FrameRegroup(d, n);
    TrimStartLeadingNewline(d, tail);
    TrimAfterStart(d, tail);
  }

  /** Blank notes leave nothing after a text `d` that ends visibly. */
  lemma TrimFrameBlankNotes(d: string, n: string)
    requires d != [] && !IsWhitespace(d[|d| - 1])
    requires Blank(n)
    ensures TrimEnd(d + ("\n" + n + Indent)) == d
  {
    NotesTailBlank(n);
    TrimEndBlankSuffix(d, "\n" + n + Indent);
    assert d + [] == d;
  }

  /** Visible notes stay, up to their last visible character, one line below `d`. */
  lemma TrimFrameVisibleNotes(d: string, n: string)
    requires !Blank(n)
    ensures TrimEnd(d + ("\n" + n + Indent)) == d + "\n" + TrimEnd(n)
  {
    NotesTailBlank(n);
    TrimEndVisibleSuffix(d, "\n" + n + Indent);
    TrimEndNotesTail(n);
  }

  /** The details open with their title and end with "Additional Notes:": visible characters at both ends. */
  lemma DetailsEndsVisible(f: FormData, currency: string)
    ensures var d := Details(f, currency);
      |d| > |RequestTitle| && d[..|RequestTitle|] == RequestTitle &&
      !IsWhitespace(d[0]) && !IsWhitespace(d[|d| - 1])
  {
    var d := Details(f, currency);
    var rest := PropertyLines(f, currency) + NotesLabel;
    assert d == RequestTitle + rest;
    assert d[..|RequestTitle|] == RequestTitle;
    assert d[0] == RequestTitle[0];
    assert d[|d| - 1] == NotesLabel[|NotesLabel| - 1];
  }

  /** Trimming the template removes its opening line feed and whatever whitespace ends it. */
  lemma MessageFrame(f: FormData, currency: string)
    ensures DetailedMessageWith(f, currency) ==
            TrimEnd(Details(f, currency) + ("\n" + NotesOrNone(f.notes) + Indent))
  {
    DetailsEndsVisible(f, currency);
    TrimFrameStart(Details(f, currency), NotesOrNone(f.notes));
  }

  /** Without notes the message ends with "None" on its own line. */
  lemma MessageWithoutNotes(f: FormData, currency: string)
    requires f.notes == ""
    ensures DetailedMessageWith(f, currency) == Details(f, currency) + "\n" + NoNotes
  {
    MessageFrame(f, currency);
    NoNotesVisible();
    TrimFrameVisibleNotes(Details(f, currency), NoNotes);
  }

  /** "None" is visible and has no trailing whitespace. */
  lemma NoNotesVisible()
    ensures !Blank(NoNotes) && TrimEnd(NoNotes) == NoNotes
  {
    assert !IsWhitespace(NoNotes[0]);
    assert !IsWhitespace(NoNotes[|NoNotes| - 1]);
  }

  /** Notes with a visible character follow on their own line, without their trailing whitespace. */
  lemma MessageWithNotes(f: FormData, currency: string)
    requires !Blank(f.notes)
    ensures DetailedMessageWith(f, currency) == Details(f, currency) + "\n" + TrimEnd(f.notes)
  {
    MessageFrame(f, currency);
    TrimFrameVisibleNotes(Details(f, currency), f.notes);
  }

  /** Notes made only of whitespace vanish: the message then ends at "Additional Notes:". */
  lemma MessageWithBlankNotes(f: FormData, currency: string)
    requires f.notes != "" && Blank(f.notes)
    ensures DetailedMessageWith(f, currency) == Details(f, currency)
  {
    MessageFrame(f, currency);
    DetailsEndsVisible(f, currency);
    TrimFrameBlankNotes(Details(f, currency), f.notes);
  }

  /** `t` occurs in `s` starting at position `i`. */
  predicate OccursAt(s: string, t: string, i: int) {
    0 <= i <= |s| - |t| && s[i..i + |t|] == t
  }

  /** `t` occurs somewhere in `s`. */
  predicate Contains(s: string, t: string) {
    exists i :: 0 <= i <= |s| - |t| && OccursAt(s, t, i)
  }

  /** What occurs within a prefix of `r` occurs in `r`. */
  lemma OccursInPrefix(r: string, d: string, t: string, i: int)
    requires |r| >= |d| && r[..|d|] == d && OccursAt(d, t, i)
    ensures Contains(r, t)
  {
    assert r[i..i + |t|] == r[..|d|][i..i + |t|];
    assert OccursAt(r, t, i);
  }

  /** Whatever the notes, trimming never reaches into the details: the message begins with all of them. */
  lemma MessageExtendsDetails(f: FormData, currency: string)
    ensures var r := DetailedMessageWith(f, currency); var d := Details(f, currency);
      |r| >= |d| && r[..|d|] == d
  {
    var d := Details(f, currency);
    if f.notes == "" {
      MessageWithoutNotes(f, currency);
      PrefixOfConcat(d, "\n", NoNotes);
    } else if Blank(f.notes) {
      MessageWithBlankNotes(f, currency);
      PrefixOfConcat(d, [], []);
    } else {
      MessageWithNotes(f, currency);
      PrefixOfConcat(d, "\n", TrimEnd(f.notes));
    }
  }

  /** `d` is the prefix of `d + a + b` of its own length. */
  lemma PrefixOfConcat(d: string, a: string, b: string)
    ensures (d + a + b)[..|d|] == d
  {
  }

  /** The message always opens with its title, so it is never empty and the endpoint always shows it. */
  lemma DetailedMessageOpensWithTitle(f: FormData, currency: string)
    ensures var r := DetailedMessageWith(f, currency);
      |r| >= |RequestTitle| && r[..|RequestTitle|] == RequestTitle
  {
    var d := Details(f, currency);
    var r := DetailedMessageWith(f, currency);
    DetailsEndsVisible(f, currency);
    MessageExtendsDetails(f, currency);
    PrefixOfPrefix(r, d, |RequestTitle|);
  }

  /** A prefix of a prefix of `r` is a prefix of `r`. */
  lemma PrefixOfPrefix(r: string, d: string, k: nat)
    requires k <= |d| <= |r| && r[..|d|] == d
    ensures r[..k] == d[..k]
  {
    assert r[..k] == r[..|d|][..k];
  }

  /** The rent line, currency sign included, appears in the message whatever the notes. */
  lemma DetailedMessageShowsRent(f: FormData, currency: string)
    ensures Contains(DetailedMessageWith(f, currency), RentLine(f, currency))
  {
    RentLineInDetails(f, currency);
    MessageExtendsDetails(f, currency);
    OccursInPrefix(DetailedMessageWith(f, currency), Details(f, currency), RentLine(f, currency),
                   |RequestTitle| + |PropertyFacts(f)|);
  }

  /** The intended message quotes the expected rent in rupees. */
  lemma DetailedMessageQuotesRupees(f: FormData)
    ensures Contains(DetailedMessage(f), "\n- Expected Rent: " + Rupee + f.expectedRent)
  {
    DetailedMessageShowsRent(f, Rupee);
  }

  /** Where the rent line sits in the details: right after the title and the other property lines. */
  lemma RentLineInDetails(f: FormData, currency: string)
    ensures OccursAt(Details(f, currency), RentLine(f, currency), |RequestTitle| + |PropertyFacts(f)|)
  {
    var head := RequestTitle + PropertyFacts(f);
    var line := RentLine(f, currency);
    assert Details(f, currency) == head + line + NotesLabel;
    MiddleSlice(head, line, NotesLabel);
  }

  /** The middle part of a three-part text is the slice between the other two. */
  lemma MiddleSlice(a: string, b: string, c: string)
    ensures (a + b + c)[|a|..|a| + |b|] == b
  {
  }

  /** The message as written carries two characters more than the intended one, and so differs from it. */
  lemma RentCurrencyMisencoded(f: FormData)
    ensures |DetailedMessageWith(f, MisencodedRupee)| == |DetailedMessage(f)| + 2
    ensures DetailedMessageWith(f, MisencodedRupee) != DetailedMessage(f)
  {
    if f.notes == "" {
      MessageWithoutNotes(f, MisencodedRupee);
      MessageWithoutNotes(f, Rupee);
    } else if Blank(f.notes) {
      MessageWithBlankNotes(f, MisencodedRupee);
      MessageWithBlankNotes(f, Rupee);
    } else {
      MessageWithNotes(f, MisencodedRupee);
      MessageWithNotes(f, Rupee);
    }
  }

  // ---------------------------------------------------------------- the request

  /** The object `handleSubmit` serialises, with `currency` before the rent. */
  function PayloadWith(f: FormData, currency: string): Payload {
    Payload(f.name, f.email, f.phone, DetailedMessageWith(f, currency), f.serviceType)
  }

  /** The payload with the intended rupee sign; the component posts this one. */
  function PayloadOf(f: FormData): Payload {
    PayloadWith(f, Rupee)
  }

  /** The body the contact endpoint receives for a payload: no date and no property name. */
  function RequestBody(p: Payload): Body {
    Json(Submission(Text(p.name), Text(p.email), Text(p.phone), Text(p.message), Text(p.serviceType), Absent, Absent))
  }

  /**
   * How the endpoint reads any request this form posts: it is accepted exactly
   * when name, email and phone are non-empty, and the staff subject is the
   * prefix followed by the service type alone (no property name is ever sent).
   */
  lemma EndpointAcceptsAndTitles(p: Payload)
    ensures var s := RequestBody(p).submission;
      (HasRequired(s) <==> p.name != "" && p.email != "" && p.phone != "") &&
      ContactRoute.AdminSubject(s.serviceType, s.propertyName) == ContactRoute.SubjectPrefix + p.serviceType
  {
    var s := RequestBody(p).submission;
    var r := ContactRoute.AdminSubject(s.serviceType, s.propertyName);
    var t := ContactRoute.SubjectPrefix + p.serviceType;
    assert Shown(s.serviceType) == p.serviceType && !Truthy(s.propertyName);
    assert r == r[..|t|];
  }

  /** Whatever the currency sign, the message this form sends is a non-empty string, so the staff mail is always built. */
  lemma EndpointBuildsStaffMail(f: FormData, currency: string, env: ContactRoute.Env)
    ensures var s := RequestBody(PayloadWith(f, currency)).submission;
      Truthy(s.message) && ContactRoute.AdminHtml(s, env).Some?
  {
    DetailedMessageOpensWithTitle(f, currency);
  }

  /**
   * The staff mail for this form's request, with either currency sign, always
   * carries the message block, and never the property banner or a preferred date.
   */
  lemma EndpointStaffMail(f: FormData, currency: string, env: ContactRoute.Env)
    ensures var s := RequestBody(PayloadWith(f, currency)).submission;
      ContactRoute.AdminHtml(s, env).Some? &&
      ContactRoute.Title(ContactRoute.MessageHeading) in ContactRoute.AdminHtml(s, env).value &&
      ContactRoute.Title(ContactRoute.PropertyInquiry) !in ContactRoute.AdminHtml(s, env).value &&
      !ContactRoute.HasCaption(ContactRoute.AdminHtml(s, env).value, ContactRoute.DateCaption)
  {
    var s := RequestBody(PayloadWith(f, currency)).submission;
    EndpointBuildsStaffMail(f, currency, env);
    ContactRoute.AdminMessageIffMessage(s, env);
    ContactRoute.AdminBannerIffProperty(s, env);
    ContactRoute.AdminDateIffPreferredDate(s, env);
  }

  // ---------------------------------------------------------------- the component

  /** The form's state, hook by hook. */
  class Form {
    var open: bool
    var loading: bool
    var success: bool
    var error: string
    var formData: FormData
    /** The 3-second timer started by a successful submit has not fired yet. */
    var redirectPending: bool
    /** The page has been sent to `/thank-you`. */
    var navigated: bool

    /** The error banner is empty or the one fixed message, and the service type is never edited. */
    ghost predicate Valid()
      reads this
    {
      (error == "" || error == SendFailure) && formData.serviceType == ServiceLabel
    }

    /** Everything but the form record. */
    ghost function Flags(): (bool, bool, bool, string, bool, bool)
      reads this
    {
      (open, loading, success, error, redirectPending, navigated)
    }

    constructor ()
      ensures Valid()
      ensures !open && !loading && !success && error == "" && !redirectPending && !navigated
      ensures formData == InitialFormData
      ensures forall field :: Get(formData, field) == ""
      ensures formData.serviceType == ServiceLabel
    {
      open, loading, success, error := false, false, false, "";
      formData := InitialFormData;
      redirectPending, navigated := false, false;
    }

    /** `handleInputChange`: only the named input changes. */
    method HandleInputChange(field: FieldName, value: string)
      requires Valid()
      modifies this
      ensures Valid()
      ensures formData == WithField(old(formData), field, value)
      ensures Flags() == old(Flags())
    {
      formData := WithField(formData, field, value);
    }

    /** The synchronous start of `handleSubmit`: spinner on, error cleared, request built from the current record. */
    method BeginSubmit() returns (payload: Payload)
      requires Valid()
      modifies this
      ensures Valid()
      ensures loading && error == ""
      ensures payload == PayloadOf(formData) && formData == old(formData)
      ensures (open, success, redirectPending, navigated) == old((open, success, redirectPending, navigated))
    {
      loading := true;
      error := "";
      payload := PayloadOf(formData);
    }

    /** The rest of `handleSubmit`, once `fetch` has settled. */
    method FinishSubmit(result: FetchResult)
      requires Valid()
      modifies this
      ensures Valid()
      ensures !loading
      ensures result == OkResponse ==>
        success && redirectPending && error == old(error) && formData == InitialFormData
      ensures result != OkResponse ==>
        error == SendFailure && success == old(success) && redirectPending == old(redirectPending) &&
        formData == old(formData)
      ensures open == old(open) && navigated == old(navigated)
    {
      if result == OkResponse {
        success := true;
        formData := InitialFormData;
        redirectPending := true;
      } else {
        error := SendFailure;
      }
      loading := false;
    }

    /** `handleSubmit` from start to finish; `payload` is what was posted. */
    method HandleSubmit(result: FetchResult) returns (payload: Payload)
      requires Valid()
      modifies this
      ensures Valid()
      ensures payload == PayloadOf(old(formData))
      ensures !loading
      ensures result == OkResponse ==>
        success && redirectPending && error == "" && formData == InitialFormData
      ensures result != OkResponse ==>
        error == SendFailure && success == old(success) && redirectPending == old(redirectPending) &&
        formData == old(formData)
      ensures open == old(open) && navigated == old(navigated)
    {
      payload := BeginSubmit();
      FinishSubmit(result);
    }

    /** The timer callback: close the dialog, drop the confirmation, go to the thank-you page. */
    method FireRedirectTimer()
      requires Valid() && redirectPending
      modifies this
      ensures Valid()
      ensures !open && !success && navigated && !redirectPending
      ensures formData == old(formData) && (loading, error) == old((loading, error))
    {
      open := false;
      success := false;
      navigated := true;
      redirectPending := false;
    }

    /** `resetForm`: the same record as the initial one. */
    method ResetForm()
      requires Valid()
      modifies this
      ensures Valid()
      ensures formData == InitialFormData && error == "" && !success
      ensures (open, loading, redirectPending, navigated) == old((open, loading, redirectPending, navigated))
    {
      formData := InitialFormData;
      error := "";
      success := false;
    }

    /** `handleOpenChange`: the dialog opening, or closing by Escape or a click outside. */
    method HandleOpenChange(isOpen: bool)
      requires Valid()
      modifies this
      ensures Valid()
      ensures open == isOpen
      ensures isOpen ==> formData == old(formData) && Flags() == old(Flags()).(0 := true)
      ensures !isOpen ==>
        formData == InitialFormData && error == "" && !success &&
        (loading, redirectPending, navigated) == old((loading, redirectPending, navigated))
    {
      open := isOpen;
      if !isOpen {
        ResetForm();
      }
    }

    /** The header's close button: it sets `open` directly, so nothing is reset. */
    method PressCloseButton()
      requires Valid()
      modifies this
      ensures Valid()
      ensures !open && formData == old(formData)
      ensures (loading, success, error, redirectPending, navigated) ==
              old((loading, success, error, redirectPending, navigated))
    {
      open := false;
    }
  }
}
