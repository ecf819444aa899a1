# Cohousy contact pipeline — a Dafny model

This project models the part of the Cohousy website that takes an enquiry from a visitor and turns it into email:

- **The contact endpoint** `POST /api/contact` (`ContactRoute`):
  - it reads a JSON body and demands a truthy name, email and phone (400 otherwise);
  - it builds a staff notification and an auto-reply;
  - it awaits the mail relay twice, staff mail first;
  - it answers 200 when both sends succeed, and 500 when the body does not parse or anything throws.
- **The body both forms post** (`Wire`). Each destructured member is absent, a JSON string, or another JSON value, and is read with JavaScript truthiness and template rendering.
- **The general contact dialog** (`ContactFormDialog`) is a class whose fields are the component's state hooks and whose methods are its handlers:
  - input change and date pick;
  - submit, split into its synchronous start and its completion once `fetch` settles;
  - the 3-second redirect timer;
  - reset, open-change, and the header's close button.
- **The property-management quote form** (`PropertyManagementForm`). It is the same component shape over nine inputs. Its property details are folded into one trimmed `message` text. The trimming is modelled on `String.prototype.trim` (`JsString`).
- **Three single-open accordions** (`Accordion`, `ServicesOffered`, `PropertyManagementFaq`, `ServicesFaq`):
  - a click closes the open item, or opens the clicked one and closes any other;
  - the services list starts with card 0 open;
  - the property-management FAQ starts with all items closed;
  - the services FAQ starts with the item whose id is 1 open.

The route is written twice:
- `Handle` is the whole request as a function of the body, the environment and the relay's answers.
- `Post` performs the same request as ordered effects on a `MailRelay` object, and is proved equal to `Handle`.

Modelling choices:
- The relay is a script of booleans: call `i` succeeds iff `i < |script| && script[i]`.
- Email bodies are sequences of blocks: headings, `Caption: value` entries and paragraphs. The HTML markup and styles are not modelled.

## Model

| member | source | states |
|---|---|---|
| ContactRoute.Handle | src/app/api/contact/route.ts:4-124 | every request ends in 200, 400 or 500; at most two sends are tried; 200 exactly when both messages were accepted; every accepted message was delivered by the relay |
| ContactRoute.Dispatch | src/app/api/contact/route.ts:99-115 | the two awaited sends: the accepted messages are a prefix of [staff mail, auto-reply], and the first failure ends the request with 500 |
| ContactRoute.MissingFieldsRejected | src/app/api/contact/route.ts:9-14 | a falsy name, email or phone gives 400 "Missing required fields" before any mail is built or sent |
| ContactRoute.BadRequestOnlyForMissingFields | src/app/api/contact/route.ts:9-14 | status 400 occurs exactly for a parsed body that lacks a mandatory member |
| ContactRoute.MalformedBodyIsServerError | src/app/api/contact/route.ts:117-122 | a body `request.json()` rejects is caught by the outer handler: 500 "Failed to send message", no mail |
| ContactRoute.AdminMailGoesFirst | src/app/api/contact/route.ts:99-105 | the first accepted message goes from FROM_EMAIL to ADMIN_EMAIL with the staff subject and body, and only for a valid body |
| ContactRoute.AutoReplyGoesSecond | src/app/api/contact/route.ts:107-113 | the second accepted message goes from the same sender to the submitted email, with the fixed subject and the thank-you body |
| ContactRoute.UnrenderableMemberIsServerError | src/app/api/contact/route.ts:45-49 | a member that throws when converted to text makes the whole request 500, with no mail sent |
| ContactRoute.FirstSendFailureAborts | src/app/api/contact/route.ts:100-105 | when the staff send fails the auto-reply is never attempted and the answer is 500 |
| ContactRoute.SecondSendFailure | src/app/api/contact/route.ts:107-122 | when the auto-reply fails the staff mail has already gone out, yet the answer is 500 |
| ContactRoute.DispatchFailuresLookAlike | src/app/api/contact/route.ts:117-122 | the two send failures give the same response |
| ContactRoute.SuccessIffBothDelivered | src/app/api/contact/route.ts:100-115 | 200 iff the body parsed, the mandatory members are present, the staff body could be built and both sends succeeded |
| ContactRoute.ScenarioPlainInquiry | src/app/api/contact/route.ts:100-113 | a plain enquiry on a healthy relay: 200, subject "New Contact Form Submission - Co-living", auto-reply to the submitter |
| ContactRoute.ScenarioPropertyInquiry | src/app/api/contact/route.ts:35-40 | a property enquiry: subject ends with " - " and the property, the staff mail carries the banner, the auto-reply the Property entry |
| ContactRoute.ScenarioUnconvertibleName | src/app/api/contact/route.ts:45 | a name such as `{"toString": 1}` passes the 400 check but the request ends in 500 with nothing sent |
| ContactRoute.AdminSubject | src/app/api/contact/route.ts:103 | the subject begins with the prefix and the service; it is longer exactly when the property name is truthy, and then ends with " - " and the property |
| ContactRoute.SubjectIdentifiesProperty | src/app/api/contact/route.ts:103 | for one service, equal subjects mean both have no property or both name the same one |
| ContactRoute.ReplaceNewlines | src/app/api/contact/route.ts:55 | the staff body's message has no line feed left, and a message without line feeds is unchanged |
| ContactRoute.RestoreReplacedNewlines | src/app/api/contact/route.ts:55 | a message without '<' is recovered exactly by reading each `<br>` back as a line feed |
| ContactRoute.BreakTagAndNewlineLookAlike | src/app/api/contact/route.ts:55 | a typed `<br>` and a line feed render the same, so the replacement is not invertible in general |
| ContactRoute.AdminHtml | src/app/api/contact/route.ts:28-68 | building the staff body throws exactly when a member it shows does not convert to text, or the message is truthy but not a string |
| ContactRoute.AdminHtmlListsContact | src/app/api/contact/route.ts:44-48 | the staff body lists name, email, phone and service |
| ContactRoute.AdminBannerIffProperty | src/app/api/contact/route.ts:35-40 | the "Property Inquiry" banner appears, naming the property, exactly when the property name is truthy |
| ContactRoute.AdminDateIffPreferredDate | src/app/api/contact/route.ts:49 | the staff body's "Preferred Date" entry appears exactly when a date was submitted |
| ContactRoute.MessageBlock | src/app/api/contact/route.ts:52-57 | the message block throws exactly for a truthy non-string message; otherwise its heading appears exactly when the message is truthy |
| ContactRoute.AdminMessageIffMessage | src/app/api/contact/route.ts:52-57 | the message block appears exactly when the message is truthy, with line feeds as `<br>` |
| ContactRoute.UserHtml | src/app/api/contact/route.ts:71-97 | the auto-reply greets the submitter by name and lists the service |
| ContactRoute.UserPropertyIffProperty | src/app/api/contact/route.ts:85 | the auto-reply's Property entry appears exactly when the property name is truthy |
| ContactRoute.UserDateIffPreferredDate | src/app/api/contact/route.ts:86 | the auto-reply's "Preferred Date" entry appears exactly when a date was submitted |
| ContactRoute.MailRelay.SendMail | src/app/api/contact/route.ts:100-113 | one relay call: it consumes one scripted answer and logs the message exactly when accepted |
| ContactRoute.MailRelay.constructor | src/app/api/contact/route.ts:17-25 | a fresh transport with the given answers and nothing sent yet |
| ContactRoute.Post | src/app/api/contact/route.ts:4-124 | the handler's effects: its response, the messages the relay logged and the answers it used are those of `Handle` |
| ContactRoute.PostTwice | src/app/api/contact/route.ts:4-124 | requests share no state: the same valid body posted twice on a healthy relay is answered 200 twice and mailed twice |
| JsString.TrimStart | src/components/propertymanagement/PropertyManagementForm.tsx:83 | the result is a suffix of the input, what was cut is all whitespace, and the result starts visibly or is empty |
| JsString.TrimEnd | src/components/propertymanagement/PropertyManagementForm.tsx:83 | the result is a prefix of the input, what was cut is all whitespace, and the result ends visibly or is empty |
| JsString.TrimIsBlankCut | src/components/propertymanagement/PropertyManagementForm.tsx:83 | the result is a slice of the input with only whitespace cut on both sides, it starts and ends visibly, and it is empty exactly when the input is blank |
| JsString.TrimEndBlankSuffix | src/components/propertymanagement/PropertyManagementForm.tsx:83 | appended whitespace is exactly what trimming removes again |
| JsString.TrimEndVisibleSuffix | src/components/propertymanagement/PropertyManagementForm.tsx:83 | trimming stops inside an appended part that holds a visible character |
| ContactFormDialog.WithField | src/components/ContactFormDialog.tsx:63-69 | the named input takes the value and every other field keeps its value |
| ContactFormDialog.PayloadRoundTrip | src/components/ContactFormDialog.tsx:90-93 | the posted JSON reads back as the same form record: the date travels as its ISO text and nothing is lost |
| ContactFormDialog.EndpointView | src/components/ContactFormDialog.tsx:85-98 | the endpoint accepts the dialog's request iff name, email and phone are non-empty; the staff body always builds; the banner appears iff a non-empty property name was given |
| ContactFormDialog.InitialRecordIsRejected | src/components/ContactFormDialog.tsx:54-61 | the initial record carries the service and property props and no date; posted unchanged, the endpoint answers 400 and sends nothing |
| ContactFormDialog.Dialog.constructor | src/components/ContactFormDialog.tsx:49-61 | closed, idle, no error, empty inputs, the service and property from the props, no date |
| ContactFormDialog.Dialog.HandleInputChange | src/components/ContactFormDialog.tsx:63-69 | only the named input changes; all flags are kept |
| ContactFormDialog.Dialog.HandleDateSelect | src/components/ContactFormDialog.tsx:71-77 | the picked date (or none) replaces the date and the calendar closes |
| ContactFormDialog.Dialog.SetDateOpen | src/components/ContactFormDialog.tsx:328 | the calendar opens or closes and nothing else changes |
| ContactFormDialog.Dialog.BeginSubmit | src/components/ContactFormDialog.tsx:79-94 | spinner on, error cleared, and the posted payload built from the current record |
| ContactFormDialog.Dialog.FinishSubmit | src/components/ContactFormDialog.tsx:96-121 | on an ok response: success, record reset, redirect scheduled; otherwise the fixed error and the record kept; the spinner always off |
| ContactFormDialog.Dialog.HandleSubmit | src/components/ContactFormDialog.tsx:79-122 | the whole submit: the payload is that of the record before, followed by the completion above |
| ContactFormDialog.Dialog.FireRedirectTimer | src/components/ContactFormDialog.tsx:111-115 | the timer closes the dialog, drops the confirmation and navigates to the thank-you page |
| ContactFormDialog.Dialog.ResetForm | src/components/ContactFormDialog.tsx:125-136 | record back to its initial value, error cleared, confirmation dropped |
| ContactFormDialog.Dialog.HandleOpenChange | src/components/ContactFormDialog.tsx:138-143 | opening changes only `open`; closing also resets the form |
| ContactFormDialog.Dialog.PressCloseButton | src/components/ContactFormDialog.tsx:159-160 | the close button only sets `open` to false; the record and the flags are kept |
| PropertyManagementForm.WithField | src/components/propertymanagement/PropertyManagementForm.tsx:56-62 | the named input takes the value, every other field keeps its value, and the service type is never an input |
| PropertyManagementForm.MessageWithoutNotes | src/components/propertymanagement/PropertyManagementForm.tsx:71-83 | without notes the message is the details followed by "None" on its own line |
| PropertyManagementForm.MessageWithNotes | src/components/propertymanagement/PropertyManagementForm.tsx:71-83 | visible notes follow the details on their own line, without their trailing whitespace |
| PropertyManagementForm.MessageWithBlankNotes | src/components/propertymanagement/PropertyManagementForm.tsx:71-83 | notes made only of whitespace vanish, and the message ends at "Additional Notes:" |
| PropertyManagementForm.MessageExtendsDetails | src/components/propertymanagement/PropertyManagementForm.tsx:71-83 | trimming never reaches into the details: the message begins with all of them |
| PropertyManagementForm.DetailedMessageOpensWithTitle | src/components/propertymanagement/PropertyManagementForm.tsx:72 | the message opens with "Property Management Request:" and so is never empty |
| PropertyManagementForm.DetailedMessageShowsRent | src/components/propertymanagement/PropertyManagementForm.tsx:79 | the rent line, with its currency sign, appears in the message whatever the notes |
| PropertyManagementForm.DetailedMessageQuotesRupees | src/components/propertymanagement/PropertyManagementForm.tsx:79 | the intended message contains "- Expected Rent: ₹" followed by the expected rent |
| PropertyManagementForm.RentCurrencyMisencoded | src/components/propertymanagement/PropertyManagementForm.tsx:79 | the message as written is two characters longer than the intended one and differs from it |
| PropertyManagementForm.EndpointAcceptsAndTitles | src/components/propertymanagement/PropertyManagementForm.tsx:90-96 | the endpoint accepts the form's request iff name, email and phone are non-empty, and the staff subject is the prefix and the service type alone |
| PropertyManagementForm.EndpointBuildsStaffMail | src/components/propertymanagement/PropertyManagementForm.tsx:71-96 | whatever the currency sign, the written one included, the posted message is a non-empty string, so the staff body always builds |
| PropertyManagementForm.EndpointStaffMail | src/components/propertymanagement/PropertyManagementForm.tsx:90-96 | whatever the currency sign, the staff mail always carries the message block, and never the property banner or a date entry |
| PropertyManagementForm.Form.constructor | src/components/propertymanagement/PropertyManagementForm.tsx:39-54 | closed, idle, no error, every input empty, service type "Property Management" |
| PropertyManagementForm.Form.HandleInputChange | src/components/propertymanagement/PropertyManagementForm.tsx:56-62 | only the named input changes; all flags are kept |
| PropertyManagementForm.Form.BeginSubmit | src/components/propertymanagement/PropertyManagementForm.tsx:64-97 | spinner on, error cleared, and the payload built from the current record |
| PropertyManagementForm.Form.FinishSubmit | src/components/propertymanagement/PropertyManagementForm.tsx:99-128 | on an ok response: success, record reset, redirect scheduled; otherwise the fixed error and the record kept; the spinner always off |
| PropertyManagementForm.Form.HandleSubmit | src/components/propertymanagement/PropertyManagementForm.tsx:64-129 | the whole submit: the payload is that of the record before, followed by the completion above |
| PropertyManagementForm.Form.FireRedirectTimer | src/components/propertymanagement/PropertyManagementForm.tsx:118-122 | the timer closes the form, drops the confirmation and navigates to the thank-you page |
| PropertyManagementForm.Form.ResetForm | src/components/propertymanagement/PropertyManagementForm.tsx:131-146 | record back to its initial value, error cleared, confirmation dropped |
| PropertyManagementForm.Form.HandleOpenChange | src/components/propertymanagement/PropertyManagementForm.tsx:148-153 | opening changes only `open`; closing also resets the form |
| PropertyManagementForm.Form.PressCloseButton | src/components/propertymanagement/PropertyManagementForm.tsx:170 | the close button only sets `open` to false; the record and the flags are kept |
| Accordion.Toggle | src/components/propertymanagement/ServicesOffered.tsx:87-89 | a click opens the clicked item exactly when it was not the open one, and never opens any other |
| Accordion.SomeOpenIffKeyListed | src/components/propertymanagement/ServicesOffered.tsx:141 | some item is expanded exactly when the open key is one of the items' keys |
| Accordion.AtMostOneOpen | src/components/services/ServicesFAQ.tsx:112-122 | with distinct keys at most one item is expanded, in every state |
| Accordion.ToggleTwiceRestores | src/components/propertymanagement/PropertyManagementFAQ.tsx:52-54 | clicking the same item twice restores a state where it was open or nothing was |
| Accordion.ToggleTwiceFromOther | src/components/propertymanagement/PropertyManagementFAQ.tsx:52-54 | with another item open, clicking one item twice leaves nothing open |
| ServicesOffered.Cards | src/components/propertymanagement/ServicesOffered.tsx:8-80 | five cards, each keyed by its position |
| ServicesOffered.ServicesList.constructor | src/components/propertymanagement/ServicesOffered.tsx:85 | the first card starts expanded |
| ServicesOffered.ServicesList.ExpandedCards | src/components/propertymanagement/ServicesOffered.tsx:141 | at most one card is expanded, and it is the one `expandedService` names |
| ServicesOffered.ServicesList.ToggleService | src/components/propertymanagement/ServicesOffered.tsx:87-89 | clicking the expanded card collapses the list; any other click expands that card alone |
| ServicesOffered.FirstCardScenario | src/components/propertymanagement/ServicesOffered.tsx:85-89 | card 0 starts expanded, clicking it collapses the list, clicking again expands it alone |
| PropertyManagementFaq.Questions | src/components/propertymanagement/PropertyManagementFAQ.tsx:8-45 | nine questions, each keyed by its position |
| PropertyManagementFaq.FaqList.constructor | src/components/propertymanagement/PropertyManagementFAQ.tsx:50 | every answer starts closed |
| PropertyManagementFaq.FaqList.OpenAnswers | src/components/propertymanagement/PropertyManagementFAQ.tsx:105 | at most one answer is shown, and it is the one `activeIndex` names |
| PropertyManagementFaq.FaqList.ToggleFaq | src/components/propertymanagement/PropertyManagementFAQ.tsx:52-54 | clicking the open question closes it; any other click opens that question alone |
| PropertyManagementFaq.OpenThenCloseScenario | src/components/propertymanagement/PropertyManagementFAQ.tsx:50-54 | from the initial state, clicking any question opens it and a second click closes it |
| ServicesFaq.FaqIdsDistinct | src/components/services/ServicesFAQ.tsx:8-33 | the five question ids 1 to 5 are distinct, so ids key the answers one to one |
| ServicesFaq.FaqList.constructor | src/components/services/ServicesFAQ.tsx:38 | the question with id 1 starts open |
| ServicesFaq.FaqList.OpenAnswers | src/components/services/ServicesFAQ.tsx:122 | at most one answer is shown, and it is the one whose id is `openId` |
| ServicesFaq.FaqList.ToggleFaq | src/components/services/ServicesFAQ.tsx:40-42 | clicking the open question closes it; any other click opens that question alone |
| ServicesFaq.FirstQuestionScenario | src/components/services/ServicesFAQ.tsx:38-42 | question 1 starts open, clicking it closes every answer, clicking again reopens it |

## Left out

- SMTP transport setup, credentials and nodemailer internals: the relay is the scripted `MailRelay`, and a send either succeeds or throws.
- FROM_EMAIL and ADMIN_EMAIL, the clock's `toLocaleString()` text and the server's `toLocaleDateString()` rendering of a submitted date are inputs (`Env`). Parsing a date string with `new Date(...)` is not modelled.
- `console.error` logging on the error path.
- HTML markup, inline styles and the order of blocks inside one section: email bodies are sequences of blocks.
- The dialogs' rendering, icons, animations (framer-motion) and `useInView` scroll triggers.
- `fetch` and `setTimeout` are not modelled as such. A submit is split at the await into `BeginSubmit` and `FinishSubmit`, with the response as a `FetchResult` parameter. The timer is the `redirectPending` flag and its callback `FireRedirectTimer`. Navigation is the `navigated` flag.
- A submit fired while another is in flight, or a timer firing after the dialog was reopened: the model runs one handler at a time.
- Browser-side `required` checks on inputs, and the calendar's refusal of past days: these are the browser's and the date picker's behaviour. The model accepts any input value, as the handlers do.
- `ContactRoute.Handle`: a body that is JSON `null` is treated as malformed (500), because destructuring it throws. Any other non-object JSON value has all seven members absent (400). A JSON value other than a string is represented only by its truthiness and by the text it converts to, or by the fact that converting it throws (`Wire.NonText`); which objects throw is not derived from their members.
- The static text of the accordions (titles, answers, features) and the other page sections: only the open/closed state is modelled.
- The WhatsApp button, the sitemap, the page layouts and the thank-you page: they take no part in the enquiry flow.
- Closing: the header's close button calls `setOpen(false)` directly (ContactFormDialog.tsx:160, PropertyManagementForm.tsx:170), so, unlike Escape or a click outside, it resets nothing (`PressCloseButton`).
- PropertyManagementForm.Form.BeginSubmit: the payload is built with the intended rupee sign (`PayloadOf`), not the three characters the code writes (see Findings). The payload as written is `PayloadWith(f, MisencodedRupee)`; `EndpointBuildsStaffMail` and `EndpointStaffMail` hold for it too, since they take any currency sign.
- PropertyManagementForm.Form.HandleSubmit: posts the corrected payload, as `BeginSubmit` does.

## Findings

| source | as written | input that shows it | evidently intended | confidence | as-written member | corrected member |
|---|---|---|---|---|---|---|
| src/components/propertymanagement/PropertyManagementForm.tsx:79 | the rent line's currency sign is the three characters "â‚¹", the rupee sign's UTF-8 bytes decoded as Windows-1252 | any form record, for example expected rent "25000": the message reads "- Expected Rent: â‚¹25000" | the rupee sign "₹", as PropertyManagementFAQ.tsx:19 writes it | not executed | PropertyManagementForm.RentCurrencyMisencoded | PropertyManagementForm.DetailedMessageQuotesRupees |
