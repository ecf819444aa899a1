/**
 * The JSON request body of the contact endpoint, as the route handler sees it
 * after `request.json()` and destructuring. Both contact forms produce it, and
 * the handler consumes it.
 */
module Wire {
  import opened Optional

  /**
   * One destructured member of the body. `Absent` is a key that is not there
   * (`undefined`); `Text` is a JSON string; `NonText` stands for every other
   * JSON value (null, a boolean, a number, an array, an object), described by
   * its JavaScript truthiness and by what converting it to text gives. That
   * conversion throws (None) for an object whose own `toString` and `valueOf`
   * yield no primitive, such as `{"toString": 1}`.
   */
  datatype Field =
    | Absent
    | Text(s: string)
    | NonText(truthy: bool, shown: Option<string>)

  /** JavaScript truthiness, as tested by `!name` and by `${x ? ... : ''}`. */
  predicate Truthy(f: Field) {
    match f
    case Absent => false
    case Text(s) => s != ""
    case NonText(t, _) => t
  }

  /** Converting the member to text (`${f}`, `new Date(f)`) does not throw. */
  predicate Renders(f: Field) {
    !f.NonText? || f.shown.Some?
  }

  /** What a template literal `${f}` inserts. */
  function Shown(f: Field): string
    requires Renders(f)
  {
    match f
    case Absent => "undefined"
    case Text(s) => s
    case NonText(_, shown) => shown.value
  }

  /** The seven members the handler destructures from the body. */
  datatype Submission = Submission(
    name: Field,
    email: Field,
    phone: Field,
    message: Field,
    serviceType: Field,
    preferredDate: Field,
    propertyName: Field)

  /**
   * A request body: one that `request.json()` rejects, or one that cannot be
   * destructured (JSON `null`), is `Malformed`; anything else yields the seven
   * members (all `Absent` for a number, a string or an array).
   */
  datatype Body = Malformed | Json(submission: Submission)

  /** The `!name || !email || !phone` test, negated. */
  predicate HasRequired(s: Submission) {
    Truthy(s.name) && Truthy(s.email) && Truthy(s.phone)
  }

  /** What a form's `fetch('/api/contact', ...)` yields: a response whose `ok` is true or false, or a rejection. */
  datatype FetchResult = OkResponse | ErrorResponse | NetworkError
}
