/** The dashboard's custom prompt requests: the submission form (validation,
    the inserted row, how the backend's reply is reported) and the list of
    the user's requests with a badge per status. The one-pending-request-per-
    week limit is enforced by the backend and only seen through its reply. */
module PromptRequests {
  import opened Types
  import opened Text

  /** The status every new request is inserted with. */
  const PendingStatus: string := "Pending"

  /** The text the form looks for in a rejected insert's message. */
  const RequestLimitMarker: string := "one pending request per week"

  /** A row of the `prompt_requests` table. */
  datatype PromptRequest = PromptRequest(id: string, userId: string, requestDetails: string,
                                         status: string, completedPromptId: Option<string>,
                                         createdAt: string)

  /** The row the form inserts. */
  datatype RequestInsert = RequestInsert(userId: string, requestDetails: string, status: string)

  /** The notice a submission ends with. */
  datatype SubmitNotice =
    | LoginRequired
    | DetailsRequired
    | RequestLimitReached
    | SubmitFailed
    | Submitted
    | Unexpected

  /** The form's state: the text area and the loading flag. */
  datatype FormState = FormState(details: string, loading: bool)

  /** The outcome of a submission: the notice, the row inserted (if any), the
      form afterwards and how many times `onRequestSubmitted` was called. */
  datatype SubmitResult = SubmitResult(notice: SubmitNotice, insert: Option<RequestInsert>,
                                       form: FormState, callbacks: nat)

  /** How the form reports an error returned by the insert. */
  function ClassifySubmitError(e: DbError): (n: SubmitNotice)
    ensures n == RequestLimitReached <==> Includes(e.message, RequestLimitMarker)
    ensures n == RequestLimitReached || n == SubmitFailed
  {
    if Includes(e.message, RequestLimitMarker) then RequestLimitReached else SubmitFailed
  }

  /** `handleSubmit`, given the form, the user and the reply the insert would get. */
  function HandleSubmit(form: FormState, user: Option<AuthUser>, reply: Reply<()>): (r: SubmitResult)
    // Validation: a user, then details that are not all whitespace; otherwise nothing is sent.
    ensures user.None? ==> r == SubmitResult(LoginRequired, None, form, 0)
    ensures user.Some? && AllWhitespace(form.details) ==>
              r == SubmitResult(DetailsRequired, None, form, 0)
    ensures r.insert.Some? <==> user.Some? && !AllWhitespace(form.details)
    // The inserted row: the user's id, the trimmed details, status Pending.
    ensures r.insert.Some? ==>
              && r.insert.value == RequestInsert(user.value.id, Trim(form.details), PendingStatus)
              && r.insert.value.requestDetails != []
              && !r.form.loading
    // Reporting the reply.
    ensures r.notice == Submitted <==> r.insert.Some? && reply.Rows?
    ensures r.notice == RequestLimitReached <==>
              r.insert.Some? && reply.Failed? && Includes(reply.error.message, RequestLimitMarker)
    ensures r.notice == SubmitFailed <==>
              r.insert.Some? && reply.Failed? && !Includes(reply.error.message, RequestLimitMarker)
    ensures r.notice == Unexpected <==> r.insert.Some? && reply.Threw?
    // Only a success clears the text and notifies the parent, exactly once.
    ensures r.notice == Submitted ==> r.form.details == [] && r.callbacks == 1
    ensures r.notice != Submitted ==> r.form.details == form.details && r.callbacks == 0
  {
    if user.None? then SubmitResult(LoginRequired, None, form, 0)
    else
      var details := Trim(form.details);
      if details == [] then SubmitResult(DetailsRequired, None, form, 0)
      else
        var row := Some(RequestInsert(user.value.id, details, PendingStatus));
        match reply
        case Rows(_) => SubmitResult(Submitted, row, FormState([], false), 1)
        case Failed(e) => SubmitResult(ClassifySubmitError(e), row, form.(loading := false), 0)
        case Threw(_) => SubmitResult(Unexpected, row, form.(loading := false), 0)
  }

  /** The submit button is disabled while loading or while the details are
      empty after trimming. */
  function SubmitDisabled(form: FormState): (disabled: bool)
    ensures disabled <==> form.loading || AllWhitespace(form.details)
  {
    form.loading || Trim(form.details) == []
  }

  /** An enabled button means validation passes: a logged-in user's click
      always sends a row. */
  lemma EnabledSubmitSends(form: FormState, u: AuthUser, reply: Reply<()>)
    requires !SubmitDisabled(form)
    ensures HandleSubmit(form, Some(u), reply).insert.Some?
  {
  }

  /** After a successful submission the button is disabled until the user
      types again. */
  lemma SubmittedFormIsDisabled(form: FormState, u: AuthUser)
    requires !AllWhitespace(form.details)
    ensures SubmitDisabled(HandleSubmit(form, Some(u), Rows(())).form)
  {
  }

  /** The toast shown for each notice. */
  function NoticeToast(n: SubmitNotice): (t: Toast)
    ensures t.destructive <==> n != Submitted
  {
    match n
    case LoginRequired => Toast("Error", "You must be logged in to submit a request.", true)
    case DetailsRequired => Toast("Error", "Please provide details for your prompt request.", true)
    case RequestLimitReached =>
      Toast("Request Limit Reached",
            "You can only have one pending request per week. Please wait for your current request to be processed.",
            true)
    case SubmitFailed => Toast("Error", "Failed to submit your request. Please try again.", true)
    case Submitted => Toast("Success!", "Your prompt request has been submitted successfully.", false)
    case Unexpected => Toast("Error", "An unexpected error occurred. Please try again.", true)
  }

  // ---------------------------------------------------------------------------
  // The request list
  // ---------------------------------------------------------------------------

  datatype BadgeVariant = Secondary | Default | Outline

  /** The badge of a status, compared after lower-casing. */
  function StatusVariant(status: string): (v: BadgeVariant)
    ensures v == Secondary <==> Lower(status) == "pending"
    ensures v == Default <==> Lower(status) == "in progress" || Lower(status) == "completed"
    ensures v == Outline <==>
              Lower(status) != "pending" && Lower(status) != "in progress" && Lower(status) != "completed"
  {
    var s := Lower(status);
    if s == "pending" then Secondary
    else if s == "in progress" then Default
    else if s == "completed" then Default
    else Outline
  }

  /** `a` and `b` differ at most in the case of ASCII letters. */
  predicate SameIgnoringCase(a: string, b: string) {
    |a| == |b| && forall i :: 0 <= i < |a| ==> LowerChar(a[i]) == LowerChar(b[i])
  }

  /** The badge does not depend on letter case. */
  lemma StatusVariantIgnoresCase(a: string, b: string)
    requires SameIgnoringCase(a, b)
    ensures StatusVariant(a) == StatusVariant(b)
  {
    assert Lower(a) == Lower(b);
  }

  /** The three statuses the backend uses get their intended badges. */
  lemma KnownStatusVariants()
    ensures StatusVariant("Pending") == Secondary
    ensures StatusVariant("In Progress") == Default
    ensures StatusVariant("Completed") == Default
  {
    assert Lower("Pending") == "pending";
    assert Lower("In Progress") == "in progress";
    assert Lower("Completed") == "completed";
  }

  /** The list's state. */
  datatype ListState = ListState(requests: seq<PromptRequest>, loading: bool)

  const InitialListState: ListState := ListState([], true)

  /** The query the list makes: the user's own rows, newest first. */
  datatype RequestQuery = RequestsOfUser(userId: string)

  datatype ListNotice = LoadFailed | LoadUnexpected

  datatype ListFetch = ListFetch(state: ListState, query: Option<RequestQuery>, notice: Option<ListNotice>)

  /** `fetchRequests`, given the reply the query would get (`null` or rows on success). */
  function FetchRequests(s: ListState, user: Option<AuthUser>,
                         reply: Reply<Option<seq<PromptRequest>>>): (r: ListFetch)
    ensures !r.state.loading
    // No user: an empty list, no query, no notice.
    ensures user.None? ==> r == ListFetch(ListState([], false), None, None)
    ensures user.Some? ==> r.query == Some(RequestsOfUser(user.value.id))
    // Rows replace the list; a `null` reply empties it.
    ensures user.Some? && reply.Rows? ==>
              r.notice.None? && r.state.requests == reply.value.GetOr([])
    // A failure keeps the previous list and raises a notice.
    ensures user.Some? && reply.Failed? ==> r.state.requests == s.requests && r.notice == Some(LoadFailed)
    ensures user.Some? && reply.Threw? ==>
              r.state.requests == s.requests && r.notice == Some(LoadUnexpected)
  {
    match user
    case None => ListFetch(ListState([], false), None, None)
    case Some(u) =>
      var q := Some(RequestsOfUser(u.id));
      match reply
      case Rows(rows) => ListFetch(ListState(rows.GetOr([]), false), q, None)
      case Failed(_) => ListFetch(ListState(s.requests, false), q, Some(LoadFailed))
      case Threw(_) => ListFetch(ListState(s.requests, false), q, Some(LoadUnexpected))
  }
}
