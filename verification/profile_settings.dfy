/** The profile settings page: the username rule, prefilling the form from
    the stored row, and saving a new username. */
module ProfileSettings {
  import opened Types
  import opened Text
  import AuthForms

  const MinUsernameLength: nat := 3
  const MaxUsernameLength: nat := 20

  const TooShortMessage: string := "Username must be at least 3 characters."
  const TooLongMessage: string := "Username must be at most 20 characters."

  /** The schema's verdict on a username: the messages of the rules it
      breaks (lengths in UTF-16 code units). */
  function UsernameIssues(username: string): (issues: seq<string>)
    ensures issues == [] <==> MinUsernameLength <= Utf16Length(username) <= MaxUsernameLength
    ensures TooShortMessage in issues <==> Utf16Length(username) < MinUsernameLength
    ensures TooLongMessage in issues <==> Utf16Length(username) > MaxUsernameLength
    ensures forall m :: m in issues ==> m == TooShortMessage || m == TooLongMessage
  {
    (if Utf16Length(username) >= MinUsernameLength then [] else [TooShortMessage])
    + (if Utf16Length(username) <= MaxUsernameLength then [] else [TooLongMessage])
  }

  /** For usernames of BMP characters the rule is 3 to 20 characters. */
  lemma BmpUsernameRule(username: string)
    requires forall i :: 0 <= i < |username| ==> username[i] as int <= 0xFFFF
    ensures UsernameIssues(username) == [] <==> 3 <= |username| <= 20
  {
    Utf16LengthOfBmp(username);
  }

  /** The `username` column of the user's row. */
  datatype UsernameRow = UsernameRow(username: Option<string>)

  /** What loading the page's row produces: a value for the form and an
      error toast, each optional. */
  datatype Prefill = Prefill(formValue: Option<string>, errorToast: Option<Toast>)

  /** Loading the row once a user is known. "No row" is not an error; the
      form is filled only from a non-empty stored username. */
  function LoadUsername(user: Option<AuthUser>, reply: Reply<UsernameRow>): (p: Prefill)
    ensures user.None? ==> p == Prefill(None, None)
    ensures p.formValue.Some? <==>
              user.Some? && reply.Rows? && reply.value.username.Some? && reply.value.username.value != []
    ensures p.formValue.Some? ==> p.formValue == reply.value.username
    ensures p.errorToast.Some? <==>
              user.Some? && (reply.Threw? || (reply.Failed? && reply.error.code != NotFoundCode))
    ensures p.errorToast.Some? ==>
              p.errorToast.value.destructive && p.errorToast.value.description == FailureMessage(reply)
  {
    match user
    case None => Prefill(None, None)
    case Some(_) =>
      match reply
      case Rows(row) =>
        if row.username.Some? && row.username.value != [] then Prefill(row.username, None)
        else Prefill(None, None)
      case Failed(e) =>
        if e.code == NotFoundCode then Prefill(None, None)
        else Prefill(None, Some(Toast("Error fetching profile", e.message, true)))
      case Threw(m) => Prefill(None, Some(Toast("Error fetching profile", m, true)))
  }

  /** A user without a row sees an empty form and no error. */
  lemma MissingRowIsTolerated(u: AuthUser, message: string)
    ensures LoadUsername(Some(u), Failed(DbError(NotFoundCode, message))) == Prefill(None, None)
  {
  }

  /** The update the page sends: the `username` column of the user's own row. */
  datatype UsernameUpdate = UsernameUpdate(rowId: string, username: string)

  /** The outcome of submitting the form. */
  datatype SaveOutcome =
    | Invalid(issues: seq<string>)
    | Saved(update: Option<UsernameUpdate>, toast: Option<Toast>, navigate: Option<string>)

  /** Submitting the form: the schema first, then (with a user) one update
      of the username alone; success leads to the dashboard. */
  function SaveUsername(user: Option<AuthUser>, username: string, reply: Reply<()>): (o: SaveOutcome)
    ensures o.Invalid? <==> UsernameIssues(username) != []
    ensures o.Invalid? ==> o.issues == UsernameIssues(username)
    ensures o.Saved? && user.None? ==> o == Saved(None, None, None)
    ensures o.Saved? && user.Some? ==> o.update == Some(UsernameUpdate(user.value.id, username))
    ensures o.Saved? ==> (o.navigate == Some(DashboardRoute) <==> user.Some? && reply.Rows?)
    ensures o.Saved? && user.Some? ==> o.toast.Some? && (o.toast.value.destructive <==> !reply.Rows?)
    ensures o.Saved? && user.Some? && !reply.Rows? ==> o.toast.value.description == FailureMessage(reply)
  {
    var issues := UsernameIssues(username);
    if issues != [] then Invalid(issues)
    else if user.None? then Saved(None, None, None)
    else
      var update := Some(UsernameUpdate(user.value.id, username));
      match reply
      case Rows(_) =>
        Saved(update, Some(Toast("Success!", "Your profile has been updated.", false)), Some(DashboardRoute))
      case Failed(e) => Saved(update, Some(Toast("Error updating profile", e.message, true)), None)
      case Threw(m) => Saved(update, Some(Toast("Error updating profile", m, true)), None)
  }

  /** Saving the prefilled form unchanged writes back the stored username,
      provided it still meets the rule; a stored name outside 3..20 code
      units blocks the save until edited. */
  lemma PrefillSavesBack(u: AuthUser, row: UsernameRow, reply: Reply<()>)
    requires LoadUsername(Some(u), Rows(row)).formValue.Some?
    ensures var v := LoadUsername(Some(u), Rows(row)).formValue.value;
            var o := SaveUsername(Some(u), v, reply);
            && v == row.username.value
            && (o.Saved? <==> MinUsernameLength <= Utf16Length(v) <= MaxUsernameLength)
            && (o.Saved? ==> o.update == Some(UsernameUpdate(u.id, row.username.value)))
  {
  }

  /** A visitor who is not signed in, once auth has finished loading, is sent
      to the sign-in page. */
  function GuardRedirect(user: Option<AuthUser>, authLoading: bool): (route: Option<string>)
    ensures route.Some? <==> !authLoading && user.None?
    ensures route.Some? ==> route.value == "/auth"
  {
    if !authLoading && user.None? then Some("/auth") else None
  }

  /** Once auth has loaded, exactly one of the two pages redirects: the
      settings page sends a visitor without a session to sign in, the sign-in
      page sends a signed-in visitor to the dashboard. */
  lemma SettingsAndSignInRedirectsComplement(user: Option<AuthUser>)
    ensures GuardRedirect(user, false).Some? != AuthForms.RedirectFor(user).Some?
    ensures GuardRedirect(user, true).None?
  {
  }
}
