/** The sign-in page: the sign-up and login form schemas, how the auth
    service's error messages are turned into friendly texts, and where a
    successful login leads. The e-mail format check belongs to the form
    library and enters as a boolean. */
module AuthForms {
  import opened Types
  import opened Text

  // ---------------------------------------------------------------------------
  // Form schemas
  // ---------------------------------------------------------------------------

  const MinSignUpPasswordLength: nat := 6
  const MinLoginPasswordLength: nat := 1

  datatype Field = EmailField | PasswordField

  /** A validation message attached to a field. */
  datatype Issue = Issue(field: Field, message: string)

  const InvalidEmailIssue: Issue := Issue(EmailField, "Alamat email tidak valid.")
  const ShortPasswordIssue: Issue := Issue(PasswordField, "Password minimal 6 karakter.")
  const MissingPasswordIssue: Issue := Issue(PasswordField, "Password wajib diisi.")

  /** The sign-up schema's verdict: a well-formed e-mail and a password of
      at least 6 UTF-16 code units. */
  function SignUpIssues(emailWellFormed: bool, password: string): (issues: seq<Issue>)
    ensures issues == [] <==> emailWellFormed && Utf16Length(password) >= MinSignUpPasswordLength
    ensures InvalidEmailIssue in issues <==> !emailWellFormed
    ensures ShortPasswordIssue in issues <==> Utf16Length(password) < MinSignUpPasswordLength
    ensures forall i :: i in issues ==> i == InvalidEmailIssue || i == ShortPasswordIssue
  {
    (if emailWellFormed then [] else [InvalidEmailIssue])
    + (if Utf16Length(password) >= MinSignUpPasswordLength then [] else [ShortPasswordIssue])
  }

  /** The login schema's verdict: a well-formed e-mail and a non-empty password. */
  function LoginIssues(emailWellFormed: bool, password: string): (issues: seq<Issue>)
    ensures issues == [] <==> emailWellFormed && password != []
    ensures InvalidEmailIssue in issues <==> !emailWellFormed
    ensures MissingPasswordIssue in issues <==> password == []
    ensures forall i :: i in issues ==> i == InvalidEmailIssue || i == MissingPasswordIssue
  {
    (if emailWellFormed then [] else [InvalidEmailIssue])
    + (if Utf16Length(password) >= MinLoginPasswordLength then [] else [MissingPasswordIssue])
  }

  /** Six characters always make a long enough sign-up password. */
  lemma SixCharactersSuffice(password: string)
    requires |password| >= 6
    ensures ShortPasswordIssue !in SignUpIssues(true, password)
  {
  }

  /** The length rule counts UTF-16 code units: three characters outside
      the Basic Multilingual Plane already make six. */
  lemma AstralCharactersCountTwice(password: string)
    requires |password| == 3 && forall i :: 0 <= i < 3 ==> password[i] as int > 0xFFFF
    ensures SignUpIssues(true, password) == []
  {
    var tail := password[1..];
    assert Utf16Length(password) == 2 + Utf16Length(tail);
    assert Utf16Length(tail) == 2 + Utf16Length(tail[1..]);
    assert Utf16Length(tail[1..]) == 2 + Utf16Length(tail[1..][1..]);
  }

  /** Below six BMP characters a sign-up password is rejected. */
  lemma ShortBmpPasswordRejected(password: string)
    requires |password| < 6 && forall i :: 0 <= i < |password| ==> password[i] as int <= 0xFFFF
    ensures ShortPasswordIssue in SignUpIssues(true, password)
  {
    Utf16LengthOfBmp(password);
  }

  // ---------------------------------------------------------------------------
  // Error messages
  // ---------------------------------------------------------------------------

  /** "When the message includes `marker`, show `text`." */
  datatype Rule = Rule(marker: string, text: string)

  /** The reference meaning of a mapping chain: the text of the first rule
      whose marker the message includes, or the message itself when none does. */
  function FirstMatch(rules: seq<Rule>, m: string): (r: string)
    ensures (forall k :: 0 <= k < |rules| ==> !Includes(m, rules[k].marker)) ==> r == m
    ensures forall k :: 0 <= k < |rules| && Includes(m, rules[k].marker)
                        && (forall j :: 0 <= j < k ==> !Includes(m, rules[j].marker))
                        ==> r == rules[k].text
    ensures r == m || exists k :: 0 <= k < |rules| && r == rules[k].text
    decreases |rules|
  {
    if |rules| == 0 then m
    else if Includes(m, rules[0].marker) then rules[0].text
    else
      var r := FirstMatch(rules[1..], m);
      assert forall k :: 1 <= k < |rules| ==> rules[1..][k - 1] == rules[k];
      r
  }

  const EmailTakenText: string := "Email sudah terdaftar. Silakan login atau gunakan email lain."
  const BadEmailText: string := "Format email tidak valid."
  const WeakPasswordText: string := "Password tidak memenuhi kriteria keamanan."

  /** The sign-up rules, in the order they are tried. */
  const SignUpRules: seq<Rule> := [
    Rule("already registered", EmailTakenText),
    Rule("Invalid email", BadEmailText),
    Rule("Password", WeakPasswordText)
  ]

  /** The sign-up error chain as the page writes it. */
  function SignUpErrorMessage(m: string): (r: string)
    ensures r == FirstMatch(SignUpRules, m)
  {
    assert SignUpRules[0].marker == "already registered";
    assert SignUpRules[1].marker == "Invalid email";
    assert SignUpRules[2].marker == "Password";
    if Includes(m, "already registered") then EmailTakenText
    else if Includes(m, "Invalid email") then BadEmailText
    else if Includes(m, "Password") then WeakPasswordText
    else m
  }

  const WrongCredentialsText: string := "Email atau password salah. Silakan coba lagi."
  const UnconfirmedText: string := "Email belum dikonfirmasi. Silakan cek email Anda."

  const LoginRules: seq<Rule> := [
    Rule("Invalid login credentials", WrongCredentialsText),
    Rule("Email not confirmed", UnconfirmedText)
  ]

  /** The login error chain as the page writes it. */
  function LoginErrorMessage(m: string): (r: string)
    ensures r == FirstMatch(LoginRules, m)
  {
    if Includes(m, "Invalid login credentials") then WrongCredentialsText
    else if Includes(m, "Email not confirmed") then UnconfirmedText
    else m
  }

  const GoogleDisabledText: string := "Login Google belum diaktifkan. Silakan hubungi administrator."

  const GoogleRules: seq<Rule> := [Rule("provider is not enabled", GoogleDisabledText)]

  /** The Google sign-in error chain as the page writes it. */
  function GoogleErrorMessage(m: string): (r: string)
    ensures r == FirstMatch(GoogleRules, m)
  {
    if Includes(m, "provider is not enabled") then GoogleDisabledText else m
  }

  /** A message about an existing account wins over one about the password:
      the first matching rule decides. */
  lemma SignUpFirstRuleWins(m: string)
    requires Includes(m, "already registered") && Includes(m, "Password")
    ensures SignUpErrorMessage(m) == EmailTakenText
  {
  }

  /** A message matching no rule is shown as the service wrote it. */
  lemma UnmatchedMessagesPassThrough(m: string)
    requires !Includes(m, "already registered") && !Includes(m, "Invalid email")
    requires !Includes(m, "Password") && !Includes(m, "Invalid login credentials")
    requires !Includes(m, "Email not confirmed") && !Includes(m, "provider is not enabled")
    ensures SignUpErrorMessage(m) == m && LoginErrorMessage(m) == m && GoogleErrorMessage(m) == m
  {
  }

  // ---------------------------------------------------------------------------
  // Outcomes
  // ---------------------------------------------------------------------------

  /** Where the page sends an already signed-in visitor. */
  function RedirectFor(user: Option<AuthUser>): (route: Option<string>)
    ensures route.Some? <==> user.Some?
    ensures route.Some? ==> route.value == DashboardRoute
  {
    if user.Some? then Some(DashboardRoute) else None
  }

  /** The outcome of submitting a form: the schema's issues (nothing sent),
      or the toast, whether the form is cleared and where the page goes. */
  datatype FormOutcome =
    | Rejected(issues: seq<Issue>)
    | Answered(toast: Toast, resetForm: bool, navigate: Option<string>)

  /** Submitting the login form, given the auth service's reply. */
  function SubmitLogin(emailWellFormed: bool, password: string, reply: Reply<()>): (o: FormOutcome)
    ensures o.Rejected? <==> !emailWellFormed || password == []
    ensures o.Rejected? ==> o.issues == LoginIssues(emailWellFormed, password)
    ensures o.Answered? ==> !o.resetForm
    ensures o.Answered? ==> (o.navigate == Some(DashboardRoute) <==> reply.Rows?)
    ensures o.Answered? && !reply.Rows? ==> o.navigate.None? && o.toast.destructive
    ensures o.Answered? && reply.Failed? ==>
              o.toast.description == FirstMatch(LoginRules, reply.error.message)
  {
    var issues := LoginIssues(emailWellFormed, password);
    if issues != [] then Rejected(issues)
    else
      match reply
      case Rows(_) => Answered(Toast("Berhasil!", "Login berhasil!", false), false, Some(DashboardRoute))
      case Failed(e) => Answered(Toast("Gagal Login", LoginErrorMessage(e.message), true), false, None)
      case Threw(_) =>
        Answered(Toast("Error", "Terjadi kesalahan tidak terduga saat login.", true), false, None)
  }

  /** A successful login leads where the page sends a visitor who is
      already signed in. */
  lemma LoginLandsWhereSignedInUsersGo(emailWellFormed: bool, password: string, u: AuthUser)
    requires emailWellFormed && password != []
    ensures SubmitLogin(emailWellFormed, password, Rows(())).navigate == RedirectFor(Some(u))
  {
  }

  /** Submitting the sign-up form, given the auth service's reply. A
      successful sign-up clears the form and stays on the page. */
  function SubmitSignUp(emailWellFormed: bool, password: string, reply: Reply<()>): (o: FormOutcome)
    ensures o.Rejected? <==> !emailWellFormed || Utf16Length(password) < MinSignUpPasswordLength
    ensures o.Rejected? ==> o.issues == SignUpIssues(emailWellFormed, password)
    ensures o.Answered? ==> o.navigate.None?
    ensures o.Answered? ==> (o.resetForm <==> reply.Rows?)
    ensures o.Answered? ==> (o.toast.destructive <==> !reply.Rows?)
    ensures o.Answered? && reply.Failed? ==>
              o.toast.description == FirstMatch(SignUpRules, reply.error.message)
  {
    var issues := SignUpIssues(emailWellFormed, password);
    if issues != [] then Rejected(issues)
    else
      match reply
      case Rows(_) =>
        Answered(Toast("Berhasil!", "Silakan cek email Anda untuk konfirmasi pendaftaran.", false), true, None)
      case Failed(e) => Answered(Toast("Gagal Daftar", SignUpErrorMessage(e.message), true), false, None)
      case Threw(_) =>
        Answered(Toast("Error", "Terjadi kesalahan tidak terduga saat mendaftar.", true), false, None)
  }

  /** Starting Google sign-in: a toast only when it fails; on success the
      browser leaves for the provider. */
  function StartGoogleLogin(reply: Reply<()>): (t: Option<Toast>)
    ensures t.None? <==> reply.Rows?
    ensures t.Some? ==> t.value.destructive
    ensures reply.Failed? ==> t.value.description == FirstMatch(GoogleRules, reply.error.message)
  {
    match reply
    case Rows(_) => None
    case Failed(e) => Some(Toast("Gagal Login Google", GoogleErrorMessage(e.message), true))
    case Threw(_) => Some(Toast("Error", "Terjadi kesalahan tidak terduga dengan login Google.", true))
  }
}
