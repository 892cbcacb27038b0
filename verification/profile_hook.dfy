/** The profile hook: loads the current user's `profiles` row, creates a
    default row on first use, and updates the row on request. */
module ProfileHook {
  import opened Types
  import opened Text

  /** A row of the `profiles` table. */
  datatype Profile = Profile(id: string, username: Option<string>, creditBalance: int,
                             subscriptionTier: string)

  /** The balance, tier and fallback username of a profile created on first use. */
  const DefaultCredits: int := 10
  const FreeTier: string := "free"
  const FallbackUsername: string := "user"

  /** The row the hook inserts when the user has no profile yet. */
  datatype ProfileInsert = ProfileInsert(id: string, username: string, creditBalance: int,
                                         subscriptionTier: string)

  /** `user.email?.split('@')[0] || 'user'`: the part of the e-mail before
      its first `@`, or `"user"` when there is no e-mail or that part is empty. */
  function UsernameFor(email: Option<string>): (r: string)
    ensures r != []
    ensures email.None? ==> r == FallbackUsername
    ensures email.Some? && (email.value == [] || email.value[0] == '@') ==> r == FallbackUsername
    ensures email.Some? && email.value != [] && email.value[0] != '@' ==>
              && '@' !in r
              && |r| <= |email.value| && r == email.value[..|r|]
              && (|r| == |email.value| || email.value[|r|] == '@')
  {
    match email
    case None => FallbackUsername
    case Some(e) =>
      var local := BeforeFirst(e, '@');
      if local == [] then FallbackUsername else local
  }

  /** An address `name@domain` whose name is non-empty and has no `@`
      yields that name. */
  lemma UsernameOfAddress(name: string, domain: string)
    requires name != [] && '@' !in name
    ensures UsernameFor(Some(name + "@" + domain)) == name
  {
    BeforeFirstOfJoin(name, '@', domain);
  }

  /** The default profile of a user seen for the first time. */
  function DefaultProfileFor(u: AuthUser): (p: ProfileInsert)
    ensures p.id == u.id && p.creditBalance == DefaultCredits && p.subscriptionTier == FreeTier
    ensures p.username == UsernameFor(u.email)
  {
    ProfileInsert(u.id, UsernameFor(u.email), DefaultCredits, FreeTier)
  }

  /** The hook's state. */
  datatype ProfileState = ProfileState(profile: Option<Profile>, loading: bool, error: Option<string>)

  const InitialState: ProfileState := ProfileState(None, true, None)

  datatype ProfileFetch = ProfileFetch(state: ProfileState, inserted: Option<ProfileInsert>)

  /** `fetchProfile`, given the reply of the row lookup and, used only when
      the lookup reports "no row", the reply of the insert of the default row. */
  function FetchProfile(s: ProfileState, user: Option<AuthUser>, lookup: Reply<Profile>,
                        insert: Reply<Profile>): (r: ProfileFetch)
    ensures !r.state.loading
    // No user: no profile, the previous error stays, nothing inserted.
    ensures user.None? ==> r.state == ProfileState(None, false, s.error) && r.inserted.None?
    // A found row becomes the profile.
    ensures user.Some? && lookup.Rows? ==>
              r.state == ProfileState(Some(lookup.value), false, None) && r.inserted.None?
    // A default row is inserted exactly when the lookup reported "no row".
    ensures r.inserted.Some? <==> user.Some? && lookup.Failed? && lookup.error.code == NotFoundCode
    ensures r.inserted.Some? ==> r.inserted.value == DefaultProfileFor(user.value)
    ensures r.inserted.Some? && insert.Rows? ==>
              r.state == ProfileState(Some(insert.value), false, None)
    // Every other outcome records a message and keeps the previous profile.
    ensures user.Some? && !r.state.error.None? ==> r.state.profile == s.profile
    ensures user.Some? ==>
              (r.state.error.Some? <==>
                 lookup.Threw?
                 || (lookup.Failed? && lookup.error.code != NotFoundCode)
                 || (lookup.Failed? && lookup.error.code == NotFoundCode && !insert.Rows?))
    // The recorded message is that of the reply that failed.
    ensures user.Some? && lookup.Threw? ==> r.state.error == Some(lookup.message)
    ensures user.Some? && lookup.Failed? && lookup.error.code != NotFoundCode ==>
              r.state.error == Some(lookup.error.message)
    ensures user.Some? && lookup.Failed? && lookup.error.code == NotFoundCode && !insert.Rows? ==>
              r.state.error == Some(FailureMessage(insert))
  {
    match user
    case None => ProfileFetch(ProfileState(None, false, s.error), None)
    case Some(u) =>
      match lookup
      case Rows(p) => ProfileFetch(ProfileState(Some(p), false, None), None)
      case Threw(m) => ProfileFetch(ProfileState(s.profile, false, Some(m)), None)
      case Failed(e) =>
        if e.code == NotFoundCode then
          var row := DefaultProfileFor(u);
          match insert
          case Rows(p) => ProfileFetch(ProfileState(Some(p), false, None), Some(row))
          case Failed(e2) => ProfileFetch(ProfileState(s.profile, false, Some(e2.message)), Some(row))
          case Threw(m) => ProfileFetch(ProfileState(s.profile, false, Some(m)), Some(row))
        else
          ProfileFetch(ProfileState(s.profile, false, Some(e.message)), None)
  }

  /** A first-time user with an e-mail `name@domain` gets a free-tier
      profile with 10 credits named `name`. */
  lemma FirstVisitCreatesDefault(s: ProfileState, u: AuthUser, name: string, domain: string,
                                 message: string, insert: Reply<Profile>)
    requires u.email == Some(name + "@" + domain) && name != [] && '@' !in name
    ensures var r := FetchProfile(s, Some(u), Failed(DbError(NotFoundCode, message)), insert);
            r.inserted == Some(ProfileInsert(u.id, name, 10, "free"))
  {
    UsernameOfAddress(name, domain);
  }

  /** The effect that runs whenever the user or the auth loading flag
      changes: nothing happens while auth is still loading. */
  function OnAuthChange(s: ProfileState, user: Option<AuthUser>, authLoading: bool,
                        lookup: Reply<Profile>, insert: Reply<Profile>): (r: ProfileFetch)
    ensures authLoading ==> r.state == s && r.inserted.None?
    ensures !authLoading ==> r == FetchProfile(s, user, lookup, insert)
  {
    if authLoading then ProfileFetch(s, None) else FetchProfile(s, user, lookup, insert)
  }

  /** The `loading` the hook returns: its own or auth's. */
  function ViewLoading(s: ProfileState, authLoading: bool): (b: bool)
    ensures b <==> s.loading || authLoading
  {
    s.loading || authLoading
  }

  // ---------------------------------------------------------------------------
  // updateProfile
  // ---------------------------------------------------------------------------

  /** The partial row passed to `updateProfile`: absent fields are not sent. */
  datatype ProfileUpdate = ProfileUpdate(username: Option<Option<string>>, creditBalance: Option<int>,
                                         subscriptionTier: Option<string>)

  /** The update sent to the backend: the given fields, for the user's own row. */
  datatype UpdateRequest = UpdateRequest(rowId: string, updates: ProfileUpdate)

  /** What the caller of `updateProfile` observes: it returns early with
      nothing, returns the updated row, or re-throws the error. */
  datatype UpdateOutcome = Skipped | Updated(row: Profile) | Raised(message: string)

  datatype UpdateResult = UpdateResult(state: ProfileState, request: Option<UpdateRequest>,
                                       outcome: UpdateOutcome)

  /** `updateProfile(updates)`, given the reply of the update. */
  function UpdateProfile(s: ProfileState, user: Option<AuthUser>, updates: ProfileUpdate,
                         reply: Reply<Profile>): (r: UpdateResult)
    // Without a user or a loaded profile nothing is sent and nothing changes.
    ensures user.None? || s.profile.None? ==>
              r == UpdateResult(s, None, Skipped)
    ensures user.Some? && s.profile.Some? ==>
              r.request == Some(UpdateRequest(user.value.id, updates))
    // Success: the returned row becomes the profile and is handed back.
    ensures user.Some? && s.profile.Some? && reply.Rows? ==>
              r.state == s.(profile := Some(reply.value)) && r.outcome == Updated(reply.value)
    // Failure: the message is recorded and re-thrown, the profile is kept.
    ensures user.Some? && s.profile.Some? && !reply.Rows? ==>
              && r.outcome == Raised(FailureMessage(reply))
              && r.state == s.(error := Some(FailureMessage(reply)))
    ensures r.outcome.Raised? ==> user.Some? && s.profile.Some? && !reply.Rows?
    ensures r.state.loading == s.loading
  {
    if user.None? || s.profile.None? then UpdateResult(s, None, Skipped)
    else
      var req := Some(UpdateRequest(user.value.id, updates));
      match reply
      case Rows(p) => UpdateResult(s.(profile := Some(p)), req, Updated(p))
      case Failed(e) => UpdateResult(s.(error := Some(e.message)), req, Raised(e.message))
      case Threw(m) => UpdateResult(s.(error := Some(m)), req, Raised(m))
  }

  /** A caller of `updateProfile` either sees the row the backend stored,
      which the hook now shows, or catches the backend's message, which the
      hook now reports, with the profile it showed before. */
  lemma UpdateOutcomeMatchesState(s: ProfileState, u: AuthUser, updates: ProfileUpdate,
                                  reply: Reply<Profile>)
    requires s.profile.Some?
    ensures var r := UpdateProfile(s, Some(u), updates, reply);
            && (r.outcome.Updated? <==> reply.Rows?)
            && (r.outcome.Updated? ==> r.state.profile == Some(r.outcome.row) && r.state.error == s.error)
            && (r.outcome.Raised? ==> r.state.profile == s.profile && r.state.error == Some(r.outcome.message))
  {
  }

  /** A failed update leaves the hook free to try again: the same update
      with a successful reply then stores the row. */
  lemma RetryAfterFailedUpdate(s: ProfileState, u: AuthUser, updates: ProfileUpdate,
                               failure: Reply<Profile>, row: Profile)
    requires s.profile.Some? && !failure.Rows?
    ensures var first := UpdateProfile(s, Some(u), updates, failure);
            var second := UpdateProfile(first.state, Some(u), updates, Rows(row));
            second.state.profile == Some(row) && second.outcome == Updated(row)
  {
  }

  // ---------------------------------------------------------------------------
  // refetch
  // ---------------------------------------------------------------------------

  datatype Deps = Deps(user: Option<AuthUser>, authLoading: bool)

  /** The hook between renders: its state and the dependencies its effect
      last ran with. */
  datatype ProfileHookState = ProfileHookState(state: ProfileState, deps: Deps)

  /** A render: the effect runs again only when a dependency changed. */
  function Render(h: ProfileHookState, user: Option<AuthUser>, authLoading: bool,
                  lookup: Reply<Profile>, insert: Reply<Profile>): (r: ProfileHookState)
    ensures r.deps == Deps(user, authLoading)
    ensures h.deps == Deps(user, authLoading) ==> r.state == h.state
    ensures h.deps != Deps(user, authLoading) && !authLoading ==> !r.state.loading
  {
    if h.deps == Deps(user, authLoading) then h
    else ProfileHookState(OnAuthChange(h.state, user, authLoading, lookup, insert).state,
                          Deps(user, authLoading))
  }

  /** `refetch()` as written: it clears the profile and sets `loading`,
      expecting the effect to run again, which it does not, because neither
      dependency changed. */
  function RefetchAsWritten(h: ProfileHookState, user: Option<AuthUser>): (r: ProfileHookState)
    ensures r.deps == h.deps
    ensures user.Some? ==> r.state.profile.None? && r.state.loading
    ensures user.None? ==> r == h
  {
    if user.Some? then ProfileHookState(h.state.(profile := None, loading := true), h.deps) else h
  }

  /** The discrepancy: a loaded profile is gone after `refetch()`, and every
      later render with the same user shows no profile, still loading. */
  lemma RefetchAsWrittenLosesProfile(h: ProfileHookState, user: Option<AuthUser>,
                                     lookup: Reply<Profile>, insert: Reply<Profile>)
    requires user.Some? && h.deps == Deps(user, false) && h.state.profile.Some?
    ensures var after := Render(RefetchAsWritten(h, user), user, false, lookup, insert);
            after.state.profile.None? && ViewLoading(after.state, false)
  {
  }

  /** `refetch()` as evidently intended: the profile is loaded again. */
  function Refetch(h: ProfileHookState, user: Option<AuthUser>, lookup: Reply<Profile>,
                   insert: Reply<Profile>): (r: ProfileHookState)
    ensures r.deps == h.deps
    ensures user.Some? ==> !r.state.loading
    ensures user.Some? && lookup.Rows? ==> r.state.profile == Some(lookup.value)
    ensures user.Some? && !r.state.error.None? ==> r.state.profile == h.state.profile
    ensures user.None? ==> r == h
  {
    if user.Some? then ProfileHookState(FetchProfile(h.state, user, lookup, insert).state, h.deps)
    else h
  }

  /** With the intended `refetch()`, a successful lookup leaves the hook
      showing the row, not loading. */
  lemma RefetchReloads(h: ProfileHookState, user: Option<AuthUser>, row: Profile, insert: Reply<Profile>)
    requires user.Some? && h.deps == Deps(user, false)
    ensures var after := Render(Refetch(h, user, Rows(row), insert), user, false, Rows(row), insert);
            after.state.profile == Some(row) && !ViewLoading(after.state, false)
  {
  }
}
