/** The administrator-role hook: asks the backend's `is_admin` procedure,
    falls back to reading the caller's `user_roles` rows when the procedure
    call fails, and answers `false` on every error (it fails closed). */
module AdminRole {
  import opened Types

  /** The hook's own state. */
  datatype AdminState = AdminState(isAdmin: bool, loading: bool, error: Option<string>)

  /** Before any check: not an admin, loading. */
  const InitialState: AdminState := AdminState(false, true, None)

  /** A `user_roles` row as the fallback query selects it. */
  datatype RoleRow = RoleRow(role: string)

  /** The backend calls a check makes, in order. */
  datatype BackendCall = IsAdminRpc | AdminRoleQuery(userId: string)

  datatype AdminCheck = AdminCheck(state: AdminState, calls: seq<BackendCall>)

  /** `checkAdminRole`, given the user and the replies of the `is_admin`
      call (`null`, `true` or `false` on success) and of the fallback query
      (`null` or a list of admin rows on success). */
  function CheckAdminRole(user: Option<AuthUser>, rpc: Reply<Option<bool>>,
                          fallback: Reply<Option<seq<RoleRow>>>): (r: AdminCheck)
    // Without a user: not an admin, nothing to report, no backend call.
    ensures user.None? ==> r.state == AdminState(false, false, None) && r.calls == []
    // The check always ends with loading off.
    ensures !r.state.loading
    // The procedure is called first; the fallback query only after it failed.
    ensures user.Some? ==> |r.calls| >= 1 && r.calls[0] == IsAdminRpc
    ensures user.Some? ==>
              (r.calls == [IsAdminRpc, AdminRoleQuery(user.value.id)] <==> rpc.Failed?)
    ensures user.Some? && !rpc.Failed? ==> r.calls == [IsAdminRpc]
    // A successful procedure call decides: `null` and `false` both mean no.
    ensures user.Some? && rpc.Rows? ==> (r.state.isAdmin <==> rpc.value == Some(true))
    // After a failed procedure call, a successful query decides: admin iff a row came back.
    ensures user.Some? && rpc.Failed? && fallback.Rows? ==>
              (r.state.isAdmin <==> fallback.value.Some? && |fallback.value.value| > 0)
    // Fail closed: admin only on positive evidence from the backend.
    ensures r.state.isAdmin ==>
              user.Some? && (|| rpc == Rows(Some(true))
                             || (rpc.Failed? && fallback.Rows? && fallback.value.Some?
                                 && |fallback.value.value| > 0))
    // An error is recorded iff no successful reply decided, and it is that reply's message.
    ensures r.state.error.Some? <==>
              user.Some? && (rpc.Threw? || (rpc.Failed? && !fallback.Rows?))
    ensures user.Some? && rpc.Threw? ==> r.state.error == Some(rpc.message)
    ensures user.Some? && rpc.Failed? && !fallback.Rows? ==>
              r.state.error == Some(FailureMessage(fallback)) && !r.state.isAdmin
  {
    match user
    case None => AdminCheck(AdminState(false, false, None), [])
    case Some(u) =>
      match rpc
      case Rows(v) => AdminCheck(AdminState(v.GetOr(false), false, None), [IsAdminRpc])
      case Threw(m) => AdminCheck(AdminState(false, false, Some(m)), [IsAdminRpc])
      case Failed(_) =>
        var calls := [IsAdminRpc, AdminRoleQuery(u.id)];
        match fallback
        case Rows(rows) =>
          AdminCheck(AdminState(rows.Some? && |rows.value| > 0, false, None), calls)
        case Failed(e) => AdminCheck(AdminState(false, false, Some(e.message)), calls)
        case Threw(m) => AdminCheck(AdminState(false, false, Some(m)), calls)
  }

  /** The effect that runs whenever the user or the auth loading flag
      changes: nothing happens while auth is still loading. */
  function OnAuthChange(s: AdminState, user: Option<AuthUser>, authLoading: bool,
                        rpc: Reply<Option<bool>>, fallback: Reply<Option<seq<RoleRow>>>): (r: AdminCheck)
    ensures authLoading ==> r.state == s && r.calls == []
    ensures !authLoading ==> r == CheckAdminRole(user, rpc, fallback)
  {
    if authLoading then AdminCheck(s, []) else CheckAdminRole(user, rpc, fallback)
  }

  /** What the hook returns to components. */
  datatype AdminView = AdminView(isAdmin: bool, loading: bool, error: Option<string>)

  /** The returned `loading` is on while either the hook or auth is loading. */
  function View(s: AdminState, authLoading: bool): (v: AdminView)
    ensures v.loading <==> s.loading || authLoading
    ensures v.isAdmin == s.isAdmin && v.error == s.error
  {
    AdminView(s.isAdmin, s.loading || authLoading, s.error)
  }

  /** A component sees "not an admin, still loading" until the first check
      has finished, whatever auth is doing. */
  lemma InitialViewIsLoadingNonAdmin(authLoading: bool)
    ensures var v := View(InitialState, authLoading);
            !v.isAdmin && v.loading && v.error.None?
  {
  }

  /** Whatever the replies, a user the backend never vouched for is not
      reported as an admin once this check has run, provided no earlier
      check still in flight overtakes it (effect runs are taken one at a
      time). */
  lemma FailsClosed(s: AdminState, user: Option<AuthUser>, rpc: Reply<Option<bool>>,
                    fallback: Reply<Option<seq<RoleRow>>>)
    requires rpc != Rows(Some(true))
    requires !(fallback.Rows? && fallback.value.Some? && |fallback.value.value| > 0)
    ensures !View(OnAuthChange(s, user, false, rpc, fallback).state, false).isAdmin
  {
  }

  // ---------------------------------------------------------------------------
  // refetch
  // ---------------------------------------------------------------------------

  /** The values the hook's effect depends on. */
  datatype Deps = Deps(user: Option<AuthUser>, authLoading: bool)

  /** The hook between renders: its state and the dependencies its effect
      last ran with. */
  datatype AdminHook = AdminHook(state: AdminState, deps: Deps)

  /** A render with the current user and auth flag: the effect runs again
      only when one of its dependencies changed. */
  function Render(h: AdminHook, user: Option<AuthUser>, authLoading: bool,
                  rpc: Reply<Option<bool>>, fallback: Reply<Option<seq<RoleRow>>>): (r: AdminHook)
    ensures r.deps == Deps(user, authLoading)
    ensures h.deps == Deps(user, authLoading) ==> r.state == h.state
    ensures h.deps != Deps(user, authLoading) && !authLoading ==> !r.state.loading
  {
    if h.deps == Deps(user, authLoading) then h
    else AdminHook(OnAuthChange(h.state, user, authLoading, rpc, fallback).state, Deps(user, authLoading))
  }

  /** `refetch()` as written: it only sets `loading` and clears `error`,
      expecting the effect to run again, which it does not, because neither
      dependency changed. */
  function RefetchAsWritten(h: AdminHook, user: Option<AuthUser>, authLoading: bool): (r: AdminHook)
    ensures r.deps == h.deps
    ensures user.Some? && !authLoading ==> r.state.loading && r.state.error.None?
    ensures user.Some? && !authLoading ==> r.state.isAdmin == h.state.isAdmin
    ensures !(user.Some? && !authLoading) ==> r == h
  {
    if user.Some? && !authLoading then AdminHook(h.state.(loading := true, error := None), h.deps)
    else h
  }

  /** The discrepancy: after `refetch()` every later render with the same
      user keeps reporting `loading`, and no check is made. */
  lemma RefetchAsWrittenStaysLoading(h: AdminHook, user: Option<AuthUser>,
                                     rpc: Reply<Option<bool>>, fallback: Reply<Option<seq<RoleRow>>>)
    requires user.Some? && h.deps == Deps(user, false)
    ensures var after := Render(RefetchAsWritten(h, user, false), user, false, rpc, fallback);
            View(after.state, false).loading && after.state.error.None?
  {
  }

  /** `refetch()` as evidently intended: the check runs again for the
      current user. */
  function Refetch(h: AdminHook, user: Option<AuthUser>, authLoading: bool,
                   rpc: Reply<Option<bool>>, fallback: Reply<Option<seq<RoleRow>>>): (r: AdminHook)
    ensures r.deps == h.deps
    ensures user.Some? && !authLoading ==> !View(r.state, authLoading).loading
    ensures user.Some? && !authLoading ==>
              (r.state.isAdmin ==> rpc == Rows(Some(true))
                                   || (rpc.Failed? && fallback.Rows? && fallback.value.Some?
                                       && |fallback.value.value| > 0))
    ensures !(user.Some? && !authLoading) ==> r == h
  {
    if user.Some? && !authLoading then AdminHook(CheckAdminRole(user, rpc, fallback).state, h.deps)
    else h
  }

  /** With the intended `refetch()`, the next render shows a finished check. */
  lemma RefetchFinishes(h: AdminHook, user: Option<AuthUser>,
                        rpc: Reply<Option<bool>>, fallback: Reply<Option<seq<RoleRow>>>)
    requires user.Some? && h.deps == Deps(user, false)
    ensures !View(Render(Refetch(h, user, false, rpc, fallback), user, false, rpc, fallback).state, false).loading
  {
  }
}
