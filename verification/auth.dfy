/**
 The authentication context (`AuthProvider`): the record
 (user, session, loading, userRole), the role flags derived from it, and the
 discrete events that change it. React effect scheduling is reduced to the
 order in which events are delivered; a role lookup issued by an event is an
 output of that event, and its completion is a later event of its own.

 The lookup completion carries the user id it was issued for, but the
 handler ignores it: there is no stale-lookup guard, as in the source.
 */
module Auth {
  import opened Common

  datatype AppRole = Admin | Member | Client | Outsourced

  datatype User = User(id: string, email: Option<string>)

  /** An identity-provider session; `user` is what `session?.user` yields. */
  datatype Session = Session(accessToken: string, user: Option<User>)

  datatype AuthState = AuthState(
    user: Option<User>,
    session: Option<Session>,
    loading: bool,
    userRole: Option<AppRole>)

  datatype Event =
    | AuthChange(session: Option<Session>)       // onAuthStateChange callback
    | InitialSession(session: Option<Session>)   // getSession() resolved
    | RoleLookupDone(issuedFor: string, row: Option<AppRole>)  // checkUserRole's query answered
    | SignOut                                    // signOut() after the provider call returned

  /** The new state, the user ids whose role lookups the event started, and
      the route navigated to, if any. */
  datatype StepOut = StepOut(state: AuthState, lookups: seq<string>, navigateTo: Option<string>)

  const AuthRoute: string := "/auth"

  predicate IsAdmin(s: AuthState) { s.userRole == Some(Admin) }
  predicate IsClient(s: AuthState) { s.userRole == Some(Client) }
  predicate IsOutsourced(s: AuthState) { s.userRole == Some(Outsourced) }

  /** `session?.user ?? null` */
  function UserOf(session: Option<Session>): (u: Option<User>)
    ensures u.Some? <==> session.Some? && session.value.user.Some?
  {
    match session
    case None => None
    case Some(sess) => sess.user
  }

  /** The user id whose role should be looked up after a session arrives. */
  function LookupFor(session: Option<Session>): (ids: seq<string>)
    ensures |ids| <= 1
    ensures |ids| == 1 <==> UserOf(session).Some?
    ensures |ids| == 1 ==> ids[0] == UserOf(session).value.id
  {
    match UserOf(session)
    case None => []
    case Some(u) => [u.id]
  }

  /** Invariant: the user is the one the session carries. */
  predicate Consistent(s: AuthState) {
    s.user == UserOf(s.session)
  }

  /** The state before any event: nobody signed in, still loading, no role. */
  function Initial(): (s: AuthState)
    ensures s.loading && s.userRole.None?
    ensures !IsAdmin(s) && !IsClient(s) && !IsOutsourced(s)
    ensures Consistent(s) && s.user.None? && s.session.None?
  {
    AuthState(None, None, true, None)
  }

  /** At most one role flag holds; each holds iff the role is that role, and a
      `member` or absent role sets none of them. */
  lemma RoleFlagsExclusive(s: AuthState)
    ensures !(IsAdmin(s) && IsClient(s)) && !(IsAdmin(s) && IsOutsourced(s))
            && !(IsClient(s) && IsOutsourced(s))
    ensures (s.userRole.None? || s.userRole == Some(Member))
            ==> !IsAdmin(s) && !IsClient(s) && !IsOutsourced(s)
  {
  }

  /** The auth-state listener: publish the session and its user; with a user,
      schedule a role lookup and keep the role until it completes; without
      one, clear the role at once. */
  function OnAuthChange(s: AuthState, session: Option<Session>): (o: StepOut)
    ensures o.state.session == session && Consistent(o.state)
    ensures o.state.user.Some? <==> session.Some? && session.value.user.Some?
    ensures o.state.loading == s.loading
    ensures o.state.user.Some? ==> o.state.userRole == s.userRole
    ensures o.state.user.None? ==> o.state.userRole.None?
    ensures |o.lookups| <= 1 && (|o.lookups| == 1 <==> o.state.user.Some?)
    ensures |o.lookups| == 1 ==> o.lookups[0] == o.state.user.value.id
    ensures o.navigateTo.None?
  {
    var user := UserOf(session);
    var role := if user.Some? then s.userRole else None;
    StepOut(AuthState(user, session, s.loading, role), LookupFor(session), None)
  }

  /** The `getSession()` answer: publish the session, start a lookup when it
      carries a user, and stop loading either way. The role is left as it
      is, even when there is no session. */
  function OnInitialSession(s: AuthState, session: Option<Session>): (o: StepOut)
    ensures o.state.session == session && Consistent(o.state)
    ensures !o.state.loading
    ensures o.state.userRole == s.userRole
    ensures |o.lookups| <= 1 && (|o.lookups| == 1 <==> o.state.user.Some?)
    ensures |o.lookups| == 1 ==> o.lookups[0] == o.state.user.value.id
    ensures o.navigateTo.None?
  {
    StepOut(AuthState(UserOf(session), session, false, s.userRole), LookupFor(session), None)
  }

  /** `checkUserRole` completing: the row's role, or `member` when there is
      no row; which user the lookup was issued for is not consulted. */
  function OnRoleLookup(s: AuthState, issuedFor: string, row: Option<AppRole>): (o: StepOut)
    ensures o.state.userRole.Some?
    ensures row.Some? ==> o.state.userRole == row
    ensures row.None? ==> o.state.userRole == Some(Member)
    ensures o.state.user == s.user && o.state.session == s.session && o.state.loading == s.loading
    ensures o.lookups == [] && o.navigateTo.None?
  {
    StepOut(s.(userRole := Some(row.GetOr(Member))), [], None)
  }

  /** `signOut()`: clears the role and navigates to the auth route. User and
      session are cleared only by the provider's own auth-change event. */
  function OnSignOut(s: AuthState): (o: StepOut)
    ensures o.state.userRole.None?
    ensures !IsAdmin(o.state) && !IsClient(o.state) && !IsOutsourced(o.state)
    ensures o.state.user == s.user && o.state.session == s.session && o.state.loading == s.loading
    ensures o.navigateTo == Some(AuthRoute) && o.lookups == []
  {
    StepOut(s.(userRole := None), [], Some(AuthRoute))
  }

  function Step(s: AuthState, e: Event): StepOut {
    match e
    case AuthChange(session) => OnAuthChange(s, session)
    case InitialSession(session) => OnInitialSession(s, session)
    case RoleLookupDone(id, row) => OnRoleLookup(s, id, row)
    case SignOut => OnSignOut(s)
  }

  /** The state after delivering the events in order. */
  function Run(s: AuthState, events: seq<Event>): AuthState
    decreases |events|
  {
    if |events| == 0 then s else Run(Step(s, events[0]).state, events[1..])
  }

  lemma {:induction false} RunSnoc(s: AuthState, events: seq<Event>, e: Event)
    ensures Run(s, events + [e]) == Step(Run(s, events), e).state
    decreases |events|
  {
    if |events| == 0 {
      assert events + [e] == [e];
    } else {
      assert (events + [e])[1..] == events[1..] + [e];
      RunSnoc(Step(s, events[0]).state, events[1..], e);
    }
  }

  /** The session of the last event that carries one (auth change or
      getSession answer), if any. */
  function LastSession(events: seq<Event>): Option<Option<Session>>
    decreases |events|
  {
    if |events| == 0 then None
    else
      var e := events[|events| - 1];
      if e.AuthChange? || e.InitialSession? then Some(e.session)
      else LastSession(events[..|events| - 1])
  }

  /** The session and user after a run of events are those of the last event
      that carried a session; role lookups, whenever they complete, and local
      sign-outs do not touch them. */
  lemma {:induction false} LastSessionWins(s: AuthState, events: seq<Event>)
    requires Consistent(s)
    ensures var t := Run(s, events);
      && Consistent(t)
      && t.session == LastSession(events).GetOr(s.session)
      && t.user == UserOf(LastSession(events).GetOr(s.session))
    decreases |events|
  {
    if |events| > 0 {
      var init := events[..|events| - 1];
      var e := events[|events| - 1];
      assert events == init + [e];
      RunSnoc(s, init, e);
      LastSessionWins(s, init);
    }
  }

  predicate HasInitialSession(events: seq<Event>) {
    exists i :: 0 <= i < |events| && events[i].InitialSession?
  }

  /** Loading ends exactly when the getSession answer has been delivered, and
      never comes back. */
  lemma {:induction false} LoadingUntilInitialSession(s: AuthState, events: seq<Event>)
    ensures Run(s, events).loading <==> s.loading && !HasInitialSession(events)
    decreases |events|
  {
    if |events| > 0 {
      var t := Step(s, events[0]).state;
      LoadingUntilInitialSession(t, events[1..]);
      if HasInitialSession(events[1..]) {
        var i :| 0 <= i < |events[1..]| && events[1..][i].InitialSession?;
        assert events[i + 1].InitialSession?;
      }
      if events[0].InitialSession? {
        assert HasInitialSession(events);
      } else if HasInitialSession(events) {
        var i :| 0 <= i < |events| && events[i].InitialSession?;
        assert i > 0 && events[1..][i - 1].InitialSession?;
      }
    }
  }

  /** Scenario: A signs in, signs out, B signs in; B's lookup answers
      `client`, then A's stale lookup answers `admin`. B ends up with A's
      role, because completions are not matched against the current user. */
  lemma StaleLookupOverwritesRole()
    ensures var a := User("a", None);
      var b := User("b", None);
      var events := [
        AuthChange(Some(Session("ta", Some(a)))),
        AuthChange(None),
        AuthChange(Some(Session("tb", Some(b)))),
        RoleLookupDone("b", Some(Client)),
        RoleLookupDone("a", Some(Admin))];
      var t := Run(Initial(), events);
      t.user == Some(b) && t.userRole == Some(Admin) && IsAdmin(t)
  {
    var a := User("a", None);
    var b := User("b", None);
    var s0 := Initial();
    var s1 := Step(s0, AuthChange(Some(Session("ta", Some(a))))).state;
    var s2 := Step(s1, AuthChange(None)).state;
    var s3 := Step(s2, AuthChange(Some(Session("tb", Some(b))))).state;
    var s4 := Step(s3, RoleLookupDone("b", Some(Client))).state;
    var s5 := Step(s4, RoleLookupDone("a", Some(Admin))).state;
    var events := [
        AuthChange(Some(Session("ta", Some(a)))),
        AuthChange(None),
        AuthChange(Some(Session("tb", Some(b)))),
        RoleLookupDone("b", Some(Client)),
        RoleLookupDone("a", Some(Admin))];
    assert Run(s0, events) == Run(s1, events[1..]);
    assert Run(s1, events[1..]) == Run(s2, events[2..]);
    assert Run(s2, events[2..]) == Run(s3, events[3..]);
    assert Run(s3, events[3..]) == Run(s4, events[4..]);
    assert Run(s4, events[4..]) == Run(s5, events[5..]);
  }

  /** A lookup completion sets the same role whoever it was issued for. */
  lemma LookupIgnoresIssuer(s: AuthState, a: string, b: string, row: Option<AppRole>)
    ensures Step(s, RoleLookupDone(a, row)) == Step(s, RoleLookupDone(b, row))
  {
  }

  /** Between a signed-in auth change and its lookup's completion the user is
      known while the role is still whatever it was (absent after a fresh
      sign-in). */
  lemma SignInThenLookup(u: User, token: string, row: Option<AppRole>)
    ensures var o1 := Step(Initial(), AuthChange(Some(Session(token, Some(u)))));
      var o2 := Step(o1.state, RoleLookupDone(u.id, row));
      && o1.state.user == Some(u) && o1.state.userRole.None? && o1.lookups == [u.id]
      && o2.state.user == Some(u) && o2.state.userRole == Some(row.GetOr(Member))
  {
  }
}
