/** The process-wide session store: the current session, its user, the user's
    profile row and the loading flag, with the four actions that replace them.
    Backend answers (the restored session, the fetched profile row, a thrown
    exception) are parameters of the actions. */
module AuthStore {
  import opened Common

  datatype User = User(id: string, email: string)

  /** A session as the auth client returns it; its user may be missing. */
  datatype Session = Session(accessToken: string, refreshToken: string, expiresIn: int, tokenType: string, user: Option<User>)

  /** A row of the `users` table; `role` is "patient" or "doctor" for real users. */
  datatype Profile = Profile(id: string, fullName: string, role: string, email: string)

  /** The argument of `demoLogin`. */
  datatype DemoRole = DoctorRole | PatientRole

  /** How `supabase.auth.getSession()` ended: with a (possibly absent) session,
      or by throwing before the store was updated. */
  datatype SessionLookup = Found(session: Option<Session>) | Threw

  /** The four store fields. */
  datatype AuthState = AuthState(session: Option<Session>, user: Option<User>, profile: Option<Profile>, isLoading: bool)

  /** The store's invariant: the user is present exactly when the session is,
      the session's user is the stored user, and a profile implies a user. */
  predicate Consistent(s: AuthState) {
    && (s.user.None? <==> s.session.None?)
    && (s.session.Some? ==> s.session.value.user == s.user)
    && (s.profile.Some? ==> s.user.Some?)
  }

  /** The store's initial value: nothing known yet, still loading. */
  const Initial: AuthState := AuthState(None, None, None, true)

  /** `session?.user` is truthy. */
  predicate HasUser(session: Option<Session>) {
    session.Some? && session.value.user.Some?
  }

  /** `setSession(session)`, where `row` is what the profile query for the
      session's user returned (`null` when it found nothing). The prior state
      plays no part: every field is replaced. */
  function SetSessionStep(session: Option<Session>, row: Option<Profile>): (r: AuthState)
    ensures Consistent(r) && !r.isLoading
    ensures HasUser(session) ==> r.session == session && r.user == session.value.user && r.profile == row
    ensures !HasUser(session) ==> r.session.None? && r.user.None? && r.profile.None?
  {
    if HasUser(session) then AuthState(session, session.value.user, row, false)
    else AuthState(None, None, None, false)
  }

  /** `signOut()`: clears the identity, leaves the loading flag alone. */
  function SignOutStep(s: AuthState): (r: AuthState)
    ensures r.session.None? && r.user.None? && r.profile.None?
    ensures r.isLoading == s.isLoading
    ensures Consistent(r)
  {
    s.(session := None, user := None, profile := None)
  }

  /** `checkSession()`: like `setSession` on the restored session; when the
      lookup throws, only the loading flag is cleared. */
  function CheckSessionStep(s: AuthState, lookup: SessionLookup, row: Option<Profile>): (r: AuthState)
    ensures lookup.Found? ==> r == SetSessionStep(lookup.session, row)
    ensures lookup.Threw? ==> r == s.(isLoading := false)
    ensures Consistent(s) ==> Consistent(r)
    ensures !r.isLoading
  {
    match lookup
    case Found(session) => SetSessionStep(session, row)
    case Threw => s.(isLoading := false)
  }

  function DemoUserId(role: DemoRole): string {
    if role == DoctorRole then "demo-doctor-id" else "demo-patient-id"
  }

  function RoleName(role: DemoRole): string {
    if role == DoctorRole then "doctor" else "patient"
  }

  /** `demoLogin(role)`: a locally made user, profile and session. */
  function DemoLoginStep(role: DemoRole): (r: AuthState)
    ensures r.user == Some(User(DemoUserId(role), if role == DoctorRole then "doctor@demo.com" else "patient@demo.com"))
    ensures r.profile.Some? && r.profile.value.role == RoleName(role) && r.profile.value.id == r.user.value.id
    ensures r.session.Some? && r.session.value.user == r.user
    ensures IsDemoId(r.user.value.id)
    ensures Consistent(r) && !r.isLoading
  {
    var email := if role == DoctorRole then "doctor@demo.com" else "patient@demo.com";
    var user := User(DemoUserId(role), email);
    var profile := Profile(user.id, if role == DoctorRole then "Dr. Demo" else "Jane Doe", RoleName(role), email);
    var session := Session("demo-token", "demo-refresh-token", 3600, "bearer", Some(user));
    AuthState(Some(session), Some(user), Some(profile), false)
  }

  /** Signing out twice leaves the store as signing out once. */
  lemma SignOutIdempotent(s: AuthState)
    ensures SignOutStep(SignOutStep(s)) == SignOutStep(s)
  {
  }

  /** `setSession(null)` ends in the same state whatever came before. */
  lemma SetSessionNullSignedOut(row: Option<Profile>)
    ensures SetSessionStep(None, row) == AuthState(None, None, None, false)
  {
  }

  /** With no persisted session, `checkSession` leaves the user signed out
      and without a profile. */
  lemma CheckSessionWithoutSession(s: AuthState, row: Option<Profile>)
    ensures CheckSessionStep(s, Found(None), row) == AuthState(None, None, None, false)
  {
  }

  /** The two demo roles give different identities. */
  lemma DemoUsersDiffer()
    ensures DemoLoginStep(DoctorRole).user != DemoLoginStep(PatientRole).user
  {
  }

  /** The zustand store object. */
  class Store {
    var session: Option<Session>
    var user: Option<User>
    var profile: Option<Profile>
    var isLoading: bool

    function State(): AuthState
      reads this
    {
      AuthState(session, user, profile, isLoading)
    }

    ghost predicate Valid()
      reads this
    {
      Consistent(State())
    }

    constructor ()
      ensures State() == Initial && Valid()
    {
      session, user, profile, isLoading := None, None, None, true;
    }

    method SetSession(s: Option<Session>, row: Option<Profile>)
      modifies this
      ensures State() == SetSessionStep(s, row) && Valid()
    {
      if HasUser(s) {
        session, user, profile, isLoading := s, s.value.user, row, false;
      } else {
        session, user, profile, isLoading := None, None, None, false;
      }
    }

    /** The backend sign-out call is not modelled; its result is ignored. */
    method SignOut()
      requires Valid()
      modifies this
      ensures State() == SignOutStep(old(State())) && Valid()
    {
      session, user, profile := None, None, None;
    }

    method CheckSession(lookup: SessionLookup, row: Option<Profile>)
      requires Valid()
      modifies this
      ensures State() == CheckSessionStep(old(State()), lookup, row) && Valid()
    {
      match lookup
      case Found(s) => SetSession(s, row);
      case Threw => isLoading := false;
    }

    method DemoLogin(role: DemoRole)
      modifies this
      ensures State() == DemoLoginStep(role) && Valid()
    {
      var email := if role == DoctorRole then "doctor@demo.com" else "patient@demo.com";
      var mockUser := User(DemoUserId(role), email);
      var mockProfile := Profile(mockUser.id, if role == DoctorRole then "Dr. Demo" else "Jane Doe", RoleName(role), email);
      var mockSession := Session("demo-token", "demo-refresh-token", 3600, "bearer", Some(mockUser));
      session, user, profile, isLoading := Some(mockSession), Some(mockUser), Some(mockProfile), false;
    }
  }
}
