/** What the navigation root shows: the loading view, the Main flow or the Auth
    flow; which tabs the Main flow offers for the profile's role; the stack
    screens around the tabs; and when a push token is saved. */
module Navigation {
  import opened Common
  import opened AuthStore
  import Gateway

  /** The root navigator's output. */
  datatype RootView = LoadingView | MainFlow | AuthFlow

  /** `AppNavigator`'s render decision. */
  function Root(isLoading: bool, session: Option<Session>): (v: RootView)
    ensures isLoading <==> v == LoadingView
    ensures !isLoading ==> (v == MainFlow <==> session.Some?)
    ensures !isLoading ==> (v == AuthFlow <==> session.None?)
  {
    if isLoading then LoadingView
    else if session.Some? then MainFlow
    else AuthFlow
  }

  /** What the root shows for a store state. */
  function RootOf(s: AuthState): RootView {
    Root(s.isLoading, s.session)
  }

  /** The bottom tabs, by route name. */
  datatype Tab = HomeTab | Appointments | DoctorTab | Schedule | ProfileTab | Settings

  /** `profile?.role` */
  function RoleOf(profile: Option<Profile>): Option<string> {
    if profile.Some? then Some(profile.value.role) else None
  }

  /** The role-dependent tabs of `MainTabNavigator`: two guarded fragments. */
  function RoleTabs(role: Option<string>): seq<Tab> {
    (if role == Some("patient") then [HomeTab, Appointments] else [])
    + (if role == Some("doctor") then [DoctorTab, Schedule] else [])
  }

  /** `MainTabNavigator`'s tab list, in order. */
  function MainTabs(profile: Option<Profile>): (tabs: seq<Tab>)
    ensures RoleOf(profile) == Some("patient") ==> tabs == [HomeTab, Appointments, ProfileTab, Settings]
    ensures RoleOf(profile) == Some("doctor") ==> tabs == [DoctorTab, Schedule, ProfileTab, Settings]
    ensures RoleOf(profile) !in {Some("patient"), Some("doctor")} ==> tabs == [ProfileTab, Settings]
    ensures |tabs| >= 2 && tabs[|tabs| - 2..] == [ProfileTab, Settings]
    ensures ProfileTab !in tabs[..|tabs| - 2] && Settings !in tabs[..|tabs| - 2]
  {
    RoleTabs(RoleOf(profile)) + [ProfileTab, Settings]
  }

  /** A tab of one role never appears for the other. */
  lemma RoleTabsDisjoint(p: Option<Profile>)
    ensures HomeTab in MainTabs(p) <==> RoleOf(p) == Some("patient")
    ensures Appointments in MainTabs(p) <==> RoleOf(p) == Some("patient")
    ensures DoctorTab in MainTabs(p) <==> RoleOf(p) == Some("doctor")
    ensures Schedule in MainTabs(p) <==> RoleOf(p) == Some("doctor")
  {
  }

  /** The screens of `MainNavigator`'s stack. */
  datatype StackScreen = MainTabsScreen | AddPrescription | PrescriptionDetails | PatientHistory

  /** `MainNavigator`'s stack: it does not read the store, so it is the same
      list for every role. */
  function MainStack(): (screens: seq<StackScreen>)
    ensures |screens| == 4 && screens[0] == MainTabsScreen
    ensures screens[1] == AddPrescription && screens[2] == PrescriptionDetails && screens[3] == PatientHistory
  {
    [MainTabsScreen, AddPrescription, PrescriptionDetails, PatientHistory]
  }

  /** What the `[user]` effect does with the token registration produced:
      `savePushToken(user.id, token)` when a user is present and a token was
      obtained, and `savePushToken` itself writes only for a non-empty id
      and token. */
  function PushTokenWrite(user: Option<User>, token: Option<string>): (w: Option<Gateway.Request>)
    ensures w.Some? <==> user.Some? && Truthy(token) && user.value.id != ""
    ensures w.Some? ==> w.value == Gateway.SavePushToken(user.value.id, token.value)
  {
    if user.Some? && Truthy(token) then
      SavePushTokenWrite(user.value.id, token.value)
    else None
  }

  /** `savePushToken(userId, token)`: nothing for an empty id or token. */
  function SavePushTokenWrite(userId: string, token: string): Option<Gateway.Request> {
    if userId == "" || token == "" then None else Some(Gateway.SavePushToken(userId, token))
  }

  /** Demo login always leads to the Main flow; doctors see the dashboard and
      schedule, patients the home and appointments tabs. */
  lemma DemoLoginRoutes(role: DemoRole)
    ensures RootOf(DemoLoginStep(role)) == MainFlow
    ensures MainTabs(DemoLoginStep(role).profile) ==
      (if role == DoctorRole then [DoctorTab, Schedule, ProfileTab, Settings]
       else [HomeTab, Appointments, ProfileTab, Settings])
  {
  }

  /** After signing out, the root shows the Auth flow unless the store is
      still loading. */
  lemma SignOutRoutes(s: AuthState)
    ensures RootOf(SignOutStep(s)) == if s.isLoading then LoadingView else AuthFlow
  {
  }
}
