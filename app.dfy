/** The application shell (webpage/App.tsx): the session restored from `gym_user`, login and
    logout, and which view each route shows. */
module AppShell {
  import opened Types
  import opened Storage

  /** The routes the shell declares, plus any other path. */
  datatype Route = LoginRoute | HomeRoute | NewWorkoutRoute | EditWorkoutRoute(id: string) | AlarmsRoute
                 | OtherPath(path: string)

  /** What a route element renders. */
  datatype View = LoginView | DashboardPage | EditorPage(routeId: Option<string>) | AlarmsPage
                | Redirect(target: string)

  /** The whole page: the spinner while the session is being restored, then the navbar (shown
      with the signed-in user, if any) above the routed view (none for an undeclared path). */
  datatype Screen = Spinner | Shell(navbar: Option<User>, main: Option<View>)

  /** `/`, `/workout/new`, `/workout/edit/:id` and `/alarms` need a signed-in user. */
  predicate Protected(route: Route) {
    route.HomeRoute? || route.NewWorkoutRoute? || route.EditWorkoutRoute? || route.AlarmsRoute?
  }

  /** The view a protected route shows to a signed-in user. */
  function Target(route: Route): View
    requires Protected(route)
  {
    match route
    case HomeRoute => DashboardPage
    case NewWorkoutRoute => EditorPage(None)
    case EditWorkoutRoute(id) => EditorPage(Some(id))
    case AlarmsRoute => AlarmsPage
  }

  /** The `element` of each `<Route>`: protected routes show their view exactly when someone is
      signed in and otherwise send to `/login`; `/login` shows the login view exactly when
      nobody is signed in and otherwise sends to `/`. */
  function Gate(route: Route, user: Option<User>): (v: Option<View>)
    ensures Protected(route) ==> (v == Some(Target(route)) <==> user.Some?)
    ensures Protected(route) ==> (v == Some(Redirect("/login")) <==> user.None?)
    ensures route == LoginRoute ==> (v == Some(LoginView) <==> user.None?)
    ensures route == LoginRoute ==> (v == Some(Redirect("/")) <==> user.Some?)
    ensures route.OtherPath? ==> v.None?
  {
    match route
    case LoginRoute => Some(if user.None? then LoginView else Redirect("/"))
    case OtherPath(_) => None
    case _ => Some(if user.Some? then Target(route) else Redirect("/login"))
  }

  /** The component's output: nothing but the spinner while loading; afterwards the navbar
      exactly when someone is signed in, and the gated view of the route. */
  function Render(loading: bool, user: Option<User>, route: Route): (s: Screen)
    ensures s.Spinner? <==> loading
    ensures s.Shell? ==> s.navbar == user && s.main == Gate(route, user)
  {
    if loading then Spinner else Shell(user, Gate(route, user))
  }

  /** Reloading after a login restores the user who logged in; reloading after a logout
      restores nobody. */
  lemma RestoreAfterLoginOrLogout(m: map<string, Value>, u: User)
    requires WellFormed(m)
    ensures WellFormed(m[UserKey := UserValue(u)]) && StoredUser(m[UserKey := UserValue(u)]) == Some(u)
    ensures WellFormed(m - {UserKey}) && StoredUser(m - {UserKey}) == None
  {
  }

  /** The App component: the session and its loading flag. */
  class App {
    const store: LocalStore
    var user: Option<User>
    var loading: bool

    /** The first render: nobody signed in yet, still loading. */
    constructor (store: LocalStore)
      ensures this.store == store && user == None && loading
    {
      this.store := store;
      user := None;
      loading := true;
    }

    /** The restore effect: the stored user if `gym_user` is present, otherwise nobody; then
        loading ends. The store is only read. */
    method Restore()
      requires loading && user == None
      requires WellFormed(store.entries)
      modifies this
      ensures user == StoredUser(store.entries) && !loading
    {
      user := StoredUser(store.entries);
      loading := false;
    }

    /** `handleLogin`, from any state. */
    method Login(u: User)
      requires WellFormed(store.entries)
      modifies this, store
      ensures WellFormed(store.entries)
      ensures user == Some(u) && loading == old(loading)
      ensures store.entries == old(store.entries)[UserKey := UserValue(u)]
    {
      user := Some(u);
      store.SetItem(UserKey, UserValue(u));
    }

    /** `handleLogout`, from any state. Logging out when already logged out changes nothing. */
    method Logout()
      requires WellFormed(store.entries)
      modifies this, store
      ensures WellFormed(store.entries)
      ensures user == None && loading == old(loading)
      ensures store.entries == old(store.entries) - {UserKey}
      ensures old(user).None? && UserKey !in old(store.entries) ==> store.entries == old(store.entries)
    {
      user := None;
      store.RemoveItem(UserKey);
    }
  }
}
