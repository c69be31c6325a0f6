/** The client's route table and its global navigation guard. Matched route
    records and the stored `'user'` entry are inputs; the guard keeps no state
    between navigations. */
module Router {
  import opened Js

  /** A route record: its path, optional name, optional redirect target and
      `meta` object (empty when the declaration gives none). */
  datatype RouteRecord = RouteRecord(
    path: string,
    name: Option<string>,
    redirect: Option<string>,
    meta: map<string, Value>)

  /** The declared routes, in order. */
  const Routes: seq<RouteRecord> := [
    RouteRecord("/", None, Some("/login"), map[]),
    RouteRecord("/login", Some("Login"), None, map[]),
    RouteRecord("/register", Some("Register"), None, map[]),
    RouteRecord("/chat", Some("Chat"), None, map["requiresAuth" := Bool(true)])
  ]

  /** `record.meta.requiresAuth`, read as a condition. */
  predicate RequiresAuth(record: RouteRecord)
  {
    Truthy(Member(Obj(record.meta), "requiresAuth").value)
  }

  /** `to.matched.some((record) => record.meta.requiresAuth)`. */
  function SomeRequiresAuth(matched: seq<RouteRecord>): (r: bool)
    ensures r <==> exists i :: 0 <= i < |matched| && RequiresAuth(matched[i])
  {
    if matched == [] then false
    else RequiresAuth(matched[0]) || SomeRequiresAuth(matched[1..])
  }

  /** `!!localStorage.getItem('user')`: the entry is present and not the
      empty string (any other string, "false" and "null" included, counts). */
  function IsAuthenticated(stored: Option<string>): (r: bool)
    ensures r <==> stored.Some? && stored.value != ""
  {
    Truthy(match stored case None => Null case Some(s) => Str(s))
  }

  /** The one call the guard makes to `next`: `next()` lets the navigation
      proceed, `next({name})` redirects it to the named route. */
  datatype NextCall = Proceed | RedirectTo(name: string)

  /** The `beforeEach` guard, called once per navigation with the records
      the target matched and the stored `'user'` entry. */
  function BeforeEach(matched: seq<RouteRecord>, stored: Option<string>): (r: NextCall)
    ensures r == RedirectTo("Login") <==>
      (exists i :: 0 <= i < |matched| && RequiresAuth(matched[i])) && !IsAuthenticated(stored)
    ensures r.RedirectTo? ==> r.name == "Login"
  {
    var isAuthenticated := IsAuthenticated(stored);
    if SomeRequiresAuth(matched) && !isAuthenticated then RedirectTo("Login") else Proceed
  }

  /** The first declared route with this path. */
  function FindByPath(path: string, table: seq<RouteRecord>): (r: Option<RouteRecord>)
    ensures r.Some? ==> r.value in table && r.value.path == path
    ensures r.None? ==> forall i :: 0 <= i < |table| ==> table[i].path != path
    ensures r.Some? ==>
      exists i :: 0 <= i < |table| && table[i] == r.value && (forall j :: 0 <= j < i ==> table[j].path != path)
  {
    if table == [] then None
    else if table[0].path == path then Some(table[0])
    else FindByPath(path, table[1..])
  }

  /** The first declared route with this name. */
  function FindByName(name: string, table: seq<RouteRecord>): (r: Option<RouteRecord>)
    ensures r.Some? ==> r.value in table && r.value.name == Some(name)
    ensures r.None? ==> forall i :: 0 <= i < |table| ==> table[i].name != Some(name)
    ensures r.Some? ==>
      exists i :: 0 <= i < |table| && table[i] == r.value && (forall j :: 0 <= j < i ==> table[j].name != Some(name))
  {
    if table == [] then None
    else if table[0].name == Some(name) then Some(table[0])
    else FindByName(name, table[1..])
  }

  /** The path `/` redirects to `/login`. */
  lemma RootRedirectsToLogin()
    ensures FindByPath("/", Routes).Some?
    ensures FindByPath("/", Routes).value.redirect == Some("/login")
  {
  }

  /** Of the declared routes, only `/chat` requires authentication. */
  lemma OnlyChatRequiresAuth()
    ensures forall i :: 0 <= i < |Routes| ==> (RequiresAuth(Routes[i]) <==> Routes[i].path == "/chat")
  {
  }

  /** The guard redirects a navigation to `/chat` exactly when no non-empty
      `'user'` entry is stored, and never touches a navigation to the other declared pages. */
  lemma GuardOnDeclaredRoutes(stored: Option<string>)
    ensures BeforeEach([Routes[3]], stored) == (if IsAuthenticated(stored) then Proceed else RedirectTo("Login"))
    ensures forall i :: 0 <= i < 3 ==> BeforeEach([Routes[i]], stored) == Proceed
  {
  }

  /** The redirect target `Login` is an unprotected route, so the guard lets
      the redirected navigation through whatever is stored: a navigation is
      redirected at most once. */
  lemma RedirectTargetUnprotected(matched: seq<RouteRecord>, stored: Option<string>)
    requires BeforeEach(matched, stored).RedirectTo?
    ensures FindByName(BeforeEach(matched, stored).name, Routes).Some?
    ensures var target := FindByName(BeforeEach(matched, stored).name, Routes).value;
      target.path == "/login" && BeforeEach([target], stored) == Proceed
  {
  }
}
