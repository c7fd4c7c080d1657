/** The investor dashboard (app/investor/page.tsx): two mount effects, one
    reading the stored user and one loading the projects, and the order in
    which the page decides what to render. */
module InvestorDashboard {
  import opened Common

  const NotLoggedInMessage: string := "Not logged in"
  const AuthReadFailedMessage: string := "Failed to load auth info"
  const MissingTokenMessage: string := "Missing auth token"
  const ProjectsFailedMessage: string := "Failed to load projects"
  const ProjectsNetworkMessage: string := "Network error loading projects"

  /** What the user effect records: an error, or the parsed user (which may be null). */
  datatype UserRead = UserError(message: string) | UserLoaded(user: Json)

  /** The user effect: both the token and the stored user must be non-empty,
      and the stored user must parse. */
  function ReadUser(token: Option<string>, rawUser: Option<string>, parse: string -> Option<Json>): (r: UserRead)
    ensures !Present(token) || !Present(rawUser) ==> r == UserError(NotLoggedInMessage)
    ensures Present(token) && Present(rawUser) && parse(rawUser.value).None? ==> r == UserError(AuthReadFailedMessage)
    ensures r.UserLoaded? <==> Present(token) && Present(rawUser) && parse(rawUser.value).Some?
    ensures r.UserLoaded? ==> r.user == parse(rawUser.value).value
  {
    if !Present(token) || !Present(rawUser) then UserError(NotLoggedInMessage)
    else match parse(rawUser.value)
      case None => UserError(AuthReadFailedMessage)
      case Some(u) => UserLoaded(u)
  }

  /** How GET `/api/v1/projects` ends: it throws, or a response and what
      `res.json()` gave (None when it threw). The status is never looked at. */
  datatype ProjectsReply = ProjectsUnreachable | ProjectsResponse(status: nat, body: Option<Json>)

  /** What the projects effect records: an error value, or the `projects`
      value. The error is kept as the page keeps it: `data.error` itself
      when it is truthy, whatever its type. */
  datatype ProjectsRead = ProjectsError(error: Json) | ProjectsLoaded(projects: Json)

  function ReadProjects(token: Option<string>, reply: ProjectsReply): (r: ProjectsRead)
    ensures !Present(token) ==> r == ProjectsError(JString(MissingTokenMessage))
    ensures Present(token) && (reply.ProjectsUnreachable? || reply.body.None? || reply.body == Some(JNull)) ==>
      r == ProjectsError(JString(ProjectsNetworkMessage))
    // a body whose `ok` is falsy is an error whatever the status
    ensures Present(token) && reply.ProjectsResponse? && reply.body.Some? && reply.body.value != JNull
            && !Truthy(Prop(reply.body.value, "ok")) ==>
      r == ProjectsError(Or(Prop(reply.body.value, "error"), JString(ProjectsFailedMessage)))
    // every error recorded is truthy, so the page shows it
    ensures r.ProjectsError? ==> Truthy(r.error)
    ensures r.ProjectsLoaded? <==>
      Present(token) && reply.ProjectsResponse? && reply.body.Some? && Truthy(Prop(reply.body.value, "ok"))
    ensures r.ProjectsLoaded? ==> r.projects == Prop(reply.body.value, "projects")
  {
    if !Present(token) then ProjectsError(JString(MissingTokenMessage))
    else match reply
      case ProjectsUnreachable => ProjectsError(JString(ProjectsNetworkMessage))
      case ProjectsResponse(_, body) =>
        match body
        case None => ProjectsError(JString(ProjectsNetworkMessage))
        case Some(data) =>
          // reading `data.ok` of null throws
          if data == JNull then ProjectsError(JString(ProjectsNetworkMessage))
          else if !Truthy(Prop(data, "ok")) then ProjectsError(Or(Prop(data, "error"), JString(ProjectsFailedMessage)))
          else ProjectsLoaded(Prop(data, "projects"))
  }

  datatype DashboardView = ErrorView(error: Json) | LoadingView | AccessDenied | Dashboard

  /** The render gating: a truthy error first, then loading or no user, then the role. */
  function View(error: Json, loading: bool, user: Json): (v: DashboardView)
    ensures Truthy(error) ==> v == ErrorView(error)
    ensures !Truthy(error) && (loading || !Truthy(user)) ==> v == LoadingView
    ensures v == AccessDenied <==>
      !Truthy(error) && !loading && Truthy(user) && Prop(user, "role") != JString("INVESTOR")
    // only an investor sees the project list
    ensures v == Dashboard <==>
      !Truthy(error) && !loading && Truthy(user) && Prop(user, "role") == JString("INVESTOR")
  {
    if Truthy(error) then ErrorView(error)
    else if loading || !Truthy(user) then LoadingView
    else if Prop(user, "role") != JString("INVESTOR") then AccessDenied
    else Dashboard
  }

  /** The page's state cells. The error cell holds null or the value set. */
  class InvestorDashboardPage {
    var user: Json
    var projects: Json
    var loading: bool
    var error: Json

    constructor ()
      ensures user == JNull && projects == JArray([]) && loading && error == JNull
    {
      user, projects, loading, error := JNull, JArray([]), true, JNull;
    }

    /** The user effect. */
    method LoadUser(store: LocalStorage, parse: string -> Option<Json>)
      modifies this
      ensures match ReadUser(store.GetItem(TokenKey), store.GetItem(UserKey), parse)
        case UserError(m) => error == JString(m) && user == old(user)
        case UserLoaded(u) => user == u && error == old(error)
      ensures projects == old(projects) && loading == old(loading)
    {
      match ReadUser(store.GetItem(TokenKey), store.GetItem(UserKey), parse)
      case UserError(m) =>
        error := JString(m);
      case UserLoaded(u) =>
        user := u;
    }

    /** The projects effect, with `reply` the answer the fetch would get. */
    method LoadProjects(store: LocalStorage, reply: ProjectsReply)
      modifies this
      ensures match ReadProjects(store.GetItem(TokenKey), reply)
        case ProjectsError(e) => error == e && projects == old(projects)
        case ProjectsLoaded(ps) => projects == ps && error == old(error)
      ensures !loading && user == old(user)
    {
      match ReadProjects(store.GetItem(TokenKey), reply) {
        case ProjectsError(e) =>
          error := e;
        case ProjectsLoaded(ps) =>
          projects := ps;
      }
      loading := false;
    }
  }

  /** The view once both effects have run, in their order, on a fresh page.
      The projects effect's error comes later and wins, and any error it
      records is shown; without a token that is the missing-token message.
      The project list shows exactly when the projects loaded and the stored
      user, read as an object, is an investor. */
  lemma ViewAfterMount(token: Option<string>, rawUser: Option<string>, parse: string -> Option<Json>,
                       reply: ProjectsReply)
    ensures var u := ReadUser(token, rawUser, parse);
      var p := ReadProjects(token, reply);
      var error := if p.ProjectsError? then p.error else if u.UserError? then JString(u.message) else JNull;
      var v := View(error, false, if u.UserLoaded? then u.user else JNull);
      (!Present(token) ==> v == ErrorView(JString(MissingTokenMessage)))
      && (p.ProjectsError? ==> v == ErrorView(p.error))
      && (Present(token) && !Present(rawUser) && p.ProjectsLoaded? ==> v == ErrorView(JString(NotLoggedInMessage)))
      && (v == Dashboard <==>
            u.UserLoaded? && p.ProjectsLoaded? && Truthy(u.user)
            && Prop(u.user, "role") == JString("INVESTOR"))
  {
  }
}
