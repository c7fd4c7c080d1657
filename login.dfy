/** The login form (app/login/page.tsx). Submitting walks a fixed list of
    candidate login endpoints in order. A missing endpoint (404), a network
    error or a success reply without a token or user moves on to the next
    one; a rejection stops the walk with an error; an accepted login stores
    the session in localStorage and redirects by role. */
module Login {
  import opened Common

  /** `LOGIN_ENDPOINTS`, tried in this order. */
  const LoginEndpoints: seq<string> := [
    "/api/v1/users/login",
    "/api/v1/users/sign-in",
    "/api/v1/users/signin",
    "/api/v1/auth/login",
    "/api/v1/auth/sign-in",
    "/api/v1/auth/signin",
    "/api/auth/login",
    "/auth/login",
    "/api/v1/login",
    "/api/login"
  ]

  /** The candidate endpoints are pairwise distinct. */
  lemma EndpointsDistinct()
    ensures NoDuplicates(LoginEndpoints)
  {
  }

  /** How the POST to one endpoint ends: `fetch` throws, or a response with
      an HTTP status and the value `res.json()` produced (None when it threw). */
  datatype Reply = NetworkError | Reply(status: nat, body: Option<Json>)

  /** The error messages a walk records, before they are rendered as text. */
  datatype Message =
    | NotFound(path: string)              // the endpoint answered 404
    | FailedAt(path: string, status: nat) // a rejection without an `error` of its own
    | ServerError(error: Json)            // the truthy `error` of a rejection
    | MissingFields                       // an ok reply without a token or a user
    | Unreachable(path: string)           // `fetch` threw
    | NoEndpoint                          // the generic fallback

  /** A message that moves the walk on: a 404, a missing field or a network error. */
  predicate MovesOn(m: Message) {
    m.NotFound? || m.MissingFields? || m.Unreachable?
  }

  /** The text the form shows for a message. A server's error is turned into
      text with `String(v)`; the messages that move the walk on are never
      empty, so the final `lastErrorMessage || fallback` keeps them. */
  function Text(m: Message): (r: string)
    ensures m.ServerError? ==> r == JsString(m.error)
    ensures MovesOn(m) ==> r != ""
  {
    match m
    case NotFound(path) => "Login endpoint not found at " + (path + " (404).")
    case FailedAt(path, status) =>
      "Login failed at " + path + " with status " + NatToString(status) + ". Please check your email and password."
    case ServerError(e) => JsString(e)
    case MissingFields => "Login response was missing required fields from backend."
    case Unreachable(path) => "Network error: failed to reach the server at " + (path + ".")
    case NoEndpoint => "Unable to reach any login endpoint on the backend. Please try again later."
  }

  /** What one endpoint's reply means for the walk. */
  datatype Step =
    | Next(message: Message)                       // record the message and try the next endpoint
    | Rejected(message: Message)                   // stop with this error
    | Accepted(token: Json, role: Json, user: Json) // log in

  /** `token || accessToken || jwt`: the first truthy of the three, else `jwt`. */
  function TokenOf(data: Json): (t: Json)
    ensures Truthy(Prop(data, "token")) ==> t == Prop(data, "token")
    ensures !Truthy(Prop(data, "token")) && Truthy(Prop(data, "accessToken")) ==> t == Prop(data, "accessToken")
    ensures !Truthy(Prop(data, "token")) && !Truthy(Prop(data, "accessToken")) ==> t == Prop(data, "jwt")
  {
    Or(Or(Prop(data, "token"), Prop(data, "accessToken")), Prop(data, "jwt"))
  }

  /** `user || data?.user || null`: the reply's own user, else the one nested
      under `data`, else null. */
  function UserOf(data: Json): (u: Json)
    ensures Truthy(u) <==> Truthy(Prop(data, "user")) || Truthy(Prop(Prop(data, "data"), "user"))
    ensures Truthy(Prop(data, "user")) ==> u == Prop(data, "user")
    ensures !Truthy(Prop(data, "user")) ==> u == Or(Prop(Prop(data, "data"), "user"), JNull)
  {
    Or(Or(Prop(data, "user"), Prop(Prop(data, "data"), "user")), JNull)
  }

  /** `role || (user && user.role) || "INVESTOR"`: the reply's own role, else
      the user's, else INVESTOR; never falsy. */
  function RoleOf(data: Json, user: Json): (r: Json)
    ensures Truthy(r)
    ensures Truthy(Prop(data, "role")) ==> r == Prop(data, "role")
    ensures !Truthy(Prop(data, "role")) && Truthy(user) && Truthy(Prop(user, "role")) ==> r == Prop(user, "role")
    ensures !Truthy(Prop(data, "role")) && (!Truthy(user) || !Truthy(Prop(user, "role"))) ==>
      r == JString("INVESTOR")
  {
    Or(Or(Prop(data, "role"), if Truthy(user) then Prop(user, "role") else user), JString("INVESTOR"))
  }

  /** `data?.error || <status message>`. */
  function Rejection(data: Json, path: string, status: nat): (m: Message)
    ensures Text(m) == ErrorText(data, Text(FailedAt(path, status)))
  {
    if Truthy(Prop(data, "error")) then ServerError(Prop(data, "error")) else FailedAt(path, status)
  }

  /** The body of the per-endpoint `try` block: what the reply at `path` means. */
  function StepAt(path: string, reply: Reply): (s: Step)
    // a 404 and a network error always move on
    ensures reply.NetworkError? ==> s == Next(Unreachable(path))
    ensures reply.Reply? && reply.status == 404 ==> s == Next(NotFound(path))
    // a non-ok status, a missing body or `ok === false` stop the walk
    ensures reply.Reply? && reply.status != 404 ==>
      (s.Rejected? <==>
        !OkStatus(reply.status) || reply.body.None? || !Truthy(reply.body.value)
        || Prop(reply.body.value, "ok") == JBool(false))
    // the rejection carries the server's error when it gives one
    ensures s.Rejected? && reply.body.Some? && Truthy(Prop(reply.body.value, "error")) ==>
      s.message == ServerError(Prop(reply.body.value, "error"))
    ensures s.Rejected? && (reply.body.None? || !Truthy(Prop(reply.body.value, "error"))) ==>
      s.message == FailedAt(path, reply.status)
    // an acceptance needs a truthy token and user, and only an ok reply gives one
    ensures s.Accepted? ==>
      reply.Reply? && OkStatus(reply.status) && reply.body.Some?
      && Truthy(s.token) && Truthy(s.user) && Truthy(s.role)
      && s.token == TokenOf(reply.body.value) && s.user == UserOf(reply.body.value)
      && s.role == RoleOf(reply.body.value, s.user)
    // an ok reply that is not refused and carries a truthy token and user logs in
    ensures (reply.Reply? && reply.status != 404 && OkStatus(reply.status) && reply.body.Some?
             && Truthy(reply.body.value) && Prop(reply.body.value, "ok") != JBool(false)
             && Truthy(TokenOf(reply.body.value)) && Truthy(UserOf(reply.body.value))) ==> s.Accepted?
    ensures s.Next? && reply.Reply? && reply.status != 404 ==> s.message == MissingFields
    ensures s.Next? ==> MovesOn(s.message)
  {
    match reply
    case NetworkError => Next(Unreachable(path))
    case Reply(status, body) =>
      var data := if body.Some? then body.value else JNull;
      if status == 404 then Next(NotFound(path))
      else if !OkStatus(status) || !Truthy(data) || Prop(data, "ok") == JBool(false) then
        Rejected(Rejection(data, path, status))
      else
        var token := TokenOf(data);
        var user := UserOf(data);
        var role := RoleOf(data, user);
        if !Truthy(token) || !Truthy(user) then Next(MissingFields)
        else Accepted(token, role, user)
  }

  /** How a submission ends. */
  datatype Outcome = Failed(message: Message) | LoggedIn(token: Json, role: Json, user: Json)

  /** A walk: its outcome and the endpoints contacted, in order. */
  datatype Run = Run(outcome: Outcome, tried: seq<string>)

  function LastTried(r: Run): string
    requires |r.tried| > 0
  {
    r.tried[|r.tried| - 1]
  }

  /** The message a walk that ran out of endpoints reports: the last one
      recorded, else the generic fallback. */
  function Final(last: Option<Message>): Message {
    if last.Some? then last.value else NoEndpoint
  }

  /** What each endpoint's reply means, for a backend that answers each path. */
  function Steps(backend: string -> Reply): string -> Step {
    path => StepAt(path, backend(path))
  }

  /** The walk over `endpoints` from index `i` on, with the last recorded
      message `last`. */
  function RunFrom(endpoints: seq<string>, step: string -> Step, i: nat, last: Option<Message>): (r: Run)
    requires i <= |endpoints|
    ensures |r.tried| <= |endpoints| - i
    ensures |r.tried| == 0 ==> r.outcome == Failed(Final(last))
    decreases |endpoints| - i
  {
    if i == |endpoints| then Run(Failed(Final(last)), [])
    else
      var path := endpoints[i];
      match step(path)
      case Next(m) =>
        var rest := RunFrom(endpoints, step, i + 1, Some(m));
        Run(rest.outcome, [path] + rest.tried)
      case Rejected(m) => Run(Failed(m), [path])
      case Accepted(t, ro, u) => Run(LoggedIn(t, ro, u), [path])
  }

  /** The walk a submission makes over `endpoints`, against a backend that
      answers each path. */
  function Walk(endpoints: seq<string>, backend: string -> Reply): Run {
    RunFrom(endpoints, Steps(backend), 0, None)
  }

  /** The walk over the page's own endpoint list. */
  function LoginRun(backend: string -> Reply): Run {
    Walk(LoginEndpoints, backend)
  }

  /** What the outcome of a walk is, given the step its last endpoint took. */
  function Decided(s: Step): Outcome {
    match s
    case Next(m) => Failed(m)
    case Rejected(m) => Failed(m)
    case Accepted(t, ro, u) => LoggedIn(t, ro, u)
  }

  /** The shape of a walk: the endpoints contacted are the next ones of the
      list, in order; every one but the last said to move on; the walk stops
      early only at a rejection or an acceptance; and the last endpoint
      contacted decides the outcome. */
  lemma {:induction false} RunFromWalk(endpoints: seq<string>, step: string -> Step, i: nat,
                                       last: Option<Message>)
    requires i <= |endpoints|
    ensures var r := RunFrom(endpoints, step, i, last);
      r.tried == endpoints[i..i + |r.tried|]
      && (forall k :: 0 <= k < |r.tried| - 1 ==> step(r.tried[k]).Next?)
      && (|r.tried| < |endpoints| - i ==>
            |r.tried| > 0 && !step(LastTried(r)).Next?)
      && (|r.tried| > 0 ==> r.outcome == Decided(step(LastTried(r))))
    decreases |endpoints| - i
  {
    if i < |endpoints| {
      var path := endpoints[i];
      var r := RunFrom(endpoints, step, i, last);
      match step(path)
      case Next(m) =>
        var rest := RunFrom(endpoints, step, i + 1, Some(m));
        RunFromWalk(endpoints, step, i + 1, Some(m));
        assert r.tried == [path] + rest.tried;
        assert r.tried == endpoints[i..i + |r.tried|];
        forall k | 0 <= k < |r.tried| - 1
          ensures step(r.tried[k]).Next?
        {
          if k > 0 {
            assert r.tried[k] == rest.tried[k - 1];
          }
        }
        if |rest.tried| > 0 {
          assert LastTried(r) == LastTried(rest);
        } else {
          assert LastTried(r) == path && Final(Some(m)) == m;
        }
      case Rejected(m) =>
        assert LastTried(r) == path;
      case Accepted(t, ro, u) =>
        assert LastTried(r) == path;
    }
  }

  /** Every endpoint is contacted at most once, and at least one is. */
  lemma EachEndpointAtMostOnce(backend: string -> Reply)
    ensures 0 < |LoginRun(backend).tried| <= |LoginEndpoints|
    ensures NoDuplicates(LoginRun(backend).tried)
  {
    var tried := LoginRun(backend).tried;
    RunFromWalk(LoginEndpoints, Steps(backend), 0, None);
    EndpointsDistinct();
    forall i, j | 0 <= i < j < |tried| ensures tried[i] != tried[j] {
      assert tried[i] == LoginEndpoints[i] && tried[j] == LoginEndpoints[j];
    }
  }

  /** When every endpoint from `i` on moves on, all of them are contacted and
      the error is the last recorded message: the generic fallback is never
      shown once an endpoint was tried. `LoginRun` is the walk over
      `LoginEndpoints` from 0 with no message. */
  lemma {:induction false} ExhaustedReportsLastMessage(endpoints: seq<string>, step: string -> Step,
                                                       i: nat, last: Option<Message>)
    requires i < |endpoints|
    requires forall k :: i <= k < |endpoints| ==> step(endpoints[k]).Next?
    ensures RunFrom(endpoints, step, i, last).tried == endpoints[i..]
    ensures RunFrom(endpoints, step, i, last).outcome ==
      Failed(step(endpoints[|endpoints| - 1]).message)
    decreases |endpoints| - i
  {
    var path := endpoints[i];
    assert step(path).Next?;
    var m := step(path).message;
    if i + 1 < |endpoints| {
      ExhaustedReportsLastMessage(endpoints, step, i + 1, Some(m));
      assert endpoints[i..] == [path] + endpoints[i + 1..];
    } else {
      assert RunFrom(endpoints, step, i + 1, Some(m)) == Run(Failed(m), []);
    }
  }

  /** A rejection at endpoint `k`, with every endpoint from `i` up to it moving
      on, stops the walk there: the later endpoints are not contacted. */
  lemma {:induction false} RejectionStopsWalk(endpoints: seq<string>, step: string -> Step,
                                              i: nat, last: Option<Message>, k: nat)
    requires i <= k < |endpoints|
    requires forall j :: i <= j < k ==> step(endpoints[j]).Next?
    requires step(endpoints[k]).Rejected?
    ensures RunFrom(endpoints, step, i, last).tried == endpoints[i..k + 1]
    ensures RunFrom(endpoints, step, i, last).outcome ==
      Failed(step(endpoints[k]).message)
    decreases k - i
  {
    var path := endpoints[i];
    if i < k {
      assert step(path).Next?;
      var m := step(path).message;
      RejectionStopsWalk(endpoints, step, i + 1, Some(m), k);
      assert endpoints[i..k + 1] == [path] + endpoints[i + 1..k + 1];
    }
  }

  /** The page a successful login goes to: `/bg` for the role "BG", `/` otherwise. */
  function RedirectFor(role: Json): (url: string)
    ensures url == "/bg" <==> role == JString("BG")
    ensures url == "/bg" || url == "/"
  {
    if role == JString("BG") then "/bg" else "/"
  }

  /** The session a successful login writes: exactly the three session keys. */
  function SessionWrites(items: map<string, string>, token: Json, role: Json, user: Json,
                         stringify: Json -> string): (r: map<string, string>)
    ensures r.Keys == items.Keys + {TokenKey, RoleKey, UserKey}
    ensures r[TokenKey] == JsString(token) && r[RoleKey] == JsString(role) && r[UserKey] == stringify(user)
    ensures forall k :: k in items && k !in {TokenKey, RoleKey, UserKey} ==> r[k] == items[k]
  {
    items[TokenKey := JsString(token)][RoleKey := JsString(role)][UserKey := stringify(user)]
  }

  /** The login form's state cells, with the redirect `window.location.href` receives. */
  class LoginForm {
    /** The candidate endpoints the form walks. */
    const endpoints: seq<string>
    var submitting: bool
    var error: Option<string>
    var location: Option<string>

    constructor ()
      ensures endpoints == LoginEndpoints
      ensures !submitting && error == None && location == None
    {
      endpoints := LoginEndpoints;
      submitting, error, location := false, None, None;
    }

    /** `handleSubmit`: `backend` answers each endpoint path, and `stringify`
        stands for `JSON.stringify`. Returns the endpoints contacted, in order;
        on a form made by the constructor the walk is `LoginRun(backend)`. */
    method HandleSubmit(backend: string -> Reply, store: LocalStorage, stringify: Json -> string)
      returns (tried: seq<string>)
      modifies this, store
      ensures !submitting
      ensures tried == Walk(endpoints, backend).tried
      ensures Walk(endpoints, backend).outcome.Failed? ==>
        error == Some(Text(Walk(endpoints, backend).outcome.message))
        && location == old(location) && store.items == old(store.items)
      ensures Walk(endpoints, backend).outcome.LoggedIn? ==>
        var o := Walk(endpoints, backend).outcome;
        error == None && location == Some(RedirectFor(o.role))
        && store.items == SessionWrites(old(store.items), o.token, o.role, o.user, stringify)
    {
      error := None;
      submitting := true;
      var lastErrorMessage: Option<string> := None;
      ghost var last: Option<Message> := None;
      var i := 0;
      tried := [];
      while i < |endpoints|
        invariant 0 <= i <= |endpoints|
        invariant Walk(endpoints, backend) ==
          Run(RunFrom(endpoints, Steps(backend), i, last).outcome, tried + RunFrom(endpoints, Steps(backend), i, last).tried)
        invariant last.Some? ==> MovesOn(last.value) && lastErrorMessage == Some(Text(last.value))
        invariant last.None? ==> lastErrorMessage == None
        invariant error == None && location == old(location) && store.items == old(store.items)
        decreases |endpoints| - i
      {
        var path := endpoints[i];
        ghost var before := tried;
        tried := tried + [path];
        assert Steps(backend)(path) == StepAt(path, backend(path));
        match StepAt(path, backend(path)) {
          case Next(m) =>
            ghost var rest := RunFrom(endpoints, Steps(backend), i + 1, Some(m));
            assert RunFrom(endpoints, Steps(backend), i, last) == Run(rest.outcome, [path] + rest.tried);
            assert before + ([path] + rest.tried) == tried + rest.tried;
            lastErrorMessage := Some(Text(m));
            last := Some(m);
            i := i + 1;
          case Rejected(m) =>
            assert RunFrom(endpoints, Steps(backend), i, last) == Run(Failed(m), [path]);
            error := Some(Text(m));
            submitting := false;
            return;
          case Accepted(token, role, user) =>
            assert RunFrom(endpoints, Steps(backend), i, last) == Run(LoggedIn(token, role, user), [path]);
            store.SetItem(TokenKey, JsString(token));
            store.SetItem(RoleKey, JsString(role));
            store.SetItem(UserKey, stringify(user));
            location := Some(RedirectFor(role));
            submitting := false;
            return;
        }
      }
      assert RunFrom(endpoints, Steps(backend), i, last) == Run(Failed(Final(last)), []);
      error := Some(OrElse(lastErrorMessage, Text(NoEndpoint)));
      submitting := false;
    }
  }
}
