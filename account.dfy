/** The account page (app/account/page.tsx): loading the profile and the
    role's summary, editing the first and last name, and changing the
    password. */
module Account {
  import opened Common

  // ---------------------------------------------------------------------
  // The investor's project summary

  /** `projects.filter(keep).length`. */
  function CountWhere(ps: seq<Json>, keep: Json -> bool): (n: nat)
    ensures n <= |ps|
    ensures n == 0 <==> forall i :: 0 <= i < |ps| ==> !keep(ps[i])
    ensures n == |ps| <==> forall i :: 0 <= i < |ps| ==> keep(ps[i])
    decreases |ps|
  {
    if ps == [] then 0
    else
      var rest := CountWhere(ps[1..], keep);
      assert forall i :: 1 <= i < |ps| ==> ps[i] == ps[1..][i - 1];
      (if keep(ps[0]) then 1 else 0) + rest
  }

  /** `p.status === "OPEN"`: the project is an object whose status is that string. */
  predicate IsOpen(p: Json): (b: bool)
    ensures b <==> p.JObject? && "status" in p.fields && p.fields["status"] == JString("OPEN")
  {
    Prop(p, "status") == JString("OPEN")
  }

  /** `v > 0` for a count read from a project: a positive number, or `true`,
      which compares as 1. */
  predicate Positive(v: Json) {
    (v.JNumber? && v.n > 0) || v == JBool(true)
  }

  /** `p.fundedCount > 0 || p.releasedCount > 0`: the project is an object
      with a positive count of one of the two kinds. */
  predicate IsFunded(p: Json): (b: bool)
    ensures b <==> p.JObject? && exists key :: key in {"fundedCount", "releasedCount"} && key in p.fields
                                              && Positive(p.fields[key])
  {
    Positive(Prop(p, "fundedCount")) || Positive(Prop(p, "releasedCount"))
  }

  /** What `sum + (p.totalPaid || 0)` adds to a numeric sum: a numeric
      amount adds itself, `true` adds 1, and a missing or falsy amount adds
      nothing. */
  function Paid(p: Json): (a: int)
    ensures Prop(p, "totalPaid").JNumber? ==> a == Prop(p, "totalPaid").n
    ensures Prop(p, "totalPaid") == JBool(true) ==> a == 1
    ensures !Truthy(Prop(p, "totalPaid")) ==> a == 0
    ensures !Prop(p, "totalPaid").JNumber? && Prop(p, "totalPaid") != JBool(true) ==> a == 0
  {
    var v := Prop(p, "totalPaid");
    if v.JNumber? then v.n else if v == JBool(true) then 1 else 0
  }

  /** `projects.reduce((sum, p) => sum + (p.totalPaid || 0), 0)`. */
  function TotalSpent(ps: seq<Json>): (t: int)
    ensures (forall i :: 0 <= i < |ps| ==> Paid(ps[i]) >= 0) ==> t >= 0
    ensures (forall i :: 0 <= i < |ps| ==>
               !Prop(ps[i], "totalPaid").JNumber? && Prop(ps[i], "totalPaid") != JBool(true)) ==> t == 0
    decreases |ps|
  {
    if ps == [] then 0
    else
      assert forall i :: 1 <= i < |ps| ==> ps[i] == ps[1..][i - 1];
      Paid(ps[0]) + TotalSpent(ps[1..])
  }

  datatype ProjectSummary = ProjectSummary(totalProjects: nat, openProjects: nat, fundedProjects: nat, totalSpent: int)

  /** The summary `loadInvestorSummary` records for a project list. */
  function Summarize(ps: seq<Json>): (s: ProjectSummary)
    ensures s.totalProjects == |ps|
    ensures s.openProjects <= s.totalProjects && s.fundedProjects <= s.totalProjects
    ensures s.openProjects == 0 <==> forall i :: 0 <= i < |ps| ==> !IsOpen(ps[i])
    ensures s.fundedProjects == 0 <==> forall i :: 0 <= i < |ps| ==> !IsFunded(ps[i])
  {
    ProjectSummary(|ps|, CountWhere(ps, IsOpen), CountWhere(ps, IsFunded), TotalSpent(ps))
  }

  lemma {:induction false} CountWhereAppend(a: seq<Json>, b: seq<Json>, keep: Json -> bool)
    ensures CountWhere(a + b, keep) == CountWhere(a, keep) + CountWhere(b, keep)
    decreases |a|
  {
    if a != [] {
      assert (a + b)[0] == a[0];
      assert (a + b)[1..] == a[1..] + b;
      CountWhereAppend(a[1..], b, keep);
    } else {
      assert a + b == b;
    }
  }

  lemma {:induction false} TotalSpentAppend(a: seq<Json>, b: seq<Json>)
    ensures TotalSpent(a + b) == TotalSpent(a) + TotalSpent(b)
    decreases |a|
  {
    if a != [] {
      assert (a + b)[0] == a[0];
      assert (a + b)[1..] == a[1..] + b;
      TotalSpentAppend(a[1..], b);
    } else {
      assert a + b == b;
    }
  }

  /** Adding two summaries field by field. */
  function Combine(x: ProjectSummary, y: ProjectSummary): ProjectSummary {
    ProjectSummary(x.totalProjects + y.totalProjects, x.openProjects + y.openProjects,
                   x.fundedProjects + y.fundedProjects, x.totalSpent + y.totalSpent)
  }

  /** The summary of two lists together is the sum of their summaries: each
      project contributes independently of the others. */
  lemma SummarizeAppend(a: seq<Json>, b: seq<Json>)
    ensures Summarize(a + b) == Combine(Summarize(a), Summarize(b))
  {
    CountWhereAppend(a, b, IsOpen);
    CountWhereAppend(a, b, IsFunded);
    TotalSpentAppend(a, b);
  }

  /** What one project contributes to the summary. */
  lemma SummarizeOne(p: Json)
    ensures Summarize([p]) ==
      ProjectSummary(1, if IsOpen(p) then 1 else 0, if IsFunded(p) then 1 else 0, Paid(p))
  {
    assert [p][1..] == [];
  }

  /** A project whose `totalPaid` is neither a number nor `true` leaves the
      total spent unchanged. */
  lemma MissingPaidAddsNothing(ps: seq<Json>, p: Json)
    requires !Prop(p, "totalPaid").JNumber? && Prop(p, "totalPaid") != JBool(true)
    ensures TotalSpent(ps + [p]) == TotalSpent(ps)
  {
    TotalSpentAppend(ps, [p]);
    assert [p][1..] == [];
  }

  /** How a GET for the summaries ends: it throws, or a response with `res.ok`
      and what `res.json()` gave (None when it threw). */
  datatype ListReply = ListUnreachable | ListResponse(ok: bool, body: Option<Json>)

  /** `data.projects || []`, when it is a list a `filter` can run over. */
  function ProjectList(data: Json): (r: Option<seq<Json>>)
    ensures !Truthy(Prop(data, "projects")) ==> r == Some([])
    ensures Prop(data, "projects").JArray? ==> r == Some(Prop(data, "projects").items)
    ensures r.None? <==> Truthy(Prop(data, "projects")) && !Prop(data, "projects").JArray?
  {
    match Or(Prop(data, "projects"), JArray([]))
    case JArray(items) => Some(items)
    case _ => None
  }

  /** `loadInvestorSummary`: the summary it records, or None when it records
      nothing (a failed call, a non-ok status, a body that is not JSON or is
      null, a `projects` value that is not a list, or a null project, whose
      `status` cannot be read). */
  function SummaryFrom(reply: ListReply): (s: Option<ProjectSummary>)
    ensures s.Some? <==>
      reply.ListResponse? && reply.ok && reply.body.Some? && reply.body.value != JNull
      && ProjectList(reply.body.value).Some?
      && forall i :: 0 <= i < |ProjectList(reply.body.value).value| ==>
           ProjectList(reply.body.value).value[i] != JNull
    ensures s.Some? ==> s.value == Summarize(ProjectList(reply.body.value).value)
  {
    match reply
    case ListUnreachable => None
    case ListResponse(ok, body) =>
      if !ok || body.None? || body.value == JNull then None
      else match ProjectList(body.value)
        case None => None
        case Some(ps) =>
          if exists i :: 0 <= i < |ps| && ps[i] == JNull then None else Some(Summarize(ps))
  }

  /** `loadBGPayments`: an ok reply's body is recorded as it is. */
  function PaymentsFrom(reply: ListReply): (p: Option<Json>)
    ensures p.Some? <==> reply.ListResponse? && reply.ok && reply.body.Some?
    ensures p.Some? ==> p.value == reply.body.value
  {
    if reply.ListResponse? && reply.ok && reply.body.Some? then reply.body else None
  }

  // ---------------------------------------------------------------------
  // Loading the profile

  /** How GET `/api/v1/users/me` ends. */
  datatype ProfileReply = ProfileUnreachable | ProfileResponse(status: nat, body: Option<Json>)

  /** The summary loader a profile starts. */
  datatype SummaryLoader = LoadBgPayments | LoadInvestorSummary

  /** What `loadProfile` does: the redirect, the error, the user it records,
      the loader it starts, and whether `loading` is switched off. */
  datatype ProfileLoad = ProfileLoad(
    redirect: Option<string>, error: Option<string>, user: Option<Json>,
    loader: Option<SummaryLoader>, loadingEnds: bool)

  const ProfileFailedMessage: string := "Failed to load profile"
  const ProfileNetworkMessage: string := "Network error loading profile"

  function ProfileLoadResult(token: Option<string>, reply: ProfileReply): (p: ProfileLoad)
    // without a token no request is made and `loading` stays on
    ensures !Present(token) ==> p == ProfileLoad(Some("/login"), None, None, None, false)
    ensures Present(token) ==> p.loadingEnds
    // only a missing token or a 401 redirect, and both go to the login page
    ensures p.redirect.Some? <==> !Present(token) || (reply.ProfileResponse? && reply.status == 401)
    ensures p.redirect.Some? ==> p.redirect == Some("/login") && p.error.None? && p.user.None?
    ensures Present(token) && reply.ProfileResponse? && !OkStatus(reply.status) && reply.status != 401 ==>
      p == ProfileLoad(None, Some(ProfileFailedMessage), None, None, true)
    // a failed call, or an ok reply whose body does not parse or is null, is a network error
    ensures Present(token) && reply.ProfileUnreachable? ==>
      p == ProfileLoad(None, Some(ProfileNetworkMessage), None, None, true)
    ensures Present(token) && reply.ProfileResponse? && OkStatus(reply.status)
            && (reply.body.None? || reply.body == Some(JNull)) ==>
      p == ProfileLoad(None, Some(ProfileNetworkMessage), None, None, true)
    // an ok body without a truthy `ok` and `user` records nothing and reports nothing
    ensures Present(token) && reply.ProfileResponse? && OkStatus(reply.status) && reply.body.Some?
            && reply.body.value != JNull
            && !(Truthy(Prop(reply.body.value, "ok")) && Truthy(Prop(reply.body.value, "user"))) ==>
      p == ProfileLoad(None, None, None, None, true)
    // a user is recorded only from an ok reply that says `ok` and has a user
    ensures p.user.Some? <==>
      Present(token) && reply.ProfileResponse? && OkStatus(reply.status) && reply.body.Some?
      && Truthy(Prop(reply.body.value, "ok")) && Truthy(Prop(reply.body.value, "user"))
    ensures p.user.Some? ==> p.user.value == Prop(reply.body.value, "user") && p.error.None?
    // the role picks at most one loader: BG the payments, INVESTOR the projects
    ensures p.loader == Some(LoadBgPayments) <==> p.user.Some? && Prop(p.user.value, "role") == JString("BG")
    ensures p.loader == Some(LoadInvestorSummary) <==>
      p.user.Some? && Prop(p.user.value, "role") == JString("INVESTOR")
  {
    if !Present(token) then ProfileLoad(Some("/login"), None, None, None, false)
    else match reply
      case ProfileUnreachable => ProfileLoad(None, Some(ProfileNetworkMessage), None, None, true)
      case ProfileResponse(status, body) =>
        if !OkStatus(status) then
          if status == 401 then ProfileLoad(Some("/login"), None, None, None, true)
          else ProfileLoad(None, Some(ProfileFailedMessage), None, None, true)
        else match body
          case None => ProfileLoad(None, Some(ProfileNetworkMessage), None, None, true)
          case Some(data) =>
            if data == JNull then
              // reading `data.ok` of null throws
              ProfileLoad(None, Some(ProfileNetworkMessage), None, None, true)
            else if Truthy(Prop(data, "ok")) && Truthy(Prop(data, "user")) then
              var user := Prop(data, "user");
              var loader :=
                if Prop(user, "role") == JString("BG") then Some(LoadBgPayments)
                else if Prop(user, "role") == JString("INVESTOR") then Some(LoadInvestorSummary)
                else None;
              ProfileLoad(None, None, Some(user), loader, true)
            else ProfileLoad(None, None, None, None, true)
  }

  /** `data.user.firstName || ""` (and the same for `lastName`). */
  function EditName(user: Json, key: string): (r: string)
    ensures !Truthy(Prop(user, key)) ==> r == ""
    ensures Prop(user, key).JString? ==> r == Prop(user, key).s
  {
    JsString(Or(Prop(user, key), JString("")))
  }

  /** What the page renders. */
  datatype AccountView = LoadingView | ErrorView(message: string) | ProfileView(user: Json)

  /** The render gating: loading first, then an error or a missing user. */
  function View(loading: bool, error: Option<string>, user: Option<Json>): (v: AccountView)
    ensures loading ==> v == LoadingView
    ensures v.ErrorView? <==> !loading && (Present(error) || user.None?)
    ensures v.ErrorView? ==> v.message == OrElse(error, ProfileFailedMessage)
    ensures v.ProfileView? ==> user == Some(v.user)
  {
    if loading then LoadingView
    else if Present(error) || user.None? then ErrorView(OrElse(error, ProfileFailedMessage))
    else ProfileView(user.value)
  }

  /** After the load effect on a fresh page: without a token the page stays on
      its loading view; otherwise the profile shows exactly when a user was
      recorded, and every other outcome, a 401 included, shows an error. */
  lemma ViewAfterLoad(token: Option<string>, reply: ProfileReply)
    ensures var p := ProfileLoadResult(token, reply);
      var v := View(!p.loadingEnds, p.error, p.user);
      (!Present(token) ==> v == LoadingView)
      && (Present(token) ==> (v.ProfileView? <==> p.user.Some?) && (v.ErrorView? <==> p.user.None?))
      && (Present(token) && reply.ProfileResponse? && reply.status == 401 ==>
            v == ErrorView(ProfileFailedMessage))
  {
  }

  // ---------------------------------------------------------------------
  // Saving the profile and changing the password

  /** How a PUT ends: it throws, or a response with `res.ok` and what
      `res.json()` gave (None when it threw). */
  datatype PutReply = PutUnreachable | PutResponse(ok: bool, body: Option<Json>)

  /** The error a PUT reply leaves, or None on success. The body is read
      before the status is looked at, so a body that is not JSON is a
      network error even for an ok reply; a null body of a failed reply is
      one too, since its `error` cannot be read. */
  function PutError(reply: PutReply, fallback: string, networkMessage: string): (e: Option<string>)
    ensures e.None? <==> reply.PutResponse? && reply.ok && reply.body.Some?
    ensures reply.PutUnreachable? ==> e == Some(networkMessage)
    ensures reply.PutResponse? && reply.body.None? ==> e == Some(networkMessage)
    ensures reply.PutResponse? && !reply.ok && reply.body == Some(JNull) ==> e == Some(networkMessage)
    ensures reply.PutResponse? && !reply.ok && reply.body.Some? && reply.body.value != JNull ==>
      e == Some(ErrorText(reply.body.value, fallback))
  {
    match reply
    case PutUnreachable => Some(networkMessage)
    case PutResponse(ok, body) =>
      if body.None? then Some(networkMessage)
      else if ok then None
      else if body.value == JNull then Some(networkMessage)
      else Some(ErrorText(body.value, fallback))
  }

  /** Setting `firstName` and `lastName` on an object's fields. */
  function WithNames(fields: map<string, Json>, first: string, last: string): (r: map<string, Json>)
    ensures r.Keys == fields.Keys + {"firstName", "lastName"}
    ensures r["firstName"] == JString(first) && r["lastName"] == JString(last)
    ensures forall k :: k in fields && k != "firstName" && k != "lastName" ==> r[k] == fields[k]
  {
    fields["firstName" := JString(first)]["lastName" := JString(last)]
  }

  /** Saving twice is saving once with the later names. */
  lemma WithNamesLastWins(fields: map<string, Json>, a: string, b: string, c: string, d: string)
    ensures WithNames(WithNames(fields, a, b), c, d) == WithNames(fields, c, d)
  {
    var l, r := WithNames(WithNames(fields, a, b), c, d), WithNames(fields, c, d);
    assert l.Keys == r.Keys;
    forall k | k in l
      ensures l[k] == r[k]
    {
    }
  }

  /** The in-memory update: a present user keeps every field but the two
      names, which take the edited values; no user stays no user. */
  function MergedUser(prev: Option<Json>, first: string, last: string): (r: Option<Json>)
    ensures r.Some? <==> prev.Some?
    ensures r.Some? ==> r.value.JObject?
    ensures r.Some? && prev.value.JObject? ==>
      r.value.fields.Keys == prev.value.fields.Keys + {"firstName", "lastName"}
      && r.value.fields["firstName"] == JString(first) && r.value.fields["lastName"] == JString(last)
      && forall k :: k in prev.value.fields && k != "firstName" && k != "lastName" ==>
           r.value.fields[k] == prev.value.fields[k]
  {
    match prev
    case None => None
    case Some(u) => Some(JObject(WithNames(ObjectFields(u), first, last)))
  }

  /** What happens to `pfm_user`: nothing, a new value, or an exception. */
  datatype StoredWrite = NoWrite | Write(text: string) | WriteThrows

  /** The stored-user update. An empty or missing value is left alone. A
      value `JSON.parse` rejects throws, and so does assigning a property
      of null or of a primitive. Properties set on an array are dropped by
      `JSON.stringify`, so an array is written back as it was. */
  function StoredUserWrite(stored: Option<string>, first: string, last: string,
                           parse: string -> Option<Json>, stringify: Json -> string): (w: StoredWrite)
    ensures !Present(stored) ==> w == NoWrite
    ensures w.WriteThrows? <==>
      Present(stored) && (parse(stored.value).None?
                          || !(parse(stored.value).value.JObject? || parse(stored.value).value.JArray?))
    ensures Present(stored) && parse(stored.value).Some? && parse(stored.value).value.JObject? ==>
      w == Write(stringify(JObject(WithNames(parse(stored.value).value.fields, first, last))))
    ensures Present(stored) && parse(stored.value).Some? && parse(stored.value).value.JArray? ==>
      w == Write(stringify(parse(stored.value).value))
  {
    if !Present(stored) then NoWrite
    else match parse(stored.value)
      case None => WriteThrows
      case Some(v) =>
        if v.JObject? then Write(stringify(JObject(WithNames(v.fields, first, last))))
        else if v.JArray? then Write(stringify(v))
        else WriteThrows
  }

  /** When `JSON.parse` reads back what `JSON.stringify` writes, the stored
      user read after a save has the edited names and every other field it
      had before. */
  lemma StoredUserReadsBack(stored: string, fields: map<string, Json>, first: string, last: string,
                            parse: string -> Option<Json>, stringify: Json -> string)
    requires stored != "" && parse(stored) == Some(JObject(fields))
    requires forall v :: parse(stringify(v)) == Some(v)
    ensures var w := StoredUserWrite(Some(stored), first, last, parse, stringify);
      w.Write? && parse(w.text).Some? && parse(w.text).value.JObject?
      && parse(w.text).value.fields["firstName"] == JString(first)
      && parse(w.text).value.fields["lastName"] == JString(last)
      && forall k :: k in fields && k != "firstName" && k != "lastName" ==>
           k in parse(w.text).value.fields && parse(w.text).value.fields[k] == fields[k]
  {
    var merged := JObject(WithNames(fields, first, last));
    assert parse(stringify(merged)) == Some(merged);
  }

  /** The checks `handleChangePassword` makes before it sends anything. */
  datatype PasswordCheck = NoSession | Mismatch | TooShort | Send

  const MismatchMessage: string := "New passwords do not match"
  const TooShortMessage: string := "New password must be at least 8 characters"
  const PasswordFailedMessage: string := "Failed to change password"
  const PasswordNetworkMessage: string := "Network error changing password"
  const ProfileUpdateFailedMessage: string := "Failed to update profile"
  const ProfileSaveNetworkMessage: string := "Network error saving profile"

  /** The token first, then the confirmation, then the length. */
  function CheckNewPassword(token: Option<string>, newPassword: string, confirmPassword: string): (c: PasswordCheck)
    ensures c == NoSession <==> !Present(token)
    // a mismatch is reported whatever the length
    ensures c == Mismatch <==> Present(token) && newPassword != confirmPassword
    ensures c == TooShort <==> Present(token) && newPassword == confirmPassword && |newPassword| < 8
    ensures c == Send <==> Present(token) && newPassword == confirmPassword && |newPassword| >= 8
  {
    if !Present(token) then NoSession
    else if newPassword != confirmPassword then Mismatch
    else if |newPassword| < 8 then TooShort
    else Send
  }

  /** The state cells of the page. */
  class AccountPage {
    var user: Option<Json>
    var loading: bool
    var error: Option<string>
    /** Where `router.replace` was sent, if anywhere. */
    var redirect: Option<string>
    /** The summary loaders started so far. */
    var started: seq<SummaryLoader>
    var bgPayments: Json
    var investorSummary: Option<ProjectSummary>

    var editMode: bool
    var editFirstName: string
    var editLastName: string
    var savingProfile: bool
    var profileSuccess: bool
    var profileError: Option<string>

    var showPasswordForm: bool
    var currentPassword: string
    var newPassword: string
    var confirmPassword: string
    var savingPassword: bool
    var passwordSuccess: bool
    var passwordError: Option<string>

    constructor ()
      ensures user == None && loading && error == None && redirect == None && started == []
      ensures bgPayments == JNull && investorSummary == None
      ensures !editMode && editFirstName == "" && editLastName == ""
      ensures !savingProfile && !profileSuccess && profileError == None
      ensures !showPasswordForm && currentPassword == "" && newPassword == "" && confirmPassword == ""
      ensures !savingPassword && !passwordSuccess && passwordError == None
    {
      user, loading, error, redirect, started := None, true, None, None, [];
      bgPayments, investorSummary := JNull, None;
      editMode, editFirstName, editLastName := false, "", "";
      savingProfile, profileSuccess, profileError := false, false, None;
      showPasswordForm, currentPassword, newPassword, confirmPassword := false, "", "", "";
      savingPassword, passwordSuccess, passwordError := false, false, None;
    }

    /** The load effect, with `reply` the answer GET `/api/v1/users/me` would get. */
    method LoadProfile(store: LocalStorage, reply: ProfileReply)
      modifies this`redirect, this`error, this`user, this`started, this`loading
      modifies this`editFirstName, this`editLastName
      ensures var p := ProfileLoadResult(old(store.GetItem(TokenKey)), reply);
        redirect == (if p.redirect.Some? then p.redirect else old(redirect))
        && error == (if p.error.Some? then p.error else old(error))
        && user == (if p.user.Some? then p.user else old(user))
        && loading == (if p.loadingEnds then false else old(loading))
        && started == old(started) + (if p.loader.Some? then [p.loader.value] else [])
        && (p.user.Some? ==>
              editFirstName == EditName(p.user.value, "firstName")
              && editLastName == EditName(p.user.value, "lastName"))
        && (p.user.None? ==> editFirstName == old(editFirstName) && editLastName == old(editLastName))
    {
      var p := ProfileLoadResult(store.GetItem(TokenKey), reply);
      // each cell is set only when the effect reaches its setter
      redirect, error, user, started, loading :=
        if p.redirect.Some? then p.redirect else redirect,
        if p.error.Some? then p.error else error,
        if p.user.Some? then p.user else user,
        started + (if p.loader.Some? then [p.loader.value] else []),
        if p.loadingEnds then false else loading;
      if p.user.Some? {
        editFirstName, editLastName := EditName(p.user.value, "firstName"), EditName(p.user.value, "lastName");
      }
    }

    /** `loadInvestorSummary` receiving its reply. */
    method ReceiveInvestorSummary(reply: ListReply)
      modifies this`investorSummary
      ensures investorSummary == (if SummaryFrom(reply).Some? then SummaryFrom(reply) else old(investorSummary))
    {
      var s := SummaryFrom(reply);
      if s.Some? {
        investorSummary := s;
      }
    }

    /** `loadBGPayments` receiving its reply. */
    method ReceiveBgPayments(reply: ListReply)
      modifies this`bgPayments
      ensures bgPayments == (if PaymentsFrom(reply).Some? then PaymentsFrom(reply).value else old(bgPayments))
    {
      var p := PaymentsFrom(reply);
      if p.Some? {
        bgPayments := p.value;
      }
    }

    /** `handleSaveProfile`, with `reply` the answer the PUT would get; `sent`
        says whether the PUT was made. */
    method SaveProfile(store: LocalStorage, reply: PutReply, parse: string -> Option<Json>,
                       stringify: Json -> string) returns (sent: bool)
      modifies this`savingProfile, this`profileError, this`profileSuccess, this`user, this`editMode, store
      // without a token nothing happens
      ensures !Present(old(store.GetItem(TokenKey))) ==> !sent && unchanged(this) && unchanged(store)
      ensures Present(old(store.GetItem(TokenKey))) ==> sent && !savingProfile
      ensures Present(old(store.GetItem(TokenKey))) ==>
        var e := PutError(reply, ProfileUpdateFailedMessage, ProfileSaveNetworkMessage);
        var w := StoredUserWrite(old(store.GetItem(UserKey)), editFirstName, editLastName, parse, stringify);
        // a failed PUT changes neither user
        (e.Some? ==>
          profileError == e && !profileSuccess && editMode == old(editMode)
          && user == old(user) && store.items == old(store.items))
        // a successful PUT updates the in-memory user, then the stored one
        && (e.None? ==> user == MergedUser(old(user), editFirstName, editLastName))
        && (e.None? && w.WriteThrows? ==>
              profileError == Some(ProfileSaveNetworkMessage) && !profileSuccess
              && editMode == old(editMode) && store.items == old(store.items))
        && (e.None? && w.NoWrite? ==>
              profileError == None && profileSuccess && !editMode && store.items == old(store.items))
        && (e.None? && w.Write? ==>
              profileError == None && profileSuccess && !editMode
              && store.items == old(store.items)[UserKey := w.text])
    {
      var token := store.GetItem(TokenKey);
      if !Present(token) {
        sent := false;
        return;
      }
      sent := true;
      savingProfile, profileError, profileSuccess := true, None, false;
      var e := PutError(reply, ProfileUpdateFailedMessage, ProfileSaveNetworkMessage);
      if e.Some? {
        profileError := e;
      } else {
        user := MergedUser(user, editFirstName, editLastName);
        var w := StoredUserWrite(store.GetItem(UserKey), editFirstName, editLastName, parse, stringify);
        match w
        case WriteThrows =>
          profileError := Some(ProfileSaveNetworkMessage);
        case NoWrite =>
          editMode, profileSuccess := false, true;
        case Write(text) =>
          store.SetItem(UserKey, text);
          editMode, profileSuccess := false, true;
      }
      savingProfile := false;
    }

    /** `handleChangePassword`, with `reply` the answer the PUT would get;
        `sent` says whether the PUT was made. */
    method ChangePassword(store: LocalStorage, reply: PutReply) returns (sent: bool)
      modifies this`passwordError, this`passwordSuccess, this`savingPassword, this`showPasswordForm
      modifies this`currentPassword, this`newPassword, this`confirmPassword
      ensures var c := CheckNewPassword(store.GetItem(TokenKey), old(newPassword), old(confirmPassword));
        (sent <==> c == Send)
        && (c == NoSession ==> unchanged(this))
        && (c == Mismatch ==>
              passwordError == Some(MismatchMessage) && passwordSuccess == old(passwordSuccess)
              && savingPassword == old(savingPassword) && showPasswordForm == old(showPasswordForm)
              && currentPassword == old(currentPassword)
              && newPassword == old(newPassword) && confirmPassword == old(confirmPassword))
        && (c == TooShort ==>
              passwordError == Some(TooShortMessage) && passwordSuccess == old(passwordSuccess)
              && savingPassword == old(savingPassword) && showPasswordForm == old(showPasswordForm)
              && currentPassword == old(currentPassword)
              && newPassword == old(newPassword) && confirmPassword == old(confirmPassword))
        && (c == Send ==>
              var e := PutError(reply, PasswordFailedMessage, PasswordNetworkMessage);
              !savingPassword && passwordError == e
              && (e.Some? ==>
                    !passwordSuccess && showPasswordForm == old(showPasswordForm)
                    && currentPassword == old(currentPassword) && newPassword == old(newPassword)
                    && confirmPassword == old(confirmPassword))
              && (e.None? ==>
                    passwordSuccess && !showPasswordForm
                    && currentPassword == "" && newPassword == "" && confirmPassword == ""))
    {
      var c := CheckNewPassword(store.GetItem(TokenKey), newPassword, confirmPassword);
      if c == NoSession {
        return false;
      } else if c == Mismatch {
        passwordError := Some(MismatchMessage);
        return false;
      } else if c == TooShort {
        passwordError := Some(TooShortMessage);
        return false;
      }
      sent := true;
      savingPassword, passwordError, passwordSuccess := true, None, false;
      var e := PutError(reply, PasswordFailedMessage, PasswordNetworkMessage);
      if e.Some? {
        passwordError := e;
      } else {
        showPasswordForm := false;
        currentPassword, newPassword, confirmPassword := "", "", "";
        passwordSuccess := true;
      }
      savingPassword := false;
    }

    /** The timer a successful profile save schedules: it clears the success flag. */
    method ProfileSuccessTimer()
      modifies this`profileSuccess
      ensures !profileSuccess
    {
      profileSuccess := false;
    }

    /** The timer a successful password change schedules: it clears the success flag. */
    method PasswordSuccessTimer()
      modifies this`passwordSuccess
      ensures !passwordSuccess
    {
      passwordSuccess := false;
    }
  }
}
