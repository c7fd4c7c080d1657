/** The landing page (app/page.tsx): the session it reads back from
    localStorage, the dashboard link and labels it derives from the role,
    and the backend status line in the footer. */
module Home {
  import opened Common

  /** The logged-in user the page shows, as its own properties. */
  type AuthUser = map<string, Json>

  /** The storage-read effect. All three keys must hold non-empty values;
      the stored user is then spread and its role replaced by the stored
      role. A stored user `JSON.parse` rejects gives no user. */
  function ReadAuth(token: Option<string>, role: Option<string>, rawUser: Option<string>,
                    parse: string -> Option<Json>): (u: Option<AuthUser>)
    ensures u.Some? <==> Present(token) && Present(role) && Present(rawUser) && parse(rawUser.value).Some?
    // the stored role overrides the one inside the stored user
    ensures u.Some? ==> "role" in u.value && u.value["role"] == JString(role.value)
    ensures u.Some? ==> forall k :: k in ObjectFields(parse(rawUser.value).value) && k != "role" ==>
      k in u.value && u.value[k] == ObjectFields(parse(rawUser.value).value)[k]
    ensures u.Some? ==> u.value.Keys == ObjectFields(parse(rawUser.value).value).Keys + {"role"}
  {
    if !(Present(token) && Present(role) && Present(rawUser)) then None
    else match parse(rawUser.value)
      case None => None
      case Some(user) => Some(ObjectFields(user)["role" := JString(role.value)])
  }

  /** The role of the user, or null when logged out. */
  function StoredRole(u: Option<AuthUser>): (r: Json)
    ensures u.None? ==> r == JNull
    ensures u.Some? && "role" in u.value ==> r == u.value["role"]
  {
    if u.Some? && "role" in u.value then u.value["role"] else JNull
  }

  /** `dashboardHref`. */
  function DashboardHref(u: Option<AuthUser>): (href: string)
    ensures href == "/bg" <==> StoredRole(u) == JString("BG")
    ensures href != "/bg" ==> href == "/investor"
  {
    if StoredRole(u) == JString("BG") then "/bg" else "/investor"
  }

  /** The text of the dashboard link. */
  function DashboardLinkText(u: Option<AuthUser>): (t: string)
    ensures t == "Go to investor dashboard" <==> StoredRole(u) == JString("INVESTOR")
    ensures t != "Go to investor dashboard" ==> t == "Go to BG dashboard"
  {
    if StoredRole(u) == JString("INVESTOR") then "Go to investor dashboard" else "Go to BG dashboard"
  }

  /** The role named in the logged-in banner. */
  function RoleLabel(u: Option<AuthUser>): (t: string)
    ensures t == "Investor" <==> StoredRole(u) == JString("INVESTOR")
    ensures t != "Investor" ==> t == "BG / Prover"
  {
    if StoredRole(u) == JString("INVESTOR") then "Investor" else "BG / Prover"
  }

  /** For the two roles the link, its text and the banner agree. */
  lemma LinkAndLabelsAgree(u: Option<AuthUser>)
    requires StoredRole(u) == JString("INVESTOR") || StoredRole(u) == JString("BG")
    ensures DashboardHref(u) == "/investor" <==> DashboardLinkText(u) == "Go to investor dashboard"
    ensures DashboardHref(u) == "/investor" <==> RoleLabel(u) == "Investor"
  {
  }

  /** Any other stored role is labelled BG but linked to the investor
      dashboard. A role of "bg", which the BG dashboard itself admits, is one. */
  lemma OtherRoleLinkedToInvestor(u: Option<AuthUser>)
    requires StoredRole(u) != JString("INVESTOR") && StoredRole(u) != JString("BG")
    ensures DashboardHref(u) == "/investor"
    ensures DashboardLinkText(u) == "Go to BG dashboard" && RoleLabel(u) == "BG / Prover"
  {
  }

  /** The name shown in the banner: each name or "", trimmed, with a space between. */
  function BannerName(u: AuthUser): (r: string)
    ensures var first := Trim(JsString(Or(if "firstName" in u then u["firstName"] else JNull, JString(""))));
      var last := Trim(JsString(Or(if "lastName" in u then u["lastName"] else JNull, JString(""))));
      r == first + " " + last
    // a missing or falsy first name leaves the banner starting with the space
    ensures !("firstName" in u && Truthy(u["firstName"])) ==> r[0] == ' '
  {
    Trim(JsString(Or(if "firstName" in u then u["firstName"] else JNull, JString(""))))
    + " " + Trim(JsString(Or(if "lastName" in u then u["lastName"] else JNull, JString(""))))
  }

  // ---------------------------------------------------------------------
  // Backend status

  /** How GET `/api/v1/health` ends: it throws, or a response with its status
      and what `res.json()` gave (None when it threw). */
  datatype HealthReply = HealthUnreachable | HealthResponse(status: nat, body: Option<Json>)

  const ContactFailedMessage: string := "Failed to contact backend."
  const AliveMessage: string := "ProveForMe backend is alive"
  const CheckingText: string := "checking..."

  /** The health body the check records, or None when it records an error. */
  function HealthFrom(reply: HealthReply): (h: Option<Json>)
    ensures h.Some? <==> reply.HealthResponse? && OkStatus(reply.status) && reply.body.Some?
    ensures h.Some? ==> h.value == reply.body.value
  {
    if reply.HealthResponse? && OkStatus(reply.status) && reply.body.Some? then reply.body else None
  }

  /** The footer's status line: an error first, then a healthy reply with its
      message or the default, else still checking. */
  function StatusText(backendError: Option<string>, health: Json): (t: string)
    ensures Present(backendError) ==> t == "error \U{2014} " + backendError.value
    ensures !Present(backendError) && Truthy(Prop(health, "ok")) ==>
      t == "ok \U{2014} " + JsString(Or(Prop(health, "message"), JString(AliveMessage)))
    ensures !Present(backendError) && !Truthy(Prop(health, "ok")) ==> t == CheckingText
  {
    if Present(backendError) then "error \U{2014} " + backendError.value
    else if Truthy(Prop(health, "ok")) then
      "ok \U{2014} " + JsString(Or(Prop(health, "message"), JString(AliveMessage)))
    else CheckingText
  }

  /** The page's state cells. */
  class HomePage {
    var backendHealth: Json
    var backendError: Option<string>
    var authUser: Option<AuthUser>

    constructor ()
      ensures backendHealth == JNull && backendError == None && authUser == None
    {
      backendHealth, backendError, authUser := JNull, None, None;
    }

    /** The health-check effect, with `reply` the answer it would get. */
    method CheckHealth(reply: HealthReply)
      modifies this
      ensures HealthFrom(reply).Some? ==> backendHealth == HealthFrom(reply).value && backendError == None
      ensures HealthFrom(reply).None? ==>
        backendHealth == old(backendHealth) && backendError == Some(ContactFailedMessage)
      ensures authUser == old(authUser)
    {
      var h := HealthFrom(reply);
      if h.Some? {
        backendHealth, backendError := h.value, None;
      } else {
        backendError := Some(ContactFailedMessage);
      }
    }

    /** The storage-read effect. */
    method ReadAuthFromStorage(store: LocalStorage, parse: string -> Option<Json>)
      modifies this
      ensures authUser == ReadAuth(store.GetItem(TokenKey), store.GetItem(RoleKey), store.GetItem(UserKey), parse)
      ensures backendHealth == old(backendHealth) && backendError == old(backendError)
    {
      authUser := ReadAuth(store.GetItem(TokenKey), store.GetItem(RoleKey), store.GetItem(UserKey), parse);
    }
  }

  /** After the health check on a fresh page the status line reads "ok" exactly
      when the backend answered with an ok status, a JSON body and a truthy
      `ok`, and reports the contact failure otherwise. */
  lemma StatusAfterCheck(reply: HealthReply)
    ensures var h := HealthFrom(reply);
      var t := StatusText(if h.Some? then None else Some(ContactFailedMessage),
                          if h.Some? then h.value else JNull);
      (h.None? ==> t == "error \U{2014} " + ContactFailedMessage)
      && (h.Some? && Truthy(Prop(h.value, "ok")) ==> t[..5] == "ok \U{2014} ")
      && (h.Some? && !Truthy(Prop(h.value, "ok")) ==> t == CheckingText)
  {
  }
}
