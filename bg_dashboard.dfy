/** The BG dashboard (app/bg/page.tsx): the access gate its mount effect runs,
    the editor for the BG's list of service zip codes, and the replacement of
    that list by the server's copy after a save. */
module BgDashboard {
  import opened Common

  /** The four loads the dashboard starts once a BG is admitted. */
  datatype DataFetch = FetchVisits | FetchStripeStatus | FetchUserProfile | FetchAvailableProjects

  /** The admitted path starts them in this order. */
  const AdmittedFetches: seq<DataFetch> :=
    [FetchVisits, FetchStripeStatus, FetchUserProfile, FetchAvailableProjects]

  const NotLoggedInMessage: string := "Not logged in. Please log in as a BG user first."
  const ReadFailedMessage: string := "Failed to read login info. Try logging in again."

  const WrongRolePrefix: string := "This page is for Boots on the Ground (BG) users only. You are logged in as "

  /** The wrong-role message: a fixed text, then the role, then a full stop. */
  function WrongRoleMessage(roleUpper: string): (m: string)
    ensures |m| == |WrongRolePrefix| + |roleUpper| + 1
    ensures m[..|WrongRolePrefix|] == WrongRolePrefix
    ensures m[|WrongRolePrefix|..|m| - 1] == roleUpper && m[|m| - 1] == '.'
  {
    WrongRolePrefix + roleUpper + "."
  }

  /** `(user.role || "").toString().toUpperCase()`, upper-casing ASCII letters:
      empty when the role is missing or falsy. */
  function RoleUpper(user: Json): (r: string)
    ensures !Truthy(Prop(user, "role")) ==> r == ""
    ensures Truthy(Prop(user, "role")) ==> r == AsciiUpper(JsString(Prop(user, "role")))
  {
    match Field(user, "role")
    case Some(r) => if Truthy(r) then AsciiUpper(JsString(r)) else ""
    case None => ""
  }

  /** What the mount effect leaves behind: the stored user and token it
      records (None is null), the error it reports, and the loads it starts. */
  datatype MountEffect = MountEffect(
    user: Option<Json>, token: Option<string>, error: Option<string>, fetches: seq<DataFetch>)

  /** The mount effect, given what localStorage holds under `pfm_token` and
      `pfm_user` and how `JSON.parse` treats the stored user (None: it throws). */
  function Mount(token: Option<string>, userJson: Option<string>, parse: string -> Option<Json>): (e: MountEffect)
    // the loads start exactly for a logged-in user whose role reads as BG ...
    ensures e.fetches != [] <==>
      Present(token) && Present(userJson) && parse(userJson.value).Some?
      && parse(userJson.value).value != JNull && RoleUpper(parse(userJson.value).value) == "BG"
    // ... then all four of them and no error; otherwise none and an error
    ensures e.fetches == [] || e.fetches == AdmittedFetches
    ensures e.error.None? <==> e.fetches != []
    ensures !Present(token) || !Present(userJson) ==>
      e == MountEffect(None, None, Some(NotLoggedInMessage), [])
    // a stored user that does not parse, or parses to null, cannot be read
    ensures Present(token) && Present(userJson) && parse(userJson.value).None? ==>
      e == MountEffect(None, None, Some(ReadFailedMessage), [])
    ensures Present(token) && Present(userJson) && parse(userJson.value) == Some(JNull) ==>
      e == MountEffect(None, token, Some(ReadFailedMessage), [])
    // a user that reads as a non-BG is recorded and told the role it has
    ensures Present(token) && Present(userJson) && parse(userJson.value).Some?
            && parse(userJson.value).value != JNull ==>
      var u := parse(userJson.value).value;
      e.user == Some(u) && e.token == token
      && e.error == (if RoleUpper(u) == "BG" then None else Some(WrongRoleMessage(RoleUpper(u))))
  {
    if !Present(token) || !Present(userJson) then
      MountEffect(None, None, Some(NotLoggedInMessage), [])
    else
      match parse(userJson.value)
      case None => MountEffect(None, None, Some(ReadFailedMessage), [])
      // the null user is recorded, then reading its role throws
      case Some(JNull) => MountEffect(None, token, Some(ReadFailedMessage), [])
      case Some(user) =>
        if RoleUpper(user) != "BG" then
          MountEffect(Some(user), token, Some(WrongRoleMessage(RoleUpper(user))), [])
        else
          MountEffect(Some(user), token, None, AdmittedFetches)
  }

  /** A stored role is upper-cased before the check, so "bg" is admitted too. */
  lemma LowerCaseBgAdmitted(token: string, userJson: string, parse: string -> Option<Json>)
    requires token != "" && userJson != ""
    requires parse(userJson) == Some(JObject(map["role" := JString("bg")]))
    ensures Mount(Some(token), Some(userJson), parse).fetches == AdmittedFetches
  {
    assert RoleUpper(JObject(map["role" := JString("bg")])) == AsciiUpper("bg") == "BG";
  }

  // ---------------------------------------------------------------------
  // The service zip-code list

  /** The guard of `addZipCode`: the trimmed input is non-empty and not yet listed. */
  predicate AddAccepted(zips: seq<string>, input: string) {
    Trim(input) != "" && Trim(input) !in zips
  }

  /** The list `addZipCode` leaves. */
  function AddZip(zips: seq<string>, input: string): (r: seq<string>)
    // the existing entries stay in place; at most the trimmed input is appended
    ensures |zips| <= |r| <= |zips| + 1 && r[..|zips|] == zips
    ensures |r| == |zips| + 1 <==> AddAccepted(zips, input)
    ensures |r| == |zips| + 1 ==> r[|zips|] == Trim(input)
    ensures forall z :: z in r <==> z in zips || (z == Trim(input) && z != "")
    ensures NoDuplicates(zips) ==> NoDuplicates(r)
  {
    if AddAccepted(zips, input) then zips + [Trim(input)] else zips
  }

  /** The input text `addZipCode` leaves: cleared exactly when the add succeeds. */
  function InputAfterAdd(zips: seq<string>, input: string): (r: string)
    ensures r == input || r == ""
    ensures AddAccepted(zips, input) ==> r == ""
    ensures r != input ==> AddAccepted(zips, input)
  {
    if AddAccepted(zips, input) then "" else input
  }

  /** Blank or whitespace-only input adds nothing and keeps the text as typed. */
  lemma BlankInputIgnored(zips: seq<string>, input: string)
    requires AllWhitespace(input)
    ensures AddZip(zips, input) == zips && InputAfterAdd(zips, input) == input
  {
    TrimEmptyIffBlank(input);
  }

  /** The list `removeZipCode` leaves: `filter((z) => z !== zip)`. */
  function RemoveZip<T(==)>(zips: seq<T>, zip: T): (r: seq<T>)
    ensures |r| <= |zips|
  {
    if zips == [] then []
    else (if zips[0] == zip then [] else [zips[0]]) + RemoveZip(zips[1..], zip)
  }

  /** Removing keeps exactly the other entries, and changes nothing when the
      zip is not listed. */
  lemma {:induction false} RemoveZipMembers<T>(zips: seq<T>, zip: T)
    ensures forall z :: z in RemoveZip(zips, zip) <==> z in zips && z != zip
    ensures zip !in zips ==> RemoveZip(zips, zip) == zips
  {
    if zips != [] {
      RemoveZipMembers(zips[1..], zip);
      assert zips == [zips[0]] + zips[1..];
    }
  }

  /** Removing keeps a list free of duplicates. */
  lemma {:induction false} RemoveZipNoDuplicates<T>(zips: seq<T>, zip: T)
    requires NoDuplicates(zips)
    ensures NoDuplicates(RemoveZip(zips, zip))
  {
    if zips != [] {
      forall k | 0 <= k < |zips| - 1 ensures zips[1..][k] != zips[0] {
        assert zips[1..][k] == zips[k + 1];
      }
      RemoveZipNoDuplicates(zips[1..], zip);
      RemoveZipMembers(zips[1..], zip);
      var rest := RemoveZip(zips[1..], zip);
      if zips[0] != zip {
        PrependNoDuplicates(zips[0], rest);
      }
    }
  }

  lemma PrependNoDuplicates<T>(h: T, rest: seq<T>)
    requires h !in rest && NoDuplicates(rest)
    ensures NoDuplicates([h] + rest)
  {
    var s := [h] + rest;
    forall i, j | 0 <= i < j < |s| ensures s[i] != s[j] {
      assert s[j] == rest[j - 1];
      if i > 0 {
        assert s[i] == rest[i - 1];
      }
    }
  }

  /** Removing from a list with a known first entry. */
  lemma RemoveZipCons<T>(h: T, t: seq<T>, zip: T)
    ensures RemoveZip([h] + t, zip) == (if h == zip then [] else [h]) + RemoveZip(t, zip)
  {
    assert ([h] + t)[0] == h && ([h] + t)[1..] == t;
  }

  /** Removing distributes over concatenation: the kept entries keep their order. */
  lemma {:induction false} RemoveZipAppend<T>(a: seq<T>, b: seq<T>, zip: T)
    ensures RemoveZip(a + b, zip) == RemoveZip(a, zip) + RemoveZip(b, zip)
  {
    if a == [] {
      assert a + b == b;
    } else {
      var t := a[1..];
      var head := if a[0] == zip then [] else [a[0]];
      var x, y := RemoveZip(t, zip), RemoveZip(b, zip);
      assert a == [a[0]] + t && a + b == [a[0]] + (t + b);
      RemoveZipCons(a[0], t + b, zip);
      RemoveZipCons(a[0], t, zip);
      RemoveZipAppend(t, b, zip);
      assert head + (x + y) == (head + x) + y;
    }
  }

  /** Adding a fresh zip and removing it again restores the list. */
  lemma AddThenRemove(zips: seq<string>, input: string)
    requires AddAccepted(zips, input)
    ensures RemoveZip(AddZip(zips, input), Trim(input)) == zips
  {
    var zip := Trim(input);
    RemoveZipAppend(zips, [zip], zip);
    RemoveZipMembers(zips, zip);
    assert RemoveZip([zip], zip) == [] + RemoveZip([], zip);
  }

  // ---------------------------------------------------------------------
  // Saving the list

  /** The body of the PUT reply: unparsable, or an object with an optional list. */
  datatype SaveBody = Unparsable | SaveBody(serviceZipCodes: Option<seq<string>>)

  /** How the PUT `/api/v1/users/service-zipcodes` call ends. */
  datatype SaveReply = SaveNetworkError | SaveReply(ok: bool, body: SaveBody)

  /** Whether the save counts as successful: an ok reply whose body parses. */
  predicate SaveSucceeded(reply: SaveReply) {
    reply.SaveReply? && reply.ok && reply.body.SaveBody?
  }

  /** The list after a save: the server's `serviceZipCodes` (or empty when the
      field is absent) after a success, the local list otherwise. */
  function ZipsAfterSave(current: seq<string>, reply: SaveReply): (r: seq<string>)
    ensures SaveSucceeded(reply) && reply.body.serviceZipCodes.Some? ==> r == reply.body.serviceZipCodes.value
    ensures SaveSucceeded(reply) && reply.body.serviceZipCodes.None? ==> r == []
    ensures !SaveSucceeded(reply) ==> r == current
  {
    if SaveSucceeded(reply) then
      match reply.body.serviceZipCodes
      case Some(list) => list
      case None => []
    else current
  }

  /** The dashboard's state cells that these handlers touch. */
  class BgDashboardPage {
    var authUser: Option<Json>
    var authToken: Option<string>
    var loading: bool
    var error: Option<string>
    /** The loads started so far, in order. */
    var started: seq<DataFetch>
    var serviceZipCodes: seq<string>
    var newZipCode: string
    var savingZips: bool
    var zipSaveSuccess: bool

    /** Mounting the page: the initial state, then the mount effect. */
    constructor (storage: map<string, string>, parse: string -> Option<Json>)
      ensures var e := Mount(Get(storage, TokenKey), Get(storage, UserKey), parse);
        && authUser == e.user && authToken == e.token && error == e.error
        && started == e.fetches && loading == e.error.None?
      ensures serviceZipCodes == [] && newZipCode == "" && !savingZips && !zipSaveSuccess
    {
      var e := Mount(Get(storage, TokenKey), Get(storage, UserKey), parse);
      authUser, authToken, error, started := e.user, e.token, e.error, e.fetches;
      // the visits load keeps `loading` set until it finishes
      loading := e.error.None?;
      serviceZipCodes, newZipCode := [], "";
      savingZips, zipSaveSuccess := false, false;
    }

    /** `addZipCode`: both cells change together, or neither does. */
    method AddZipCode()
      modifies this
      ensures serviceZipCodes == AddZip(old(serviceZipCodes), old(newZipCode))
      ensures newZipCode == InputAfterAdd(old(serviceZipCodes), old(newZipCode))
      ensures (serviceZipCodes == old(serviceZipCodes)) == (newZipCode == old(newZipCode) || old(newZipCode) == "")
      ensures authUser == old(authUser) && authToken == old(authToken) && loading == old(loading)
      ensures error == old(error) && started == old(started)
      ensures savingZips == old(savingZips) && zipSaveSuccess == old(zipSaveSuccess)
    {
      var zip := Trim(newZipCode);
      if zip != "" && zip !in serviceZipCodes {
        serviceZipCodes := serviceZipCodes + [zip];
        newZipCode := "";
      }
    }

    /** `removeZipCode(zip)`. */
    method RemoveZipCode(zip: string)
      modifies this
      ensures serviceZipCodes == RemoveZip(old(serviceZipCodes), zip)
      ensures newZipCode == old(newZipCode)
      ensures authUser == old(authUser) && authToken == old(authToken) && loading == old(loading)
      ensures error == old(error) && started == old(started)
      ensures savingZips == old(savingZips) && zipSaveSuccess == old(zipSaveSuccess)
    {
      serviceZipCodes := RemoveZip(serviceZipCodes, zip);
    }

    /** `saveServiceZipCodes`: without a token nothing is sent; otherwise the
        current list is sent and the reply decides the new list. A success
        also restarts the available-projects load. */
    method SaveServiceZipCodes(reply: SaveReply) returns (sent: Option<seq<string>>)
      modifies this
      ensures !Present(old(authToken)) ==>
        sent == None && serviceZipCodes == old(serviceZipCodes)
        && zipSaveSuccess == old(zipSaveSuccess) && started == old(started)
        && savingZips == old(savingZips)
      ensures Present(old(authToken)) ==>
        sent == Some(old(serviceZipCodes))
        && serviceZipCodes == ZipsAfterSave(old(serviceZipCodes), reply)
        && zipSaveSuccess == SaveSucceeded(reply)
        && started == old(started) + (if SaveSucceeded(reply) then [FetchAvailableProjects] else [])
        && !savingZips
      ensures newZipCode == old(newZipCode)
      ensures authUser == old(authUser) && authToken == old(authToken) && loading == old(loading)
      ensures error == old(error)
    {
      if !Present(authToken) {
        return None;
      }
      savingZips := true;
      zipSaveSuccess := false;
      sent := Some(serviceZipCodes);
      if SaveSucceeded(reply) {
        serviceZipCodes := ZipsAfterSave(serviceZipCodes, reply);
        zipSaveSuccess := true;
        started := started + [FetchAvailableProjects];
      }
      savingZips := false;
    }

    /** The timer a successful save schedules: it clears the success flag. */
    method ZipSaveSuccessTimer()
      modifies this`zipSaveSuccess
      ensures !zipSaveSuccess
    {
      zipSaveSuccess := false;
    }
  }
}
