/** The investor's form for creating a project
    (app/investor/projects/create/page.tsx): the checks made before the
    request, the request itself, and what the reply leads to. */
module CreateProject {
  import opened Common

  /** The form's text inputs. */
  datatype Form = Form(title: string, description: string, city: string, stateVal: string,
                       fullAddress: string, payPerVisit: string)

  /** The body of the POST. The pay is the parsed number, not the text typed. */
  datatype ProjectRequest = ProjectRequest(title: string, description: string, city: string,
                                           state: string, fullAddress: string, payPerVisit: real)

  const NotLoggedInMessage: string := "You are not logged in."
  const RequiredMessage: string := "Title, city, state, and pay per visit are required."
  const PayMessage: string := "Pay per visit must be a positive number."
  const NonJsonMessage: string := "Create project endpoint returned non JSON response."
  const NetworkMessage: string := "Network error while creating project."

  const StatusPrefix: string := "Create project failed (status "

  /** The failure message names the status in decimal (`NatToString`). */
  function StatusMessage(status: nat): (m: string)
    ensures |m| == |StatusPrefix| + |NatToString(status)| + 2
    ensures m[..|StatusPrefix|] == StatusPrefix && m[|m| - 2..] == ")."
    ensures m[|StatusPrefix|..|m| - 2] == NatToString(status)
  {
    var m := StatusPrefix + NatToString(status) + ").";
    assert m[|StatusPrefix|..|m| - 2] == NatToString(status);
    m
  }

  /** The four inputs the form cannot do without. */
  predicate RequiredFilled(f: Form) {
    f.title != "" && f.city != "" && f.stateVal != "" && f.payPerVisit != ""
  }

  datatype Validation = Invalid(message: string) | Valid(request: ProjectRequest)

  /** The checks in `handleSubmit`, in order: the token, the required
      inputs, then the pay. `parseFloat` gives None for NaN. */
  function Validate(token: Option<string>, f: Form, parseFloat: string -> Option<real>): (v: Validation)
    ensures !Present(token) ==> v == Invalid(NotLoggedInMessage)
    ensures Present(token) && !RequiredFilled(f) ==> v == Invalid(RequiredMessage)
    ensures Present(token) && RequiredFilled(f)
            && (parseFloat(f.payPerVisit).None? || parseFloat(f.payPerVisit).value <= 0.0) ==>
      v == Invalid(PayMessage)
    ensures v.Valid? <==>
      Present(token) && RequiredFilled(f)
      && parseFloat(f.payPerVisit).Some? && parseFloat(f.payPerVisit).value > 0.0
    ensures v.Valid? ==>
      v.request == ProjectRequest(f.title, f.description, f.city, f.stateVal, f.fullAddress,
                                  parseFloat(f.payPerVisit).value)
      && v.request.payPerVisit > 0.0
  {
    if !Present(token) then Invalid(NotLoggedInMessage)
    else if !RequiredFilled(f) then Invalid(RequiredMessage)
    else match parseFloat(f.payPerVisit)
      case None => Invalid(PayMessage)
      case Some(pay) =>
        if pay <= 0.0 then Invalid(PayMessage)
        else Valid(ProjectRequest(f.title, f.description, f.city, f.stateVal, f.fullAddress, pay))
  }

  /** The description and the full address are optional: changing them never
      changes whether the form is sent, or the message it is refused with. */
  lemma OptionalInputs(token: Option<string>, f: Form, description: string, fullAddress: string,
                       parseFloat: string -> Option<real>)
    ensures var g := f.(description := description, fullAddress := fullAddress);
      Validate(token, g, parseFloat).Valid? == Validate(token, f, parseFloat).Valid?
      && (Validate(token, f, parseFloat).Invalid? ==> Validate(token, g, parseFloat) == Validate(token, f, parseFloat))
  {
  }

  /** How the POST ends: it throws, or a response with its status and what
      `res.json()` gave (None when it threw). */
  datatype CreateReply = CreateThrows | CreateResponse(status: nat, body: Option<Json>)

  /** What the reply leads to: an error, or the navigation to the dashboard. */
  datatype Submitted = Failed(message: string) | Created

  function SubmitOutcome(reply: CreateReply): (s: Submitted)
    ensures s == Created <==>
      reply.CreateResponse? && OkStatus(reply.status) && reply.body.Some?
      && reply.body.value != JNull && Truthy(Prop(reply.body.value, "ok"))
    ensures reply.CreateThrows? ==> s == Failed(NetworkMessage)
    ensures reply.CreateResponse? && reply.body.None? ==> s == Failed(NonJsonMessage)
    // a failed status reports the server's error, else the status, even for a null body
    ensures reply.CreateResponse? && !OkStatus(reply.status) && reply.body.Some? ==>
      s == Failed(ErrorText(reply.body.value, StatusMessage(reply.status)))
    // an ok status with a null body fails on reading `data.ok`
    ensures reply.CreateResponse? && OkStatus(reply.status) && reply.body == Some(JNull) ==>
      s == Failed(NetworkMessage)
    ensures reply.CreateResponse? && OkStatus(reply.status) && reply.body.Some? && reply.body.value != JNull
            && !Truthy(Prop(reply.body.value, "ok")) ==>
      s == Failed(ErrorText(reply.body.value, StatusMessage(reply.status)))
  {
    match reply
    case CreateThrows => Failed(NetworkMessage)
    case CreateResponse(status, body) =>
      match body
      case None => Failed(NonJsonMessage)
      case Some(data) =>
        if !OkStatus(status) then Failed(ErrorText(data, StatusMessage(status)))
        else if data == JNull then Failed(NetworkMessage)
        else if !Truthy(Prop(data, "ok")) then Failed(ErrorText(data, StatusMessage(status)))
        else Created
  }

  /** A refusal from the server never reads as a success, and the server's
      own error text is shown whenever it gives one. */
  lemma ServerErrorShown(status: nat, data: Json)
    requires Truthy(Prop(data, "error")) && !(OkStatus(status) && Truthy(Prop(data, "ok")))
    ensures SubmitOutcome(CreateResponse(status, Some(data))) == Failed(JsString(Prop(data, "error")))
  {
  }

  /** The form's state cells. */
  class CreateProjectForm {
    var form: Form
    var submitting: bool
    var error: Option<string>
    /** Where `router.push` was sent, if anywhere. */
    var location: Option<string>

    constructor ()
      ensures form == Form("", "", "", "", "", "") && !submitting && error == None && location == None
    {
      form := Form("", "", "", "", "", "");
      submitting, error, location := false, None, None;
    }

    /** `handleSubmit`, with `reply` the answer the POST would get; `sent` is
        the request made, if one was. */
    method HandleSubmit(store: LocalStorage, parseFloat: string -> Option<real>, reply: CreateReply)
      returns (sent: Option<ProjectRequest>)
      modifies this
      ensures var v := Validate(store.GetItem(TokenKey), old(form), parseFloat);
        (v.Invalid? ==>
           sent == None && error == Some(v.message)
           && submitting == old(submitting) && location == old(location))
        && (v.Valid? ==> sent == Some(v.request))
      ensures sent.Some? ==>
        match SubmitOutcome(reply)
        case Failed(m) => error == Some(m) && !submitting && location == old(location)
        // on success the form stays in its submitting state while the router moves on
        case Created => error == None && submitting && location == Some("/investor")
      ensures form == old(form)
    {
      error := None;
      var v := Validate(store.GetItem(TokenKey), form, parseFloat);
      if v.Invalid? {
        error := Some(v.message);
        return None;
      }
      submitting := true;
      sent := Some(v.request);
      match SubmitOutcome(reply)
      case Failed(m) =>
        error := Some(m);
        submitting := false;
      case Created =>
        location := Some("/investor");
    }
  }
}
