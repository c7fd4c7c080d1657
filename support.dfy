/** The support form (app/support/page.tsx): it checks that every input is
    filled and then hands the message to the mail client through a mailto
    link. */
module Support {
  import opened Common

  const FillAllMessage: string := "Please fill in all fields."
  const SendFailedMessage: string := "Failed to send message. Please try again or email us directly."
  const Recipient: string := "info@knowleapstrategies.com"
  const SubjectPrefix: string := "[ProveForMe Support] "

  /** The four inputs; none may be empty (they are not trimmed). */
  predicate AllFilled(name: string, email: string, subject: string, message: string) {
    name != "" && email != "" && subject != "" && message != ""
  }

  /** The mail's subject line. */
  function MailSubject(subject: string): (r: string)
    ensures |r| == |SubjectPrefix| + |subject|
    ensures r[..|SubjectPrefix|] == SubjectPrefix && r[|SubjectPrefix|..] == subject
  {
    SubjectPrefix + subject
  }

  /** A labelled line, then the rest of the text. */
  function Line(tag: string, value: string, rest: string): (r: string)
    ensures r == tag + value + "\n" + rest
  {
    tag + (value + "\n" + rest)
  }

  /** The mail's body: the name line, the email line, a blank line, the
      "Message:" line, then the message. */
  function MailBody(name: string, email: string, message: string): (r: string)
    ensures r == "Name: " + name + "\nEmail: " + email + "\n\nMessage:\n" + message
  {
    Line("Name: ", name, Line("Email: ", email, "\nMessage:\n" + message))
  }

  /** The link assigned to `window.location.href`; `encode` is
      `encodeURIComponent`. */
  function MailtoLink(subject: string, name: string, email: string, message: string,
                      encode: string -> string): (r: string)
    ensures |MailtoHead| <= |r| && r[..|MailtoHead|] == MailtoHead
  {
    "mailto:" + Recipient + "?subject=" + encode(MailSubject(subject))
    + "&body=" + encode(MailBody(name, email, message))
  }

  /** The text before the first `d`, and the text after it. */
  function SplitAt(s: string, d: char): (r: Option<(string, string)>)
    ensures r.Some? ==> (forall i :: 0 <= i < |r.value.0| ==> r.value.0[i] != d)
                        && s == r.value.0 + [d] + r.value.1
    ensures r.None? <==> forall i :: 0 <= i < |s| ==> s[i] != d
    decreases |s|
  {
    if s == [] then None
    else if s[0] == d then Some(([], s[1..]))
    else match SplitAt(s[1..], d)
      case None => None
      case Some((piece, rest)) => Some(([s[0]] + piece, rest))
  }

  /** Reading the three fields back out of a body. */
  function ParseBody(b: string): Option<(string, string, string)> {
    if |b| < 6 || b[..6] != "Name: " then None
    else match SplitAt(b[6..], '\n')
      case None => None
      case Some((name, r1)) =>
        if |r1| < 7 || r1[..7] != "Email: " then None
        else match SplitAt(r1[7..], '\n')
          case None => None
          case Some((email, r2)) =>
            if |r2| < 10 || r2[..10] != "\nMessage:\n" then None
            else Some((name, email, r2[10..]))
  }

  /** Splitting a piece that has no `d` of its own off the front of a text. */
  lemma {:induction false} SplitAtPiece(piece: string, d: char, rest: string)
    requires forall i :: 0 <= i < |piece| ==> piece[i] != d
    ensures SplitAt(piece + [d] + rest, d) == Some((piece, rest))
    decreases |piece|
  {
    if piece == [] {
      assert piece + [d] + rest == [d] + rest;
    } else {
      assert (piece + [d] + rest)[1..] == piece[1..] + [d] + rest;
      SplitAtPiece(piece[1..], d, rest);
      assert [piece[0]] + piece[1..] == piece;
    }
  }

  /** A labelled line whose value has no break reads back as its tag, its
      value and the rest. */
  lemma LineReadsBack(tag: string, value: string, rest: string)
    requires forall i :: 0 <= i < |value| ==> value[i] != '\n'
    ensures var r := Line(tag, value, rest);
      |tag| <= |r| && r[..|tag|] == tag && SplitAt(r[|tag|..], '\n') == Some((value, rest))
  {
    var r := Line(tag, value, rest);
    assert r[..|tag|] == tag && r[|tag|..] == value + "\n" + rest;
    assert value + "\n" + rest == value + ['\n'] + rest;
    SplitAtPiece(value, '\n', rest);
  }

  /** The body puts the fields in order, so the name, the email and the
      message can be read back from it as long as the name and the email
      contain no line break. */
  lemma BodyReadsBack(name: string, email: string, message: string)
    requires forall i :: 0 <= i < |name| ==> name[i] != '\n'
    requires forall i :: 0 <= i < |email| ==> email[i] != '\n'
    ensures ParseBody(MailBody(name, email, message)) == Some((name, email, message))
  {
    var r2 := "\nMessage:\n" + message;
    LineReadsBack("Name: ", name, Line("Email: ", email, r2));
    LineReadsBack("Email: ", email, r2);
    assert r2[..10] == "\nMessage:\n" && r2[10..] == message;
  }

  /** The head of every support link, up to the subject's value. */
  const MailtoHead: string := "mailto:" + Recipient + "?subject="

  /** Reading the encoded subject and body back out of a link. */
  function ParseMailto(link: string): Option<(string, string)> {
    if |link| < |MailtoHead| || link[..|MailtoHead|] != MailtoHead then None
    else match SplitAt(link[|MailtoHead|..], '&')
      case None => None
      case Some((subject, rest)) =>
        if |rest| < 5 || rest[..5] != "body=" then None
        else Some((subject, rest[5..]))
  }

  /** The link carries the encoded subject as its `subject` parameter and the
      encoded body as its `body` parameter: when the encoded subject holds no
      `&` (which `encodeURIComponent` escapes), both read back exactly. */
  lemma MailtoReadsBack(subject: string, name: string, email: string, message: string,
                        encode: string -> string)
    requires forall i :: 0 <= i < |encode(MailSubject(subject))| ==> encode(MailSubject(subject))[i] != '&'
    ensures ParseMailto(MailtoLink(subject, name, email, message, encode))
            == Some((encode(MailSubject(subject)), encode(MailBody(name, email, message))))
  {
    var es, eb := encode(MailSubject(subject)), encode(MailBody(name, email, message));
    var link := MailtoLink(subject, name, email, message, encode);
    assert link == MailtoHead + (es + ['&'] + ("body=" + eb));
    assert link[|MailtoHead|..] == es + ['&'] + ("body=" + eb);
    SplitAtPiece(es, '&', "body=" + eb);
    assert ("body=" + eb)[..5] == "body=" && ("body=" + eb)[5..] == eb;
  }

  /** The form's state cells and the page's location. */
  class SupportForm {
    var name: string
    var email: string
    var subject: string
    var message: string
    var submitting: bool
    var submitted: bool
    var error: Option<string>
    var location: Option<string>

    constructor ()
      ensures name == "" && email == "" && subject == "" && message == ""
      ensures !submitting && !submitted && error == None && location == None
    {
      name, email, subject, message := "", "", "", "";
      submitting, submitted, error, location := false, false, None, None;
    }

    /** `handleSubmit`. `navigationThrows` says whether assigning the location
        throws. */
    method HandleSubmit(encode: string -> string, navigationThrows: bool)
      modifies this
      ensures !AllFilled(old(name), old(email), old(subject), old(message)) ==>
        error == Some(FillAllMessage) && submitted == old(submitted)
        && submitting == old(submitting) && location == old(location)
      ensures AllFilled(old(name), old(email), old(subject), old(message)) ==>
        !submitting
        && (navigationThrows ==>
              error == Some(SendFailedMessage) && submitted == old(submitted) && location == old(location))
        && (!navigationThrows ==>
              error == None && submitted
              && location == Some(MailtoLink(old(subject), old(name), old(email), old(message), encode)))
      ensures name == old(name) && email == old(email) && subject == old(subject) && message == old(message)
    {
      error := None;
      if !AllFilled(name, email, subject, message) {
        error := Some(FillAllMessage);
        return;
      }
      submitting := true;
      if navigationThrows {
        error := Some(SendFailedMessage);
      } else {
        location := Some(MailtoLink(subject, name, email, message, encode));
        submitted := true;
      }
      submitting := false;
    }
  }
}
