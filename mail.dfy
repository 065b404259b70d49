/**
 * What the two `send_email` copies share: the O365 message they fill in and the
 * status-dependent wrapping of the body (bi_modules/bi_email.py:94-118,
 * bi_modules/bi_modules.py:434-458). The HTML is kept as constant heads and tails.
 */
module Mail {
  import opened Wrappers
  import Text

  const DebugSuffix := " - DEBUG MODE"
  const HtmlBodyType := "HTML"

  const SuccessHead := "<div style=\"border: 2px solid #4CAF50\"><h2>Success:</h2><h3>Log Contents:</h3><div>"
  const SuccessTail := "</div><br></div>"
  const ErrorHead := "<div style=\"border: 2px solid #FF0000\"><h2>Error Log Contents:</h2><h4>"
  const ErrorTail := "</h4></div>"
  const WarningHead := "<div style=\"border: 2px solid #FFC107\"><h2>Warning:</h2><p>"
  const WarningTail := "</p></div>"

  /** The statuses that get a wrapper; any other value, or none, leaves the body as it is. */
  predicate Wrapped(status: Option<string>)
  {
    status == Some("Success") || status == Some("Error") || status == Some("Warning")
  }

  function Head(status: Option<string>): (h: string)
    ensures h == [] <==> !Wrapped(status)
  {
    if status == Some("Success") then SuccessHead
    else if status == Some("Error") then ErrorHead
    else if status == Some("Warning") then WarningHead
    else ""
  }

  function Tail(status: Option<string>): (t: string)
    ensures t == [] <==> !Wrapped(status)
  {
    if status == Some("Success") then SuccessTail
    else if status == Some("Error") then ErrorTail
    else if status == Some("Warning") then WarningTail
    else ""
  }

  /** `body_formatted`: the body verbatim between the status's head and tail. */
  function WrapBody(status: Option<string>, body: string): (r: string)
    ensures !Wrapped(status) ==> r == body
    ensures Wrapped(status) ==> |r| > |body|
    ensures |r| == |Head(status)| + |body| + |Tail(status)|
    ensures r[|Head(status)|..|Head(status)| + |body|] == body
  {
    Head(status) + body + Tail(status)
  }

  /** Reads the body back out of a wrapped one; None when the text is not wrapped for `status`. */
  function UnwrapBody(status: Option<string>, text: string): Option<string>
  {
    match Text.StripPrefix(text, Head(status))
    case None => None
    case Some(rest) =>
      var t := Tail(status);
      if |t| <= |rest| && rest[|rest| - |t|..] == t then Some(rest[..|rest| - |t|]) else None
  }

  /** The wrapping loses nothing: the body can always be read back. */
  lemma UnwrapWrap(status: Option<string>, body: string)
    ensures UnwrapBody(status, WrapBody(status, body)) == Some(body)
  {
    var h, t := Head(status), Tail(status);
    var text := WrapBody(status, body);
    assert text[..|h|] == h;
    var rest := body + t;
    assert text == h + rest;
    var stripped := Text.StripPrefix(text, h);
    assert stripped.Some?;
    assert stripped.value == text[|h|..] == rest;
    assert rest[|rest| - |t|..] == t;
    assert rest[..|rest| - |t|] == body;
  }

  /** The same status never wraps two bodies into the same text. */
  lemma WrapInjective(status: Option<string>, a: string, b: string)
    requires WrapBody(status, a) == WrapBody(status, b)
    ensures a == b
  {
    UnwrapWrap(status, a);
    UnwrapWrap(status, b);
  }

  datatype Attachment = Attachment(path: string, isInline: bool, contentId: Option<string>)

  /** The O365 message object `account.new_message()` returns; the code sets its fields one by one. */
  class Message {
    var to: seq<string>
    var subject: string
    var body: string
    var bodyType: Option<string>
    var attachments: seq<Attachment>

    constructor ()
      ensures to == [] && subject == "" && body == "" && bodyType == None && attachments == []
    {
      to := [];
      subject := "";
      body := "";
      bodyType := None;
      attachments := [];
    }

    /** `m.to.add(recipients)`. */
    method AddRecipients(recipients: seq<string>)
      modifies this
      ensures to == old(to) + recipients
      ensures subject == old(subject) && body == old(body) && bodyType == old(bodyType) && attachments == old(attachments)
    {
      to := to + recipients;
    }

    /** `m.attachments.add(path)`: a regular attachment at the end of the list. */
    method AddAttachment(path: string)
      modifies this
      ensures attachments == old(attachments) + [Attachment(path, false, None)]
      ensures to == old(to) && subject == old(subject) && body == old(body) && bodyType == old(bodyType)
    {
      attachments := attachments + [Attachment(path, false, None)];
    }

    /** `m.attachments[-1].is_inline = True` and `.content_id = cid`; earlier attachments keep their state. */
    method MarkLastInline(cid: string)
      requires |attachments| > 0
      modifies this
      ensures |attachments| == |old(attachments)|
      ensures attachments[..|attachments| - 1] == old(attachments)[..|attachments| - 1]
      ensures attachments[|attachments| - 1] == old(attachments)[|attachments| - 1].(isInline := true, contentId := Some(cid))
      ensures to == old(to) && subject == old(subject) && body == old(body) && bodyType == old(bodyType)
    {
      var last := |attachments| - 1;
      attachments := attachments[..last] + [attachments[last].(isInline := true, contentId := Some(cid))];
    }
  }
}
