/**
 * `send_email` of bi_modules/bi_email.py:55-138: pick the recipients, apply the QA override,
 * wrap the body by status, and attach files, marking those with a content id as inline images.
 * The team address (a Prefect String block) and `env == 'QA'` are inputs; login, the
 * concurrency slot and the final `m.send()` are outside the model.
 */
module BiEmail {
  import opened Wrappers
  import opened Mail

  /** The `email` argument: None, one address as a string, or anything else, used as the list itself. */
  datatype EmailArg = NoEmail | Address(addr: string) | Addresses(addrs: seq<string>)

  /** Lines 81-88. QA always sends to the team alone. */
  function Recipients(email: EmailArg, team: string, isQA: bool): (r: seq<string>)
    ensures isQA ==> r == [team]
    ensures !isQA ==> match email
                      case NoEmail => r == [team]
                      case Address(a) => r == [a]
                      case Addresses(list) => r == list
  {
    if isQA then [team]
    else match email
      case NoEmail => [team]
      case Address(a) => [a]
      case Addresses(list) => list
  }

  /** An explicit address never reaches anyone in QA unless it is the team's own. */
  lemma QaDropsExplicitEmail(a: string, team: string)
    requires a != team
    ensures a !in Recipients(Address(a), team, true)
    ensures a in Recipients(Address(a), team, false)
  {
  }

  /** `content_ids and attachment in content_ids`: an empty or missing map marks nothing inline. */
  function InlineId(path: string, contentIds: Option<map<string, string>>): (cid: Option<string>)
    ensures cid.Some? <==> contentIds.Some? && path in contentIds.value
    ensures cid.Some? ==> cid.value == contentIds.value[path]
  {
    match contentIds
    case None => None
    case Some(ids) => if ids != map[] && path in ids then Some(ids[path]) else None
  }

  /** How one attachment ends up on the message. */
  function Classify(path: string, contentIds: Option<map<string, string>>): (a: Attachment)
    ensures a.path == path
    ensures a.isInline <==> contentIds.Some? && path in contentIds.value
    ensures a.contentId == InlineId(path, contentIds)
  {
    match InlineId(path, contentIds)
    case None => Attachment(path, false, None)
    case Some(cid) => Attachment(path, true, Some(cid))
  }

  /** The attachments in list order, each classified; None and [] both give nothing. */
  function Classified(paths: Option<seq<string>>, contentIds: Option<map<string, string>>): (r: seq<Attachment>)
    ensures paths.None? ==> r == []
    ensures paths.Some? ==> |r| == |paths.value|
    ensures paths.Some? ==> forall i :: 0 <= i < |r| ==> r[i] == Classify(paths.value[i], contentIds)
  {
    match paths
    case None => []
    case Some(list) => seq(|list|, i requires 0 <= i < |list| => Classify(list[i], contentIds))
  }

  /** Lines 124-136: the `for attachment in attachments` loop. */
  method AttachAll(m: Message, attachments: Option<seq<string>>, contentIds: Option<map<string, string>>)
    modifies m
    ensures m.attachments == old(m.attachments) + Classified(attachments, contentIds)
    ensures m.to == old(m.to) && m.subject == old(m.subject) && m.body == old(m.body) && m.bodyType == old(m.bodyType)
  {
    if attachments.None? || attachments.value == [] {
      return;
    }
    var list := attachments.value;
    ghost var before := m.attachments;
    for i := 0 to |list|
      invariant |m.attachments| == |before| + i
      invariant m.attachments[..|before|] == before
      invariant forall j :: 0 <= j < i ==> m.attachments[|before| + j] == Classify(list[j], contentIds)
      invariant m.to == old(m.to) && m.subject == old(m.subject) && m.body == old(m.body) && m.bodyType == old(m.bodyType)
    {
      var attachment := list[i];
      m.AddAttachment(attachment);
      var cid := InlineId(attachment, contentIds);
      if cid.Some? {
        m.MarkLastInline(cid.value);
      }
    }
    assert m.attachments == before + Classified(attachments, contentIds);
  }

  /** The message `send_email` builds, just before `m.send()`. */
  method SendEmail(team: string, isQA: bool, subject: string, body: string, attachments: Option<seq<string>>,
                   email: EmailArg, contentIds: Option<map<string, string>>, messageStatus: Option<string>)
    returns (m: Message)
    ensures fresh(m)
    ensures m.to == Recipients(email, team, isQA)
    ensures m.subject == if isQA then subject + DebugSuffix else subject
    ensures m.body == WrapBody(messageStatus, body)
    ensures m.bodyType == Some(HtmlBodyType)
    ensures m.attachments == Classified(attachments, contentIds)
  {
    m := new Message();
    var recipients := Recipients(email, team, isQA);
    var s := if isQA then subject + DebugSuffix else subject;
    m.AddRecipients(recipients);
    m.subject := s;
    m.body := WrapBody(messageStatus, body);
    m.bodyType := Some(HtmlBodyType);
    AttachAll(m, attachments, contentIds);
  }
}
