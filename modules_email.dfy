/**
 * `send_email` of bi_modules/bi_modules.py:382-464: validate the status, build the recipient
 * list from the parsed recipients.yaml, apply the QA override, wrap the body and attach files.
 * The YAML file arrives parsed; login and the final `m.send()` are outside the model.
 */
module ModulesEmail {
  import opened Wrappers
  import opened Mail
  import BiEmail

  /** The keys of recipients.yaml the code reads; a missing `error_recipients` key is None. */
  datatype RecipientsFile = RecipientsFile(recipients: seq<string>, errorRecipients: Option<seq<string>>)

  /** Lines 400-402: None or one of the three known statuses. */
  predicate AllowedStatus(status: Option<string>)
  {
    status.None? || status.value in ["Success", "Error", "Warning"]
  }

  /** The statuses allowed here are exactly the ones the wrapper knows, plus none. */
  lemma AllowedIsWrappedOrNone(status: Option<string>)
    ensures AllowedStatus(status) <==> status.None? || Wrapped(status)
  {
  }

  /** Who receives the email: in QA the team, otherwise the YAML recipients and, for an Error
      status, the YAML error recipients; in both cases an explicit address too. */
  predicate Addressed(file: RecipientsFile, status: Option<string>, email: Option<string>, team: string, isQA: bool, x: string)
  {
    || email == Some(x)
    || (isQA && x == team)
    || (!isQA && x in file.recipients)
    || (!isQA && status == Some("Error") && file.errorRecipients.Some? && x in file.errorRecipients.value)
  }

  /** Lines 408-431: the list `m.to.add` receives. */
  function ToList(file: RecipientsFile, status: Option<string>, email: Option<string>, team: string, isQA: bool): (r: seq<string>)
    ensures forall x :: x in r <==> Addressed(file, status, email, team, isQA, x)
    ensures !isQA ==> |r| >= |file.recipients| && r[..|file.recipients|] == file.recipients
    ensures isQA ==> 1 <= |r| <= 2 && r[0] == team
    ensures email.Some? ==> |r| > 0 && r[|r| - 1] == email.value
  {
    var base := if isQA then [team]
                else file.recipients + (if status == Some("Error") && file.errorRecipients.Some? then file.errorRecipients.value else []);
    base + (if email.Some? then [email.value] else [])
  }

  /** The `recipients += ...` steps. */
  method CollectRecipients(file: RecipientsFile, status: Option<string>, email: Option<string>, team: string, isQA: bool)
    returns (recipients: seq<string>)
    ensures recipients == ToList(file, status, email, team, isQA)
  {
    recipients := file.recipients;
    if status == Some("Error") && file.errorRecipients.Some? {
      recipients := recipients + file.errorRecipients.value;
    }
    if email.Some? {
      recipients := recipients + [email.value];
    }
    if isQA {
      recipients := [team];
      if email.Some? {
        recipients := recipients + [email.value];
      }
    }
  }

  /** The two copies part ways in QA: this one still sends to an explicit address, bi_email.py drops it. */
  lemma QaCopiesDiffer(file: RecipientsFile, status: Option<string>, a: string, team: string)
    requires a != team
    ensures a in ToList(file, status, Some(a), team, true)
    ensures a !in BiEmail.Recipients(BiEmail.Address(a), team, true)
  {
    BiEmail.QaDropsExplicitEmail(a, team);
  }

  /** Error recipients are added for an Error status and for no other. */
  lemma ErrorRecipientsOnlyOnError(file: RecipientsFile, status: Option<string>, x: string)
    requires file.errorRecipients.Some? && x in file.errorRecipients.value
    requires x !in file.recipients
    ensures x in ToList(file, status, None, "", false) <==> status == Some("Error")
  {
  }

  /** Lines 462-463: every attachment added as a regular one, in list order. */
  method AttachRegular(m: Message, attachments: seq<string>)
    modifies m
    ensures |m.attachments| == |old(m.attachments)| + |attachments|
    ensures m.attachments[..|old(m.attachments)|] == old(m.attachments)
    ensures forall i :: 0 <= i < |attachments| ==>
              m.attachments[|old(m.attachments)| + i] == Attachment(attachments[i], false, None)
    ensures m.to == old(m.to) && m.subject == old(m.subject) && m.body == old(m.body) && m.bodyType == old(m.bodyType)
  {
    ghost var before := m.attachments;
    for i := 0 to |attachments|
      invariant |m.attachments| == |before| + i
      invariant m.attachments[..|before|] == before
      invariant forall j :: 0 <= j < i ==> m.attachments[|before| + j] == Attachment(attachments[j], false, None)
      invariant m.to == old(m.to) && m.subject == old(m.subject) && m.body == old(m.body) && m.bodyType == old(m.bodyType)
    {
      m.AddAttachment(attachments[i]);
    }
  }

  /** The message `send_email` builds, or the ValueError it raises first. */
  method SendEmail(team: string, isQA: bool, file: RecipientsFile, subject: string, body: string,
                   attachments: seq<string>, messageStatus: Option<string>, email: Option<string>)
    returns (r: Result<Message, string>)
    ensures r.Err? <==> !AllowedStatus(messageStatus)
    ensures r.Err? ==> r.error == "ValueError"
    ensures r.Ok? ==> fresh(r.value)
    ensures r.Ok? ==> r.value.to == ToList(file, messageStatus, email, team, isQA)
    ensures r.Ok? ==> r.value.subject == if isQA then subject + DebugSuffix else subject
    ensures r.Ok? ==> r.value.body == WrapBody(messageStatus, body)
    ensures r.Ok? ==> r.value.bodyType == None
    ensures r.Ok? ==> |r.value.attachments| == |attachments|
    ensures r.Ok? ==> forall i :: 0 <= i < |attachments| ==> r.value.attachments[i] == Attachment(attachments[i], false, None)
  {
    if !AllowedStatus(messageStatus) {
      return Err("ValueError");
    }
    var recipients := CollectRecipients(file, messageStatus, email, team, isQA);
    var m := new Message();
    m.AddRecipients(recipients);
    m.subject := if isQA then subject + DebugSuffix else subject;
    m.body := WrapBody(messageStatus, body);
    AttachRegular(m, attachments);
    r := Ok(m);
  }
}
