/**
 * `report_refresh` (bi_modules/bi_pbi.py:306-372, and the copy at bi_modules/bi_modules.py:467-536):
 * read the `reports` list of reports.yaml, flatten each report's export options, refresh the
 * reports that ask for it and, when asked to, send one email per refreshed report.
 * The per-report client (PbiClient) is an input here: `answers[i]` says whether constructing
 * `PowerBiRefresh` and running `pbi_refresh` for `reports[i]` got through without an exception,
 * and what `get_report_id` then answered.
 */
module ReportRefresh {
  import opened Wrappers
  import PbiSpec

  /** One entry of the `reports` list; a missing `Refresh` key is None, a missing `Export` key is []. */
  datatype ReportEntry = ReportEntry(name: string, groupName: string, refresh: Option<bool>,
                                     exportOptions: seq<map<string, bool>>)

  datatype ExportFlags = ExportFlags(pdf: bool, png: bool, pptx: bool)

  /** `{k: v for d in export_options for k, v in d.items()}`: one dictionary, later keys win; every
      value in it is the value some dictionary gives its key. */
  function Flatten(options: seq<map<string, bool>>): (m: map<string, bool>)
    ensures forall k :: k in m ==> exists i :: 0 <= i < |options| && k in options[i] && m[k] == options[i][k]
  {
    if options == [] then map[]
    else
      var rest := options[1..];
      assert forall i :: 0 <= i < |rest| ==> rest[i] == options[i + 1];
      options[0] + Flatten(rest)
  }

  /** A key is in the flattened options exactly when some dictionary names it. */
  lemma {:induction false} FlattenKeys(options: seq<map<string, bool>>, key: string)
    ensures key in Flatten(options) <==> exists i :: 0 <= i < |options| && key in options[i]
  {
    if options != [] {
      var rest := options[1..];
      FlattenKeys(rest, key);
      if key in Flatten(rest) {
        var i :| 0 <= i < |rest| && key in rest[i];
        assert key in options[i + 1];
      } else if key !in options[0] {
        forall i | 0 <= i < |options| ensures key !in options[i] {
          if i > 0 { assert options[i] == rest[i - 1]; }
        }
      }
    }
  }

  /** `dict.get(key, False)`. */
  function Flag(m: map<string, bool>, key: string): (b: bool)
    ensures b <==> key in m && m[key]
  {
    if key in m then m[key] else false
  }

  function ExportFlagsOf(e: ReportEntry): (f: ExportFlags)
    ensures f.pdf == Flag(Flatten(e.exportOptions), "PDF")
    ensures f.png == Flag(Flatten(e.exportOptions), "PNG")
    ensures f.pptx == Flag(Flatten(e.exportOptions), "PPTX")
  {
    var m := Flatten(e.exportOptions);
    ExportFlags(Flag(m, "PDF"), Flag(m, "PNG"), Flag(m, "PPTX"))
  }

  /** `report.get('Refresh', True)`. */
  function RefreshWanted(e: ReportEntry): (b: bool)
    ensures b <==> e.refresh != Some(false)
  {
    match e.refresh
    case None => true
    case Some(v) => v
  }

  /** A flag set in no dictionary of `Export` is False. */
  lemma FlagDefaultsToFalse(options: seq<map<string, bool>>, key: string)
    requires forall i :: 0 <= i < |options| ==> key !in options[i]
    ensures !Flag(Flatten(options), key)
  {
    FlattenKeys(options, key);
  }

  /** The last dictionary that names a flag decides it. */
  lemma {:induction false} FlagLastWins(options: seq<map<string, bool>>, key: string, i: nat)
    requires i < |options| && key in options[i]
    requires forall j :: i < j < |options| ==> key !in options[j]
    ensures key in Flatten(options) && Flatten(options)[key] == options[i][key]
    ensures Flag(Flatten(options), key) == options[i][key]
  {
    var rest := options[1..];
    assert Flatten(options) == options[0] + Flatten(rest);
    if i == 0 {
      FlattenKeys(rest, key);
      assert forall j :: 0 <= j < |rest| ==> key !in rest[j] by {
        forall j | 0 <= j < |rest| ensures key !in rest[j] { assert rest[j] == options[j + 1]; }
      }
    } else {
      FlagLastWins(rest, key, i - 1);
    }
  }

  // ------------------------------------------------------------ export files

  /** The export files as the loop is evidently meant to collect them: one per set flag, in the
      order PPTX, PNG, PDF, and none when no report id is known. */
  function ExportFiles(reportName: string, flags: ExportFlags, reportId: Option<string>): (files: seq<string>)
    ensures reportId.None? ==> files == []
    ensures reportId.Some? ==> |files| == (if flags.pptx then 1 else 0) + (if flags.png then 1 else 0) + (if flags.pdf then 1 else 0)
    ensures reportId.Some? && flags.pptx ==> files[0] == PbiSpec.ExportFileName(reportName, "PPTX")
    ensures reportId.Some? && flags.pdf ==> files[|files| - 1] == PbiSpec.ExportFileName(reportName, "PDF")
    ensures reportId.Some? && flags.png ==> PbiSpec.ExportFileName(reportName, "PNG") in files
  {
    if reportId.None? then []
    else
      (if flags.pptx then [PbiSpec.ExportFileName(reportName, "PPTX")] else [])
      + (if flags.png then [PbiSpec.ExportFileName(reportName, "PNG")] else [])
      + (if flags.pdf then [PbiSpec.ExportFileName(reportName, "PDF")] else [])
  }

  /** Which `export_report` call the loop body makes: the three-argument call as written, or
      the evidently meant call that exports one format and returns its file name. */
  datatype ExportCall = AsWritten | AsIntended

  /** Whether the loop body attempts an export at all. */
  predicate ExportsSomething(flags: ExportFlags, reportId: Option<string>)
  {
    reportId.Some? && (flags.pptx || flags.png || flags.pdf)
  }

  /** How the export step is written: `export_report(report_name, report_id, fmt)` passes three
      arguments to a method that takes one, so the first export attempted raises a TypeError. */
  function ExportFilesAsWritten(reportName: string, flags: ExportFlags, reportId: Option<string>): (r: Result<seq<string>, string>)
    ensures r.Err? <==> ExportsSomething(flags, reportId)
    ensures r.Ok? ==> r.value == [] == ExportFiles(reportName, flags, reportId)
  {
    if ExportsSomething(flags, reportId) then Err("TypeError")
    else Ok([])
  }

  /** The export step under either reading. */
  function ExportStep(call: ExportCall, reportName: string, flags: ExportFlags, reportId: Option<string>): Result<seq<string>, string>
  {
    match call
    case AsWritten => ExportFilesAsWritten(reportName, flags, reportId)
    case AsIntended => Ok(ExportFiles(reportName, flags, reportId))
  }

  /** The `files += [...]` steps of the loop body. */
  method CollectExportFiles(call: ExportCall, reportName: string, flags: ExportFlags, reportId: Option<string>)
    returns (files: Result<seq<string>, string>)
    ensures call == AsIntended ==> files == Ok(ExportFiles(reportName, flags, reportId))
    ensures call == AsWritten ==> files == ExportFilesAsWritten(reportName, flags, reportId)
  {
    var collected: seq<string> := [];
    if flags.pptx && reportId.Some? {
      if call == AsWritten {
        return Err("TypeError");
      }
      collected := collected + [PbiSpec.ExportFileName(reportName, "PPTX")];
    }
    if flags.png && reportId.Some? {
      if call == AsWritten {
        return Err("TypeError");
      }
      collected := collected + [PbiSpec.ExportFileName(reportName, "PNG")];
    }
    if flags.pdf && reportId.Some? {
      if call == AsWritten {
        return Err("TypeError");
      }
      collected := collected + [PbiSpec.ExportFileName(reportName, "PDF")];
    }
    assert call == AsIntended ==> collected == ExportFiles(reportName, flags, reportId);
    files := Ok(collected);
  }

  /** The discrepancy: a report with PPTX export and a known report id gets a file in the intended
      reading and an exception as written. */
  lemma ExportAsWrittenRaises(reportName: string, id: string)
    ensures ExportFilesAsWritten(reportName, ExportFlags(false, false, true), Some(id)).Err?
    ensures ExportFiles(reportName, ExportFlags(false, false, true), Some(id)) == [reportName + ".pptx"]
  {
    PbiSpec.ExportExtensions(reportName);
  }

  // ------------------------------------------------------------ email text

  /** The two copies of `report_refresh`. */
  datatype Copy = PbiCopy | ModulesCopy

  const SubjectPrefix := "Power BI Refresh: "
  const BodyHead := "<div><h2>Power BI Refresh: <span>"
  const BodyWorkspace := " in Workspace: "
  const BodyLink := "</span> completed successfully.</h2><p>Click the button below to view the report:</p><br><a href=\""
  const BodyTail := "\">Link to Report</a><br></div>"

  function Subject(copy: Copy, e: ReportEntry): (s: string)
    ensures |s| >= |SubjectPrefix| && s[..|SubjectPrefix|] == SubjectPrefix
  {
    match copy
    case PbiCopy => SubjectPrefix + e.name + " in workspace " + e.groupName + " completed successfully."
    case ModulesCopy => SubjectPrefix + e.name
  }

  function Body(copy: Copy, e: ReportEntry, webUrl: string): (b: string)
    ensures |b| > |BodyHead| && b[..|BodyHead|] == BodyHead
  {
    match copy
    case PbiCopy => BodyHead + e.name + BodyWorkspace + e.groupName + BodyLink + webUrl + BodyTail
    case ModulesCopy => BodyHead + e.name + BodyLink + webUrl + BodyTail
  }

  // ------------------------------------------------------------ the loop

  /** What the loop does to the outside: refresh a report, or call `send_email`. */
  datatype Action = RefreshReport(name: string, groupName: string)
                  | SendEmail(subject: string, body: string, attachments: seq<string>)

  /** The loop's effects so far, whether an exception ended it, and its `subject`/`body` variables. */
  datatype RunState = RunState(actions: seq<Action>, failed: bool, subject: string, body: string)

  /** What the outside world answers for one report: whether the refresh got through, and the
      `(id, webUrl)` the later lookup gave (None when it gave None or raised). */
  datatype Answer = Answer(refreshed: bool, lookup: Option<(string, string)>)

  /** One report of the loop. bi_pbi.py overwrites `subject` and `body`; bi_modules.py fills
      them only while they are ''. A failed refresh raises out of the loop, and so does a None
      lookup, in the two-name unpacking, and an export that raises, after the variables are set. */
  function Step(copy: Copy, call: ExportCall, e: ReportEntry, answer: Answer, sendEmailWhenDone: bool,
                subject: string, body: string): (r: RunState)
    ensures !RefreshWanted(e) ==> r == RunState([], false, subject, body)
    ensures RefreshWanted(e) ==> |r.actions| >= 1 && r.actions[0] == RefreshReport(e.name, e.groupName)
    ensures r.failed <==> RefreshWanted(e) && (!answer.refreshed || (sendEmailWhenDone && (answer.lookup.None? ||
                            (call == AsWritten && ExportsSomething(ExportFlagsOf(e), Some(answer.lookup.value.0))))))
    ensures !r.failed && RefreshWanted(e) && sendEmailWhenDone ==>
              |r.actions| == 2 && r.actions[1].SendEmail? && r.actions[1].subject == r.subject && r.actions[1].body == r.body
    ensures r.failed || !(RefreshWanted(e) && sendEmailWhenDone) ==> |r.actions| <= 1
    ensures !(RefreshWanted(e) && sendEmailWhenDone && answer.refreshed && answer.lookup.Some?) ==>
              r.subject == subject && r.body == body
    ensures copy == ModulesCopy && subject != "" ==> r.subject == subject
    ensures copy == ModulesCopy && body != "" ==> r.body == body
    ensures RefreshWanted(e) && sendEmailWhenDone && answer.refreshed && answer.lookup.Some? ==>
              && (copy == PbiCopy || subject == "" ==> r.subject == Subject(copy, e))
              && (copy == PbiCopy || body == "" ==> r.body == Body(copy, e, answer.lookup.value.1))
    ensures r.subject != "" || r.subject == subject
  {
    if !RefreshWanted(e) then RunState([], false, subject, body)
    else
      var refreshed := [RefreshReport(e.name, e.groupName)];
      if !answer.refreshed then RunState(refreshed, true, subject, body)
      else if !sendEmailWhenDone then RunState(refreshed, false, subject, body)
      else match answer.lookup
        case None => RunState(refreshed, true, subject, body)
        case Some((id, webUrl)) =>
          var s := if copy == PbiCopy || subject == "" then Subject(copy, e) else subject;
          var b := if copy == PbiCopy || body == "" then Body(copy, e, webUrl) else body;
          match ExportStep(call, e.name, ExportFlagsOf(e), Some(id))
          case Err(_) => RunState(refreshed, true, s, b)
          case Ok(files) => RunState(refreshed + [SendEmail(s, b, files)], false, s, b)
  }

  /** The email of a report carries that report's export files; as written, it is sent only when
      there is nothing to export. */
  lemma StepAttachesExports(copy: Copy, call: ExportCall, e: ReportEntry, id: string, webUrl: string,
                            subject: string, body: string)
    requires RefreshWanted(e)
    ensures var step := Step(copy, call, e, Answer(true, Some((id, webUrl))), true, subject, body);
            !step.failed ==> step.actions[1].attachments == ExportFiles(e.name, ExportFlagsOf(e), Some(id))
    ensures var step := Step(copy, call, e, Answer(true, Some((id, webUrl))), true, subject, body);
            call == AsWritten && !step.failed ==> step.actions[1].attachments == []
  {
  }

  /** Past the given answers the Power BI service is unreachable. */
  function AnswerAt(answers: seq<Answer>, i: nat): Answer
  {
    PbiSpec.Nth(answers, i, Answer(false, None))
  }

  /** The loop after its first n reports (bi_pbi.py returns at once in QA; bi_modules.py has no QA test). */
  function Run(copy: Copy, call: ExportCall, isQA: bool, reports: seq<ReportEntry>, answers: seq<Answer>,
               sendEmailWhenDone: bool, subject: string, body: string, n: nat): (r: RunState)
    requires n <= |reports|
    ensures |r.actions| <= 2 * n
    ensures !sendEmailWhenDone ==> NoEmails(r.actions)
  {
    if n == 0 || (copy == PbiCopy && isQA) then RunState([], false, subject, body)
    else
      var prev := Run(copy, call, isQA, reports, answers, sendEmailWhenDone, subject, body, n - 1);
      if prev.failed then prev
      else
        var step := Step(copy, call, reports[n - 1], AnswerAt(answers, n - 1), sendEmailWhenDone, prev.subject, prev.body);
        NoEmailsConcat(prev.actions, step.actions);
        RunState(prev.actions + step.actions, step.failed, step.subject, step.body)
  }

  /** Once an exception has ended the loop, later reports change nothing. */
  lemma {:induction false} FailureStops(copy: Copy, call: ExportCall, isQA: bool, reports: seq<ReportEntry>, answers: seq<Answer>,
                                        sendEmailWhenDone: bool, subject: string, body: string, n: nat, m: nat)
    requires n <= m <= |reports|
    requires Run(copy, call, isQA, reports, answers, sendEmailWhenDone, subject, body, n).failed
    ensures Run(copy, call, isQA, reports, answers, sendEmailWhenDone, subject, body, m)
            == Run(copy, call, isQA, reports, answers, sendEmailWhenDone, subject, body, n)
    decreases m - n
  {
    if n < m {
      FailureStops(copy, call, isQA, reports, answers, sendEmailWhenDone, subject, body, n, m - 1);
    }
  }

  /** The email part of the loop body: set `body` and `subject`, collect the files; None when an
      export raises. */
  method ComposeEmail(copy: Copy, call: ExportCall, e: ReportEntry, id: string, webUrl: string,
                      subject: string, body: string)
    returns (email: Option<Action>, s: string, b: string)
    ensures var step := Step(copy, call, e, Answer(true, Some((id, webUrl))), true, subject, body);
            RefreshWanted(e) ==> && s == step.subject && b == step.body
                                 && (email.None? <==> step.failed)
                                 && (email.Some? ==> step.actions == [RefreshReport(e.name, e.groupName), email.value])
  {
    s, b := subject, body;
    if copy == PbiCopy || b == "" {
      b := Body(copy, e, webUrl);
    }
    if copy == PbiCopy || s == "" {
      s := Subject(copy, e);
    }
    var files := CollectExportFiles(call, e.name, ExportFlagsOf(e), Some(id));
    if files.Err? {
      return None, s, b;
    }
    email := Some(SendEmail(s, b, files.value));
  }

  /** The body of the `for report in reports` loop. */
  method ReportStep(copy: Copy, call: ExportCall, e: ReportEntry, answer: Answer, sendEmailWhenDone: bool,
                    subject: string, body: string) returns (r: RunState)
    ensures r == Step(copy, call, e, answer, sendEmailWhenDone, subject, body)
  {
    var actions: seq<Action> := [];
    var s, b := subject, body;
    if RefreshWanted(e) {
      actions := actions + [RefreshReport(e.name, e.groupName)];
      if !answer.refreshed {
        return RunState(actions, true, s, b);
      }
      if sendEmailWhenDone {
        if answer.lookup.None? {
          return RunState(actions, true, s, b);
        }
        var (id, webUrl) := answer.lookup.value;
        var email;
        email, s, b := ComposeEmail(copy, call, e, id, webUrl, s, b);
        if email.None? {
          return RunState(actions, true, s, b);
        }
        actions := actions + [email.value];
      }
    }
    r := RunState(actions, false, s, b);
  }

  /** One more report, when no exception has ended the loop yet. */
  lemma RunNext(copy: Copy, call: ExportCall, isQA: bool, reports: seq<ReportEntry>, answers: seq<Answer>,
                sendEmailWhenDone: bool, subject: string, body: string, n: nat)
    requires 0 < n <= |reports| && !(copy == PbiCopy && isQA)
    requires !Run(copy, call, isQA, reports, answers, sendEmailWhenDone, subject, body, n - 1).failed
    ensures var prev := Run(copy, call, isQA, reports, answers, sendEmailWhenDone, subject, body, n - 1);
            var step := Step(copy, call, reports[n - 1], AnswerAt(answers, n - 1), sendEmailWhenDone, prev.subject, prev.body);
            Run(copy, call, isQA, reports, answers, sendEmailWhenDone, subject, body, n)
            == RunState(prev.actions + step.actions, step.failed, step.subject, step.body)
  {
  }

  /** `report_refresh`: the `for report in reports` loop. */
  method RunReportRefresh(copy: Copy, call: ExportCall, isQA: bool, reports: seq<ReportEntry>, answers: seq<Answer>,
                          sendEmailWhenDone: bool, subject: string, body: string) returns (r: RunState)
    ensures r == Run(copy, call, isQA, reports, answers, sendEmailWhenDone, subject, body, |reports|)
  {
    if copy == PbiCopy && isQA {
      return RunState([], false, subject, body);
    }
    var actions: seq<Action> := [];
    var s, b := subject, body;
    var i := 0;
    while i < |reports|
      invariant 0 <= i <= |reports|
      invariant Run(copy, call, isQA, reports, answers, sendEmailWhenDone, subject, body, i) == RunState(actions, false, s, b)
    {
      var step := ReportStep(copy, call, reports[i], AnswerAt(answers, i), sendEmailWhenDone, s, b);
      RunNext(copy, call, isQA, reports, answers, sendEmailWhenDone, subject, body, i + 1);
      actions := actions + step.actions;
      s, b := step.subject, step.body;
      i := i + 1;
      if step.failed {
        FailureStops(copy, call, isQA, reports, answers, sendEmailWhenDone, subject, body, i, |reports|);
        return RunState(actions, true, s, b);
      }
    }
    r := RunState(actions, false, s, b);
  }

  /** In QA bi_pbi.py refreshes nothing and sends nothing. */
  lemma QaSkipsEverything(call: ExportCall, reports: seq<ReportEntry>, answers: seq<Answer>,
                          sendEmailWhenDone: bool, subject: string, body: string)
    ensures Run(PbiCopy, call, true, reports, answers, sendEmailWhenDone, subject, body, |reports|).actions == []
  {
  }

  /** Every `send_email` call among `actions` uses this subject and body. */
  predicate EmailsUse(actions: seq<Action>, subject: string, body: string)
  {
    forall k :: 0 <= k < |actions| && actions[k].SendEmail? ==>
      actions[k].subject == subject && actions[k].body == body
  }

  /** With both variables already non-empty, bi_modules.py sends every email with exactly them. */
  lemma {:induction false} FilledStaysFilled(call: ExportCall, isQA: bool, reports: seq<ReportEntry>, answers: seq<Answer>,
                                             sendEmailWhenDone: bool, subject: string, body: string, n: nat)
    requires n <= |reports| && subject != "" && body != ""
    ensures Run(ModulesCopy, call, isQA, reports, answers, sendEmailWhenDone, subject, body, n).subject == subject
    ensures Run(ModulesCopy, call, isQA, reports, answers, sendEmailWhenDone, subject, body, n).body == body
    ensures EmailsUse(Run(ModulesCopy, call, isQA, reports, answers, sendEmailWhenDone, subject, body, n).actions, subject, body)
  {
    if n > 0 {
      FilledStaysFilled(call, isQA, reports, answers, sendEmailWhenDone, subject, body, n - 1);
      var prev := Run(ModulesCopy, call, isQA, reports, answers, sendEmailWhenDone, subject, body, n - 1);
      if !prev.failed {
        RunNext(ModulesCopy, call, isQA, reports, answers, sendEmailWhenDone, subject, body, n);
        var step := Step(ModulesCopy, call, reports[n - 1], AnswerAt(answers, n - 1), sendEmailWhenDone, subject, body);
        StepKeepsFilled(call, reports[n - 1], AnswerAt(answers, n - 1), sendEmailWhenDone, subject, body);
        EmailsUseConcat(prev.actions, step.actions, subject, body);
      }
    }
  }

  /** In bi_modules.py a non-empty subject is never replaced, and neither is a non-empty body,
      each whatever the other holds; with both given, every email uses them. */
  lemma StepKeepsFilled(call: ExportCall, e: ReportEntry, answer: Answer, sendEmailWhenDone: bool, subject: string, body: string)
    ensures var step := Step(ModulesCopy, call, e, answer, sendEmailWhenDone, subject, body);
            && (subject != "" ==> step.subject == subject)
            && (body != "" ==> step.body == body)
            && (subject != "" && body != "" ==> EmailsUse(step.actions, subject, body))
  {
  }

  lemma EmailsUseConcat(a: seq<Action>, b: seq<Action>, subject: string, body: string)
    requires EmailsUse(a, subject, body) && EmailsUse(b, subject, body)
    ensures EmailsUse(a + b, subject, body)
  {
    forall k | 0 <= k < |a + b| && (a + b)[k].SendEmail?
      ensures (a + b)[k].subject == subject && (a + b)[k].body == body
    {
      if k >= |a| { assert (a + b)[k] == b[k - |a|]; }
    }
  }

  predicate NoEmails(actions: seq<Action>)
  {
    forall k :: 0 <= k < |actions| ==> !actions[k].SendEmail?
  }

  /** One report of bi_modules.py either leaves the variables and sends nothing, or leaves
      them non-empty and emails with them. */
  lemma StepFillsOnce(call: ExportCall, e: ReportEntry, answer: Answer, sendEmailWhenDone: bool, subject: string, body: string)
    ensures var step := Step(ModulesCopy, call, e, answer, sendEmailWhenDone, subject, body);
            || (NoEmails(step.actions) && step.subject == subject && step.body == body)
            || (step.subject != "" && step.body != "" && EmailsUse(step.actions, step.subject, step.body))
  {
  }

  /** A run is email-free exactly when both its parts are. */
  lemma NoEmailsConcat(a: seq<Action>, b: seq<Action>)
    ensures NoEmails(a + b) <==> NoEmails(a) && NoEmails(b)
  {
    forall k | 0 <= k < |a| ensures (a + b)[k] == a[k] { }
    forall k | 0 <= k < |b| ensures (a + b)[|a| + k] == b[k] { }
  }


  /** A run with no email so far uses any subject and body for its (absent) emails. */
  lemma NoEmailsUseAny(a: seq<Action>, subject: string, body: string)
    requires NoEmails(a)
    ensures EmailsUse(a, subject, body)
  {
  }

  /** bi_modules.py fills `subject` and `body` once: every email of a run carries the same pair,
      the one the variables hold at the end, and until the first email the variables keep the
      values the caller passed. */
  lemma {:induction false} EmailsShareSubjectAndBody(call: ExportCall, isQA: bool, reports: seq<ReportEntry>, answers: seq<Answer>,
                                                     sendEmailWhenDone: bool, subject: string, body: string, n: nat)
    requires n <= |reports|
    ensures var r := Run(ModulesCopy, call, isQA, reports, answers, sendEmailWhenDone, subject, body, n);
            EmailsUse(r.actions, r.subject, r.body)
    ensures var r := Run(ModulesCopy, call, isQA, reports, answers, sendEmailWhenDone, subject, body, n);
            (NoEmails(r.actions) && r.subject == subject && r.body == body) || (r.subject != "" && r.body != "")
  {
    if n > 0 {
      EmailsShareSubjectAndBody(call, isQA, reports, answers, sendEmailWhenDone, subject, body, n - 1);
      var prev := Run(ModulesCopy, call, isQA, reports, answers, sendEmailWhenDone, subject, body, n - 1);
      if !prev.failed {
        var step := Step(ModulesCopy, call, reports[n - 1], AnswerAt(answers, n - 1), sendEmailWhenDone, prev.subject, prev.body);
        StepFillsOnce(call, reports[n - 1], AnswerAt(answers, n - 1), sendEmailWhenDone, prev.subject, prev.body);
        RunNext(ModulesCopy, call, isQA, reports, answers, sendEmailWhenDone, subject, body, n);
        if NoEmails(step.actions) && step.subject == prev.subject && step.body == prev.body {
          NoEmailsUseAny(step.actions, step.subject, step.body);
          EmailsUseConcat(prev.actions, step.actions, step.subject, step.body);
          if NoEmails(prev.actions) {
            NoEmailsConcat(prev.actions, step.actions);
          }
        } else if NoEmails(prev.actions) {
          NoEmailsUseAny(prev.actions, step.subject, step.body);
          EmailsUseConcat(prev.actions, step.actions, step.subject, step.body);
        } else {
          assert step.subject == prev.subject && step.body == prev.body;
          EmailsUseConcat(prev.actions, step.actions, step.subject, step.body);
        }
      }
    }
  }

  /** bi_pbi.py overwrites both variables for every report: an email's text depends only on its
      own report and link, never on what the caller passed or earlier reports left. */
  lemma PbiEmailIsPerReport(call: ExportCall, e: ReportEntry, id: string, webUrl: string, subject: string, body: string)
    requires RefreshWanted(e)
    ensures var step := Step(PbiCopy, call, e, Answer(true, Some((id, webUrl))), true, subject, body);
            !step.failed ==>
              step.actions == [RefreshReport(e.name, e.groupName),
                               SendEmail(Subject(PbiCopy, e), Body(PbiCopy, e, webUrl), ExportFiles(e.name, ExportFlagsOf(e), Some(id)))]
  {
  }

  /** Every `send_email` call among `actions` has no attachments. */
  predicate NoAttachments(actions: seq<Action>)
  {
    forall k :: 0 <= k < |actions| && actions[k].SendEmail? ==> actions[k].attachments == []
  }

  /** As written, one report's email, when it is sent at all, has no attachments. */
  lemma AsWrittenStepSendsNoAttachments(copy: Copy, e: ReportEntry, answer: Answer, sendEmailWhenDone: bool,
                                        subject: string, body: string)
    ensures NoAttachments(Step(copy, AsWritten, e, answer, sendEmailWhenDone, subject, body).actions)
  {
  }

  lemma NoAttachmentsConcat(a: seq<Action>, b: seq<Action>)
    requires NoAttachments(a) && NoAttachments(b)
    ensures NoAttachments(a + b)
  {
    forall k | 0 <= k < |a + b| && (a + b)[k].SendEmail? ensures (a + b)[k].attachments == [] {
      if k >= |a| { assert (a + b)[k] == b[k - |a|]; }
    }
  }

  /** As written, no email of a run ever carries an attachment: a report that asks for an export
      ends the loop with the export's TypeError before its email is sent. */
  lemma {:induction false} AsWrittenSendsNoAttachments(copy: Copy, isQA: bool, reports: seq<ReportEntry>,
                                                       answers: seq<Answer>, sendEmailWhenDone: bool,
                                                       subject: string, body: string, n: nat)
    requires n <= |reports|
    ensures NoAttachments(Run(copy, AsWritten, isQA, reports, answers, sendEmailWhenDone, subject, body, n).actions)
  {
    if n > 0 && !(copy == PbiCopy && isQA) {
      AsWrittenSendsNoAttachments(copy, isQA, reports, answers, sendEmailWhenDone, subject, body, n - 1);
      var prev := Run(copy, AsWritten, isQA, reports, answers, sendEmailWhenDone, subject, body, n - 1);
      if !prev.failed {
        var step := Step(copy, AsWritten, reports[n - 1], AnswerAt(answers, n - 1), sendEmailWhenDone, prev.subject, prev.body);
        RunNext(copy, AsWritten, isQA, reports, answers, sendEmailWhenDone, subject, body, n);
        AsWrittenStepSendsNoAttachments(copy, reports[n - 1], AnswerAt(answers, n - 1), sendEmailWhenDone, prev.subject, prev.body);
        NoAttachmentsConcat(prev.actions, step.actions);
      }
    }
  }

  /** The discrepancy over a whole run: one report that asks for a PPTX call, whose refresh and
      lookup succeed, ends the run as written and is emailed with its file as intended. */
  lemma ExportEndsRunAsWritten(copy: Copy, e: ReportEntry, id: string, webUrl: string, subject: string, body: string)
    requires RefreshWanted(e) && ExportFlagsOf(e).pptx
    ensures Run(copy, AsWritten, false, [e], [Answer(true, Some((id, webUrl)))], true, subject, body, 1).failed
    ensures var r := Run(copy, AsIntended, false, [e], [Answer(true, Some((id, webUrl)))], true, subject, body, 1);
            !r.failed && |r.actions| == 2 && r.actions[1].SendEmail?
            && PbiSpec.ExportFileName(e.name, "PPTX") in r.actions[1].attachments
  {
    var answers := [Answer(true, Some((id, webUrl)))];
    assert AnswerAt(answers, 0) == Answer(true, Some((id, webUrl)));
    RunNext(copy, AsWritten, false, [e], answers, true, subject, body, 1);
    RunNext(copy, AsIntended, false, [e], answers, true, subject, body, 1);
  }
}
