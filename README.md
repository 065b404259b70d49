# bi-modules in Dafny

A model of the decision logic of the `bi_modules` package. The package is glue for a BI team's
Prefect flows. It refreshes Power BI datasets through the Power BI REST API, mails reports
through O365, opens Snowflake connections, and waits for running Prefect flow runs.
Every external answer is an input: HTTP replies, token grants, YAML contents, credential blocks
and flow-run listings. Every `time.sleep` is added to a ghost delay counter, and
`datetime.now()` is a `clock` field that only the modelled sleeps advance.
`env == 'QA'` is the boolean `isQA`.

Modules, one per concern:

- `PbiSpec` (pbi_spec.dfy): the replies and decision rules of the `PowerBiRefresh` client.
  It holds the token-refresh test, the bounded token loop, the three first-match lookups, the
  polling back-off, the refresh POST retry and the export file name.
- `PbiSession` (pbi_session.dfy): every method of `PowerBiRefresh` as a function on a
  `Client` value, which holds the object's fields, the replies used per endpoint, the clock
  and the seconds slept. What the source promises about tokens, ids, polling and the refresh
  loop is proved here, about these functions.
- `PbiClient` (pbi_client.dfy): the class `PowerBiRefresh` itself. It keeps its token fields,
  ids and per-endpoint call counters, and its methods run the three bounded loops. Each
  method is proved to return and to leave its fields exactly as the `PbiSession` function of
  the same concern says. Each endpoint answers from a sequence of replies: the n-th call gets
  element n. bi_modules/bi_modules.py:81-352 is a line-for-line copy of
  bi_modules/bi_pbi.py:37-301, so one class models both.
- `ReportRefresh` (report_refresh.dfy): the two `report_refresh` copies. It covers config
  flattening, the `Refresh` default, the export file order, and the per-report
  refresh-and-email loop. The bi_pbi.py copy overwrites subject and body for every report and
  returns at once in QA. The bi_modules.py copy fills subject and body once. The export call
  is a parameter, `ExportCall`: `AsWritten` is the call as the source makes it, which raises
  (see "## Findings"); `AsIntended` is the call that was evidently meant.
- `Mail` (mail.dfy): the O365 message the code fills in, and the status-dependent body
  wrapping that both `send_email` copies share.
- `BiEmail` (bi_email.dfy) and `ModulesEmail` (modules_email.dfy): the two `send_email`
  copies. They differ in recipients, QA handling, status validation and inline attachments.
- `Snowflake` (snowflake.dfy): the `SnowflakeConnection` record, and the role, database and
  SQLAlchemy URL derivation of the `sf_*_connection` helpers.
- `FlowRuns` (flow_runs.dfy): the RUNNING filter and the wait loop of
  `check_and_wait_for_running_flow_runs`. A finite sequence of listings stands in for the
  loop's unbounded reads.
- `Text` and `Wrappers`: the string helpers and the Option and Result types the others use.

## Model

| member | source | states |
|---|---|---|
| Text.Lower | bi_modules/bi_pbi.py:98 | `str.lower` keeps the length and maps each character to its lower-case form (ASCII letters) |
| Text.FirstMatch | bi_modules/bi_pbi.py:97-100 | the loop with early return yields the first index that matches, none before it matches, and None exactly when nothing matches |
| PbiSpec.TimedeltaSeconds | bi_modules/bi_pbi.py:81-82 | `timedelta.seconds` lies in 0..86399 and differs from the full difference by whole days |
| PbiSpec.NeedsTokenRefresh | bi_modules/bi_pbi.py:80-83 | a lifetime under 60 s always asks for a new token; a lifetime of a day and 59 s or more never does, because `.seconds` stays below a day |
| PbiSpec.TokenRefreshTest | bi_modules/bi_pbi.py:80-83 | under a day the refresh test is exactly `elapsed > expires_in - 60`; a difference one day longer gives the same answer |
| PbiSpec.AllRaisedIff | bi_modules/bi_pbi.py:57-78 | `AllRaised` holds exactly when every token reply in its range raised |
| PbiSpec.AcquireFrom | bi_modules/bi_pbi.py:57-78 | the token loop stops at the first granted reply, every earlier attempt raised, the token is `"Bearer "` + access token with its `expires_in`, and no token means six attempts that all raised |
| PbiSpec.AcquireBounds | bi_modules/bi_pbi.py:57-78 | `Acquire` makes 1 to 6 attempts; no token iff all six replies raised; its sleep `AcquireDelay` is at most 360 s, exactly 360 s when every attempt fails |
| PbiSpec.FindGroupId | bi_modules/bi_pbi.py:96-100 | None iff no group's lower-cased name equals the lower-cased `group_name`, otherwise the id of such a group (the first, via `FirstMatch`) |
| PbiSpec.GroupLookupIgnoresCase | bi_modules/bi_pbi.py:98 | two requested names with equal lower-case forms find the same group |
| PbiSpec.FindDatasetId | bi_modules/bi_pbi.py:111-118 | None iff no dataset has exactly the report name, otherwise the id of such a dataset (the first) |
| PbiSpec.ReportLookup | bi_modules/bi_pbi.py:225-240 | None on a non-200 status, an empty body or an undecodable body; otherwise `(id, webUrl)` of the first report whose `datasetId` is the dataset id, None if there is none |
| PbiSpec.NoDatasetNoReport | bi_modules/bi_pbi.py:234 | when the dataset was not found (None), no report ever matches |
| PbiSpec.BackoffClosedForm | bi_modules/bi_pbi.py:183-189 | `Backoff`, sleeping (i+1)·60 s after the i-th of n statuses, costs 30·n·(n+1) s in total |
| PbiSpec.PostAttempt | bi_modules/bi_pbi.py:126-133 | a raising POST gives nothing; a non-401 answer is the response; a 401 answer is followed by a new token and a second POST, whose answer is the response |
| PbiSpec.RetryResultIsFirst | bi_modules/bi_pbi.py:125-137 | the refresh loop's result is None iff every pass raised, otherwise the response of a pass before which every pass raised |
| PbiSpec.AnsweredOnlyLastIff | bi_modules/bi_pbi.py:126-136 | `AnsweredOnlyLast` holds exactly when every pass before the last raised |
| PbiSpec.RetryResultAppend | bi_modules/bi_pbi.py:125-137 | passes after the first answered one do not change the result; passes that all raised can be skipped |
| PbiSpec.ExportFileName | bi_modules/bi_pbi.py:281 | the export file name is the report name, a dot, then the lower-cased format |
| PbiSpec.ExportExtensions | bi_modules/bi_pbi.py:281 | PPTX, PNG and PDF give `.pptx`, `.png` and `.pdf` |
| PbiSession.GrantedBreaksRaised | bi_modules/bi_pbi.py:70-73 | a granted reply among the last six used means they did not all raise |
| PbiSession.AccessToken | bi_modules/bi_pbi.py:48-78 | consumes exactly the attempts of `Acquire` and sleeps only its 60 s waits; fails with `api_token` unbound iff the last six replies used all raised, after six calls and 360 s; otherwise returns `"Bearer "` + the granted reply's token, the clock and its `expires_in`; no field but the token counter and the clock changes |
| PbiSession.Reauthorized | bi_modules/bi_pbi.py:92 | `self.api_token, _, _ = ...` passes iff a token is granted and then replaces only `api_token`; on failure `api_token` is kept and the last six replies raised |
| PbiSession.TokenChecked | bi_modules/bi_pbi.py:80-83 | nothing changes unless `NeedsTokenRefresh`; then token, start time (the clock) and lifetime come from the acquisition, and it fails exactly when none is granted |
| PbiSession.Renewed | bi_modules/bi_pbi.py:190-192 | nothing changes unless `.seconds` of the token's age exceeds 3600; then only `api_token` is replaced, failing exactly when no token is granted |
| PbiSession.Fetch | bi_modules/bi_pbi.py:88-94 | a non-401 reply is used with nothing else changed; after a 401 the call passes iff a token is granted, and then `api_token` is that token and the next reply is used; the reply used is the last one consumed |
| PbiSession.GroupIdLookup | bi_modules/bi_pbi.py:85-100 | on success the id is `FindGroupId` over the group list read and a token of its own was acquired; a body without `value` fails as malformed; otherwise it fails only with `api_token` unbound after six raising replies; the stored ids are untouched |
| PbiSession.DatasetIdLookup | bi_modules/bi_pbi.py:102-118 | on success the id is `FindDatasetId` over the dataset list read; a body without `value` fails as malformed; otherwise it fails only with `api_token` unbound after six raising replies |
| PbiSession.ReportIdLookup | bi_modules/bi_pbi.py:215-240 | on success the result is `ReportLookup` of the report list read and the stored dataset id; it fails only with `api_token` unbound after six raising replies |
| PbiSession.GroupAndDatasetLookedUp | bi_modules/bi_pbi.py:43-44 | after success `group_id` and `dataset_id` are those the last group and dataset lists read give; failures are an unbound token or a malformed group or dataset list |
| PbiSession.IdsLookedUp | bi_modules/bi_pbi.py:43-45 | the lookups only read lists, acquire tokens and sleep for them |
| PbiSession.IdsStopEarly | bi_modules/bi_pbi.py:43-44 | a failed group or dataset lookup ends the lookups with that failure |
| PbiSession.IdsAfterDataset | bi_modules/bi_pbi.py:45 | once group and dataset are stored, the report lookup's failure, its None (a failed unpacking) or its `(id, webUrl)` ends the lookups |
| PbiSession.IdsStored | bi_modules/bi_pbi.py:43-45 | after success `group_id == FindGroupId(..)`, `dataset_id == FindDatasetId(..)` over the last lists read, and `(report_id, report_url)` is `ReportLookup` of the last report list read |
| PbiSession.IdsReportMissing | bi_modules/bi_pbi.py:45 | the lookups fail on the unpacking exactly when the last report list read has no report of the stored dataset, the other two ids being stored by then |
| PbiSession.IdsFailures | bi_modules/bi_pbi.py:43-45 | the lookups fail only by an unbound token, a malformed list or a failed unpacking |
| PbiSession.Started | bi_modules/bi_pbi.py:42-45 | `__init__` only reads lists, acquires tokens and sleeps for them |
| PbiSession.StartedStoresIds | bi_modules/bi_pbi.py:42-45 | a constructed client holds the three ids the last lists read give; once the report list is read, construction fails iff it has no report of the stored dataset |
| PbiSession.StartedFailures | bi_modules/bi_pbi.py:42-45 | construction fails only by an unbound token (after six raising replies), a malformed list or a failed unpacking |
| PbiSession.StatusRead | bi_modules/bi_pbi.py:158-166 | after the refresh check, one status GET: None exactly on a 401, otherwise the reported status or a raising GET; it fails with `api_token` unbound iff a refresh was due and no token was granted, reading nothing |
| PbiSession.StatusReadOnce | bi_modules/bi_pbi.py:172-175 | unless `api_token` ends unbound, the status is that of the last reply read, a second read is made iff the first reply was a 401, and at most two are made |
| PbiSession.StatusReadOnceReauthorizes | bi_modules/bi_pbi.py:172-175 | a non-None first status is the result; after a None status the next token is acquired: without one the result is the unbound `api_token` error and nothing more is read, with one `api_token` is that token and the result is a second read made with it |
| PbiSession.ReadOnceIsReadStep | bi_modules/bi_pbi.py:172-175 | one iteration's read only reads statuses and renews the token, reads a status whenever it succeeds, and fails only by an unbound token or a raising GET |
| PbiSession.RenewedIsRenewStep | bi_modules/bi_pbi.py:190-192 | the closing renewal is token work only and fails only with `api_token` unbound |
| PbiSession.PollLoop | bi_modules/bi_pbi.py:171-193 | a status returned without a read of its own is the previous iteration's |
| PbiSession.PollTry | bi_modules/bi_pbi.py:172-189 | a failed read or a `'Completed'` ends the loop with that read; another status hands over to the next iteration after (i+1)·60 s |
| PbiSession.PollGivesUp | bi_modules/bi_pbi.py:190-193 | after the last iteration comes the renewal, then the last status, or an unbound `status` when no iteration ran |
| PbiSession.PollFrame | bi_modules/bi_pbi.py:171-193 | polling reads statuses, sleeps and renews the token, and touches nothing else; one status call at least per status seen |
| PbiSession.PollLength | bi_modules/bi_pbi.py:171 | at most one status per remaining try; a status other than `'Completed'` is returned only after all tries |
| PbiSession.CompletedOnlyLastIff | bi_modules/bi_pbi.py:176-182 | `CompletedOnlyLast` holds exactly when no status but the last is `'Completed'` |
| PbiSession.PollStops | bi_modules/bi_pbi.py:176-182 | the loop stops at the first `'Completed'` |
| PbiSession.PollReturnsLast | bi_modules/bi_pbi.py:172-193 | the loop returns the last status read |
| PbiSession.SleptOverIsBackoff | bi_modules/bi_pbi.py:188 | over statuses that stop at the first `'Completed'`, the sleeps are those of `Backoff` |
| PbiSession.PollSleeps | bi_modules/bi_pbi.py:188 | iteration i sleeps (i+1)·60 s after a status other than `'Completed'` |
| PbiSession.PollTraceWhole | bi_modules/bi_pbi.py:168-193 | a whole loop reads at most `number_of_tries` statuses, stops at the first `'Completed'`, returns the last status read, and returns another status only after all tries |
| PbiSession.PollBackoff | bi_modules/bi_pbi.py:188 | a whole loop with k sleeps sleeps `Backoff(k)` seconds |
| PbiSession.PollErrors | bi_modules/bi_pbi.py:168-193 | polling fails only by an unbound token, a raising GET, or an unbound `status` when no iteration ran |
| PbiSession.Polled | bi_modules/bi_pbi.py:168-193 | a status is returned only after at least one read |
| PbiSession.PolledFrame | bi_modules/bi_pbi.py:168-193 | `power_bi_check_refresh_status` reads statuses, sleeps and renews the token only |
| PbiSession.PolledTrace | bi_modules/bi_pbi.py:168-193 | at most `number_of_tries` statuses; `'Completed'` is returned as soon as it is read; another status only after all tries, and the status returned is the last one read |
| PbiSession.PolledSleeps | bi_modules/bi_pbi.py:188 | a poll that returns a status with k sleeps sleeps `Backoff(k)` = 30·k·(k+1) seconds |
| PbiSession.PolledErrors | bi_modules/bi_pbi.py:168-193 | fails by an unbound token, a raising GET, or an unbound `status`, which happens exactly when `number_of_tries <= 0` and no token failure came first |
| PbiSession.PostPassed | bi_modules/bi_pbi.py:126-131 | one pass POSTs the next reply; after a 401 it re-acquires, and a second POST of the next reply happens exactly when a token is granted, with `api_token` replaced; the pass's code is `PassResult` of the POSTs seen |
| PbiSession.RetryStep | bi_modules/bi_pbi.py:126-137 | a pass with a response ends the loop after 10 s; a raising pass hands over to the next one after 10 s |
| PbiSession.RetryFrame | bi_modules/bi_pbi.py:125-137 | the refresh loop POSTs, renews the token and sleeps 10 s per pass, and touches nothing else |
| PbiSession.RetryTrace | bi_modules/bi_pbi.py:125-137 | at most five passes; the response is `RetryResult` of the passes; every pass before the last raised; five passes ran when none answered; the first pass is the one `PostPassed` predicts |
| PbiSession.RefreshedFrame | bi_modules/bi_pbi.py:120-137 | a refresh POSTs, renews and sleeps 10 s per pass only; it fails only when the refresh check finds no token, before any POST |
| PbiSession.RefreshedTrace | bi_modules/bi_pbi.py:120-137 | 1 to 5 passes; the result is `RetryResult` of the passes; all earlier passes raised; None only after five raising passes |
| PbiSession.TriggeredFrame | bi_modules/bi_pbi.py:196-211 | triggering touches nothing but the refresh, polling and token state |
| PbiSession.TriggeredTrace | bi_modules/bi_pbi.py:196-211 | a triggered refresh reports the last status polled, `'Completed'` as soon as it is read and another status only after all tries |
| PbiSession.TriggeredErrors | bi_modules/bi_pbi.py:196-211 | fails by an unbound token, no POST response after five raising passes (`refresh_response.status_code` on None), a raising status GET, or an unbound status |
| PbiSession.TriggeredResponse | bi_modules/bi_pbi.py:196-211 | on success the code returned is the response of the first of 1 to 5 passes that did not raise |
| PbiClient.PowerBiRefresh.constructor | bi_modules/bi_pbi.py:38-41 | stores the report name, group name and number of tries; no endpoint has been called yet |
| PbiClient.PowerBiRefresh.GetPowerBiAccessToken | bi_modules/bi_pbi.py:48-78 | returns and leaves the fields exactly as `AccessToken` |
| PbiClient.PowerBiRefresh.Reauthorize | bi_modules/bi_pbi.py:92 | returns and leaves the fields exactly as `Reauthorized` |
| PbiClient.PowerBiRefresh.CheckTokenRefresh | bi_modules/bi_pbi.py:80-83 | returns and leaves the fields exactly as `TokenChecked` |
| PbiClient.PowerBiRefresh.FetchGroups | bi_modules/bi_pbi.py:88-94 | returns and leaves the fields exactly as `Fetch` over the group replies |
| PbiClient.PowerBiRefresh.GetGroupId | bi_modules/bi_pbi.py:85-100 | returns and leaves the fields exactly as `GroupIdLookup` |
| PbiClient.PowerBiRefresh.FetchDatasets | bi_modules/bi_pbi.py:104-110 | returns and leaves the fields exactly as `Fetch` over the dataset replies |
| PbiClient.PowerBiRefresh.GetDatasetId | bi_modules/bi_pbi.py:102-118 | returns and leaves the fields exactly as `DatasetIdLookup` |
| PbiClient.PowerBiRefresh.FetchReports | bi_modules/bi_pbi.py:217-224 | returns and leaves the fields exactly as `Fetch` over the report replies |
| PbiClient.PowerBiRefresh.GetReportId | bi_modules/bi_pbi.py:215-240 | returns and leaves the fields exactly as `ReportIdLookup` |
| PbiClient.PowerBiRefresh.Start | bi_modules/bi_pbi.py:42-45 | returns and leaves the fields exactly as `Started` |
| PbiClient.PowerBiRefresh.LookUpIds | bi_modules/bi_pbi.py:43-45 | returns and leaves the fields exactly as `IdsLookedUp` |
| PbiClient.PowerBiRefresh.LookUpGroupAndDataset | bi_modules/bi_pbi.py:43-44 | returns and leaves the fields exactly as `GroupAndDatasetLookedUp` |
| PbiClient.PowerBiRefresh.RefreshStatus | bi_modules/bi_pbi.py:158-166 | returns and leaves the fields exactly as `StatusRead` |
| PbiClient.PowerBiRefresh.ReadStatusOnce | bi_modules/bi_pbi.py:172-175 | returns and leaves the fields exactly as `StatusReadOnce`, so a 401 re-acquires the token as `StatusReadOnceReauthorizes` states |
| PbiClient.PowerBiRefresh.CheckRefreshStatus | bi_modules/bi_pbi.py:168-193 | returns and leaves the fields exactly as `Polled` |
| PbiClient.PowerBiRefresh.PollTries | bi_modules/bi_pbi.py:170-193 | the loop and the closing renewal return and leave the fields exactly as `PollFrom` from iteration 0 |
| PbiClient.PowerBiRefresh.ReadAndSleep | bi_modules/bi_pbi.py:172-188 | one iteration: the read of `StatusReadOnce`, then, unless it failed or was `'Completed'`, (i+1)·60 s of sleep |
| PbiClient.PowerBiRefresh.RenewIfOld | bi_modules/bi_pbi.py:190-192 | returns and leaves the fields exactly as `Renewed` |
| PbiClient.PowerBiRefresh.PostOnce | bi_modules/bi_pbi.py:126-131 | returns and leaves the fields exactly as `PostPassed` |
| PbiClient.PowerBiRefresh.PostAndRest | bi_modules/bi_pbi.py:126-137 | one pass of `PostPassed`, then 10 s of sleep |
| PbiClient.PowerBiRefresh.PostPasses | bi_modules/bi_pbi.py:124-137 | the loop returns and leaves the fields exactly as `RetryFrom` from pass 0 |
| PbiClient.PowerBiRefresh.RefreshPowerBiDataset | bi_modules/bi_pbi.py:120-137 | returns and leaves the fields exactly as `Refreshed` |
| PbiClient.PowerBiRefresh.TriggerAndCheckRefresh | bi_modules/bi_pbi.py:196-211 | returns and leaves the fields exactly as `Triggered` |
| PbiClient.PowerBiRefresh.PbiRefresh | bi_modules/bi_pbi.py:290-301 | leaves the fields as `Triggered` and fails exactly when it fails, with the same error |
| ReportRefresh.Flatten | bi_modules/bi_pbi.py:324 | every key of the merged options comes, with its value, from some dictionary of `Export` |
| ReportRefresh.FlattenKeys | bi_modules/bi_pbi.py:324 | a key is in the merged options exactly when some dictionary of `Export` has it |
| ReportRefresh.FlagLastWins | bi_modules/bi_pbi.py:324-328 | the last dictionary that names a flag decides its value |
| ReportRefresh.FlagDefaultsToFalse | bi_modules/bi_pbi.py:326-328 | a flag named by no dictionary is False |
| ReportRefresh.Flag | bi_modules/bi_pbi.py:326-328 | `dict.get(key, False)` is true iff the key is present with value True |
| ReportRefresh.ExportFlagsOf | bi_modules/bi_modules.py:485-489 | PDF, PNG and PPTX flags are read from the merged options |
| ReportRefresh.RefreshWanted | bi_modules/bi_pbi.py:320 | `Refresh` defaults to True; only an explicit False skips the report |
| ReportRefresh.ExportFiles | bi_modules/bi_pbi.py:350-366 | as intended: no files without a report id; otherwise one file per set flag, PPTX first, PDF last |
| ReportRefresh.ExportFilesAsWritten | bi_modules/bi_pbi.py:352-366 | as written, the export step raises exactly when a report id is known and some flag is set, and otherwise collects no file |
| ReportRefresh.CollectExportFiles | bi_modules/bi_pbi.py:350-366 | the `files +=` steps build exactly `ExportFiles` as intended, and raise exactly as `ExportFilesAsWritten` says as written |
| ReportRefresh.ExportAsWrittenRaises | bi_modules/bi_pbi.py:354 | a PPTX export raises as written but gives `name.pptx` as intended |
| ReportRefresh.Subject | bi_modules/bi_pbi.py:348 | every generated subject starts with `Power BI Refresh: ` |
| ReportRefresh.Body | bi_modules/bi_pbi.py:339-347 | every generated body starts with the fixed heading |
| ReportRefresh.Step | bi_modules/bi_pbi.py:318-372 | a skipped report does nothing; a wanted one is refreshed first; the loop fails iff the refresh fails, or an email is wanted and the lookup is None or, as written, something is to be exported; otherwise an email follows with the subject and body left in the variables, which change only when an email is composed; in bi_modules.py a non-empty subject is kept and so is a non-empty body, each independently, and an empty one becomes the generated one |
| ReportRefresh.StepAttachesExports | bi_modules/bi_pbi.py:350-372 | a report's email carries exactly its `ExportFiles`; as written, an email that is sent carries none |
| ReportRefresh.Run | bi_modules/bi_pbi.py:317-372 | at most two actions per report; no email when `send_email_when_done` is False |
| ReportRefresh.FailureStops | bi_modules/bi_pbi.py:317-372 | once an exception leaves the loop, later reports add nothing |
| ReportRefresh.ComposeEmail | bi_modules/bi_modules.py:500-536 | sets body and subject (bi_modules.py only when `''`) as `Step` does, and emails the collected files; no email exactly when `Step` fails |
| ReportRefresh.ReportStep | bi_modules/bi_pbi.py:318-372 | the loop body does exactly `Step` |
| ReportRefresh.RunNext | bi_modules/bi_pbi.py:317-372 | while nothing has failed (and outside bi_pbi.py's QA return), the run over n reports is the run over n-1 followed by `Step` on the n-th |
| ReportRefresh.RunReportRefresh | bi_modules/bi_pbi.py:313-372 | the loop does exactly `Run` over all reports |
| ReportRefresh.QaSkipsEverything | bi_modules/bi_pbi.py:315-316 | in QA bi_pbi.py refreshes nothing and sends nothing |
| ReportRefresh.StepKeepsFilled | bi_modules/bi_modules.py:508-511 | a non-empty subject is never replaced, nor a non-empty body, each whatever the other holds; when both are given every email uses them |
| ReportRefresh.StepFillsOnce | bi_modules/bi_modules.py:508-511 | one report either changes nothing and sends nothing, or leaves non-empty subject and body and emails with them |
| ReportRefresh.FilledStaysFilled | bi_modules/bi_modules.py:508-511 | with subject and body given, every email uses them unchanged |
| ReportRefresh.EmailsShareSubjectAndBody | bi_modules/bi_modules.py:497-536 | all emails of a run share one subject and body; until the first email the caller's values stay |
| ReportRefresh.PbiEmailIsPerReport | bi_modules/bi_pbi.py:347-348 | in bi_pbi.py an email's subject and body depend only on its own report and link |
| ReportRefresh.AsWrittenStepSendsNoAttachments | bi_modules/bi_pbi.py:350-372 | as written, no email of one report carries an attachment |
| ReportRefresh.AsWrittenSendsNoAttachments | bi_modules/bi_pbi.py:317-372 | as written, no email of a whole run carries an attachment |
| ReportRefresh.ExportEndsRunAsWritten | bi_modules/bi_pbi.py:352-354 | one refreshed report with a PPTX flag ends the run with an exception as written, and is emailed with its `.pptx` file as intended |
| Mail.Head | bi_modules/bi_email.py:94-118 | there is a head exactly for Success, Error and Warning |
| Mail.Tail | bi_modules/bi_email.py:94-118 | there is a tail exactly for Success, Error and Warning |
| Mail.WrapBody | bi_modules/bi_email.py:94-118 | other statuses leave the body unchanged; the three known ones put it verbatim between head and tail |
| Mail.UnwrapWrap | bi_modules/bi_email.py:94-118 | the body can always be read back out of the wrapped text |
| Mail.WrapInjective | bi_modules/bi_modules.py:434-458 | one status never wraps two bodies into the same text |
| Mail.Message.constructor | bi_modules/bi_email.py:78 | a new message has no recipients, subject, body, body type or attachments |
| Mail.Message.AddRecipients | bi_modules/bi_email.py:90 | `m.to.add` appends the recipients and changes nothing else |
| Mail.Message.AddAttachment | bi_modules/bi_email.py:136 | `m.attachments.add` appends a regular attachment and changes nothing else |
| Mail.Message.MarkLastInline | bi_modules/bi_email.py:130-133 | the last attachment becomes inline with the content id; the others stay as they were |
| BiEmail.Recipients | bi_modules/bi_email.py:81-88 | a string becomes a one-element list, a list is used as is, None gives the team address, and QA gives only the team address |
| BiEmail.QaDropsExplicitEmail | bi_modules/bi_email.py:86-88 | in QA an explicit address other than the team's receives nothing |
| BiEmail.InlineId | bi_modules/bi_email.py:127 | a content id exists exactly for attachments named in a given `content_ids` |
| BiEmail.Classify | bi_modules/bi_email.py:124-136 | an attachment is inline exactly when `content_ids` names it, with exactly that content id |
| BiEmail.Classified | bi_modules/bi_email.py:124-136 | attachments in list order, each classified; None gives nothing |
| BiEmail.AttachAll | bi_modules/bi_email.py:124-136 | the loop appends exactly `Classified` and touches no other field |
| BiEmail.SendEmail | bi_modules/bi_email.py:55-138 | recipients, QA subject suffix, wrapped body, `'HTML'` body type and classified attachments of the sent message |
| ModulesEmail.AllowedIsWrappedOrNone | bi_modules/bi_modules.py:400-402 | `AllowedStatus`, the status check, accepts exactly None and the three statuses the wrapper knows |
| ModulesEmail.ToList | bi_modules/bi_modules.py:408-431 | an address receives the mail (`Addressed`) iff it is the explicit one, or the team's in QA, or outside QA a YAML recipient or, for Error, an error recipient; YAML recipients come first, the explicit address last |
| ModulesEmail.CollectRecipients | bi_modules/bi_modules.py:408-431 | the `recipients +=` steps build exactly `ToList` |
| ModulesEmail.QaCopiesDiffer | bi_modules/bi_modules.py:421-431 | in QA this copy still sends to an explicit address, while bi_email.py drops it |
| ModulesEmail.ErrorRecipientsOnlyOnError | bi_modules/bi_modules.py:411-416 | an error-only recipient receives the mail iff the status is Error |
| ModulesEmail.AttachRegular | bi_modules/bi_modules.py:462-463 | every attachment is added as a regular one, in list order |
| ModulesEmail.SendEmail | bi_modules/bi_modules.py:382-464 | ValueError iff the status is not allowed; otherwise the recipients, QA subject suffix, wrapped body and regular attachments of the sent message |
| Snowflake.Connect | bi_modules/bi_db.py:19-32 | each field of the record goes to the `connect` argument of the same meaning |
| Snowflake.ConnectLosesNothing | bi_modules/bi_db.py:9-32 | the record can be recovered from the arguments it connects with |
| Snowflake.SqlAlchemyUrl | bi_modules/bi_db.py:55 | the engine URL starts with `snowflake://` |
| Snowflake.UrlRoundTrip | bi_modules/bi_db.py:55 | when each part is free of the delimiter after it, all seven parts can be read back from the URL |
| Snowflake.ProdRoleAndDatabase | bi_modules/bi_db.py:44-52 | the role is the block's, or the developer role in QA; the database gets `_QA` appended exactly once in QA and is unchanged otherwise |
| Snowflake.SfPeProdConnection | bi_modules/bi_db.py:37-68 | an engine iff `sql_alchemy`; otherwise the connector gets the block's user, password and account, the derived role and database, and `paramstyle` `'qmark'` |
| Snowflake.RoleArgumentIgnored | bi_modules/bi_db.py:39-48 | the `role` argument never affects the connection |
| Snowflake.EngineUrlAgreesWithConnector | bi_modules/bi_db.py:54-66 | the engine URL carries the same seven values the connector path would use |
| Snowflake.ModulesPeProdConnection | bi_modules/bi_modules.py:593-616 | the bi_modules.py copy is the bi_db.py connector path outside QA |
| Snowflake.SfCptConnection | bi_modules/bi_modules.py:618-639 | QA appends `_QA` to the database; the `role` argument is kept |
| Snowflake.SfPeItConnection | bi_modules/bi_modules.py:642-659 | every argument passes through unchanged |
| Snowflake.CptIsItOutsideQa | bi_modules/bi_modules.py:618-659 | the CPT and IT helpers agree except for the QA database suffix |
| FlowRuns.MakeFilters | bi_modules/check_flow_runs.py:6-12 | the deployment filter names the deployment; the flow filter has no name iff `flow_name` is None or empty |
| FlowRuns.Running | bi_modules/check_flow_runs.py:19 | exactly the runs in state RUNNING, never more than the response |
| FlowRuns.RunningAppend | bi_modules/check_flow_runs.py:19 | the filter distributes over concatenation, so it keeps response order |
| FlowRuns.RunningIdempotent | bi_modules/check_flow_runs.py:19 | filtering twice changes nothing |
| FlowRuns.FirstIdle | bi_modules/check_flow_runs.py:14-26 | the first read with no running run, every earlier read having one |
| FlowRuns.WaitForIdle | bi_modules/check_flow_runs.py:14-26 | proceeds at the first idle read after k sleeps, having waited k·interval·60 s; a negative interval fails at the first sleep; otherwise it keeps waiting |
| FlowRuns.AlwaysRunningNeverProceeds | bi_modules/check_flow_runs.py:14 | while a run stays RUNNING, no read lets the loop exit |

## Left out

- HTTP, OAuth, O365 and Prefect calls are not executed. Their results are inputs or reply sequences. `login`, `read_inbox` and `m.send()` are external calls.
- Time: `time.sleep` and `datetime.now`. The clock advances only by the sleeps, so HTTP latency is not modelled.
- The `concurrency("email_concurrency")` slot of bi_email.py, because it is concurrency control.
- YAML reading, because the parsed structure is the input. `report.get('name')` and `report.get('group_name')` returning None are not modelled; names are strings.
- The bi_modules.py `report_refresh` passes `recipient_yaml_file_path` to `send_email`. `ReportRefresh.SendEmail` records only subject, body and attachments; the recipients are modelled in `ModulesEmail`.
- `export_report_to_file`, `check_export_status`, `get_export_file` and the file write in `export_report`, because these are broken calls and I/O. `export_report_to_file` calls the string `self.group_id` and reads an unset `self.format_type`. The `while status != "Succeeded"` export poll has no bound. Only the export file name is modelled.
- `get_dataset_source`, because nothing in the modelled core calls it. Its loop is the same five-pass retry as `refresh_power_bi_dataset`.
- `report_refresh_noyaml`, because it uses undefined names. The same goes for the dead code after `return` in `find_yaml_path` and `find_reports_yaml_path`.
- The `__init__.py` import lists, `config_vd_dsn.py`, `bi_blob.py` and `blocks.py`, because they hold no decision logic.
- `snowflake.connector.connect`, `create_engine` and `pyodbc`, because they are database drivers. The model states what they receive. The module-global `paramstyle` is a field of the returned handle.
- Exceptions raised by the group, dataset and report GETs themselves (bi_modules/bi_pbi.py:90 and 94, 106 and 110, 219 and 224) are not modelled: these GETs always answer. Only the status GET and the refresh POST can raise in the model. A body without a decodable `value` is the `MalformedBody` error.
- `get_dataset_id` wraps its loop in a bare `try`/`except` (bi_modules/bi_pbi.py:112-117). A dataset entry without `name`, or a `value` of null, therefore gives None there. The typed `Dataset` always has a name, and the model cannot tell a null `value` from a missing one: both are `MalformedBody`.
- PbiSpec.ReportLookup: a body that decodes but lacks a `value` or `datasetId` key raises `KeyError` in the source. The model returns None, as for an undecodable body.
- Text.Lower: only ASCII letters are lower-cased, because Dafny has no Unicode case tables.
- `pbi_refresh` returns nothing. `PbiClient.PowerBiRefresh.PbiRefresh` returns only whether it failed and why; its fields are stated in full.
- ReportRefresh.Subject: states only the common prefix; the exact text is in its body.
- ReportRefresh.Body: states only the common heading, because the HTML is kept as constant pieces without its styles and whitespace.
- Mail.WrapBody: the HTML heads and tails are shortened constants without their styles and whitespace.
- ReportRefresh.RunReportRefresh: a report's refresh outcome is an input. It is stated per report as whether `PowerBiRefresh(...)` and `pbi_refresh()` raised; `PbiClient` models those calls themselves.
- FlowRuns.WaitForIdle: the source loop never returns while runs keep running. The model stops when the finite sequence of listings runs out. A flow run whose `state` is None, and a float interval, are not modelled.
- `elapsed_time.seconds` drops whole days (`PbiSpec.TokenRefreshTest`), so a token more than a day old can look fresh. This is modelled as written and not reported as a defect, because the intent cannot be told from the code.

## Findings

| source | as written | input that shows it | evidently intended | confidence | as-written member | corrected member |
|---|---|---|---|---|---|---|
| bi_modules/bi_pbi.py:354 | `export_report(report_name, report_id, "PPTX")` passes three arguments to `export_report(self, format_type)`, so the first export raises `TypeError` and ends `report_refresh` before any email (bi_modules/bi_modules.py:517 has the same call) | a report with `Export: [{PPTX: true}]`, `send_email_when_done=True` and a found report id | `export_report("PPTX")`, appending `report_name.pptx` and then `.png` and `.pdf` files in that order | high; not executed | ReportRefresh.ExportFilesAsWritten, ReportRefresh.ExportEndsRunAsWritten, ReportRefresh.AsWrittenSendsNoAttachments | ReportRefresh.ExportFiles, ReportRefresh.StepAttachesExports |

`Step` and `Run` take the export call as a parameter, so every lemma about the loop holds for the
code as written (`AsWritten`) and for the corrected call (`AsIntended`). Even the corrected call
would not yet produce a file: `export_report_to_file` (bi_modules/bi_pbi.py:244-246) calls the
string `self.group_id` and reads `self.format_type`, which is never set. The corrected member
therefore states the file names the loop collects once the export works; the export itself is
left out (see above).
