/**
 * Values, replies and decision rules of the Power BI client `PowerBiRefresh`
 * (bi_modules/bi_pbi.py, duplicated in bi_modules/bi_modules.py).
 * Every HTTP answer is an input here; the stateful client is in module PbiClient.
 */
module PbiSpec {
  import opened Wrappers
  import opened Text

  datatype Group = Group(id: string, name: string)
  datatype Dataset = Dataset(id: string, name: string)
  datatype Report = Report(id: string, name: string, webUrl: string, datasetId: string)

  /** An answer of a Power BI list endpoint: status code, raw body text, and the
      body's `value` list when the body decodes and has one. */
  datatype ListReply<T> = ListReply(code: int, text: string, value: Option<seq<T>>)

  /** An answer of the OAuth token endpoint; TokenRaised stands for any exception
      (network error, missing `access_token`, non-integer `expires_in`). */
  datatype TokenReply = Granted(accessToken: string, expiresIn: int) | TokenRaised

  /** An answer of the `refreshes?$top=1` endpoint. */
  datatype StatusReply = StatusUnauthorized | StatusOk(status: string) | StatusRaised

  /** An answer of a POST that the refresh loop wraps in `try`. */
  datatype PostReply = PostResponse(code: int) | PostRaised

  /** The exceptions the client lets escape. */
  datatype Error =
    | TokenUnbound        // all token attempts failed: `api_token` is unbound at the return
    | RequestRaised       // an HTTP call outside any `try` raised
    | MalformedBody       // `response.json()['value']` failed
    | ReportLookupFailed  // a None report lookup was unpacked into two names
    | NoRefreshResponse   // `.status_code` was read from a None refresh response
    | StatusUnbound       // the polling loop ran zero times, so `status` is unbound

  const MaxTokenAttempts: nat := 6
  const TokenRetryDelay: nat := 60
  const RefreshAttempts: nat := 5
  const RefreshDelay: nat := 10
  const PollStep: nat := 60
  const DaySeconds: int := 86400
  const TokenMargin: int := 60
  const TokenMaxAge: int := 3600
  const Unauthorized: int := 401
  const HttpOk: int := 200
  const Completed: string := "Completed"
  const BearerPrefix: string := "Bearer "

  // ---------------------------------------------------------------- oracles

  /** The n-th answer of an endpoint whose answers are `replies`; once they run out the
      endpoint behaves as unreachable and answers `absent`. */
  function Nth<T>(replies: seq<T>, n: nat, absent: T): (r: T)
    ensures n < |replies| ==> r == replies[n]
    ensures n >= |replies| ==> r == absent
  {
    if n < |replies| then replies[n] else absent
  }

  function TokenAt(tokens: seq<TokenReply>, n: nat): TokenReply
  {
    Nth(tokens, n, TokenRaised)
  }

  function StatusAt(statuses: seq<StatusReply>, n: nat): StatusReply
  {
    Nth(statuses, n, StatusRaised)
  }

  function PostAt(posts: seq<PostReply>, n: nat): PostReply
  {
    Nth(posts, n, PostRaised)
  }

  // ---------------------------------------------------------------- token

  /** `timedelta.seconds`: the seconds part of a time difference, whole days dropped. */
  function TimedeltaSeconds(delta: int): (s: int)
    ensures 0 <= s < DaySeconds
    ensures (delta - s) % DaySeconds == 0
  {
    delta % DaySeconds
  }

  /** The test of `check_token_refresh`: refresh 60 seconds before the token expires. A lifetime
      under 60 seconds always asks for a refresh; because `.seconds` never reaches a day, a
      lifetime of a day and a minute or more never does. */
  predicate NeedsTokenRefresh(elapsed: int, expiresIn: int)
    ensures expiresIn < TokenMargin ==> NeedsTokenRefresh(elapsed, expiresIn)
    ensures expiresIn >= DaySeconds - 1 + TokenMargin ==> !NeedsTokenRefresh(elapsed, expiresIn)
  {
    TimedeltaSeconds(elapsed) > expiresIn - TokenMargin
  }

  /** Within a day the test is the plain comparison; a whole day later it is back where it started. */
  lemma TokenRefreshTest(elapsed: int, expiresIn: int)
    ensures 0 <= elapsed < DaySeconds ==>
              (NeedsTokenRefresh(elapsed, expiresIn) <==> elapsed > expiresIn - TokenMargin)
    ensures NeedsTokenRefresh(elapsed + DaySeconds, expiresIn) == NeedsTokenRefresh(elapsed, expiresIn)
  {
    assert (elapsed + DaySeconds) % DaySeconds == elapsed % DaySeconds;
  }

  /** The outcome of `get_power_bi_access_token`: how many replies it consumed and,
      unless all failed, the header value and lifetime it returns. */
  datatype Acquisition = Acquisition(attempts: nat, token: Option<(string, int)>)

  /** The `count` token replies from `from` on all raised. */
  predicate AllRaised(tokens: seq<TokenReply>, from: nat, count: nat)
    decreases count
  {
    count == 0 || (TokenAt(tokens, from).TokenRaised? && AllRaised(tokens, from + 1, count - 1))
  }

  /** `AllRaised` says of each reply in its range that it raised, and of nothing else. */
  lemma {:induction false} AllRaisedIff(tokens: seq<TokenReply>, from: nat, count: nat)
    ensures AllRaised(tokens, from, count) <==> forall n :: from <= n < from + count ==> TokenAt(tokens, n).TokenRaised?
    decreases count
  {
    if count > 0 {
      AllRaisedIff(tokens, from + 1, count - 1);
    }
  }

  /** The token loop from its `increment == k` on, reading the answers from + k, from + k + 1, ... of `tokens` */
  function AcquireFrom(tokens: seq<TokenReply>, from: nat, k: nat): (a: Acquisition)
    requires k <= MaxTokenAttempts
    ensures k < a.attempts <= MaxTokenAttempts || (k == a.attempts == MaxTokenAttempts && a.token.None?)
    ensures a.token.Some? ==>
              var reply := TokenAt(tokens, from + a.attempts - 1);
              && AllRaised(tokens, from + k, a.attempts - 1 - k)
              && reply.Granted? && a.token.value == (BearerPrefix + reply.accessToken, reply.expiresIn)
    ensures a.token.None? ==> a.attempts == MaxTokenAttempts && AllRaised(tokens, from + k, MaxTokenAttempts - k)
    decreases MaxTokenAttempts - k
  {
    if k == MaxTokenAttempts then Acquisition(MaxTokenAttempts, None)
    else match TokenAt(tokens, from + k)
      case Granted(t, e) => Acquisition(k + 1, Some((BearerPrefix + t, e)))
      case TokenRaised => AcquireFrom(tokens, from, k + 1)
  }

  function Acquire(tokens: seq<TokenReply>, from: nat): Acquisition
  {
    AcquireFrom(tokens, from, 0)
  }

  /** Seconds slept by one acquisition: 60 after each failed attempt. */
  function AcquireDelay(a: Acquisition): nat
  {
    60 * (if a.token.Some? && a.attempts > 0 then a.attempts - 1 else a.attempts)
  }

  /** At most six attempts; the first granted reply wins; six failures cost six minutes and give no token. */
  lemma AcquireBounds(tokens: seq<TokenReply>, from: nat)
    ensures 1 <= Acquire(tokens, from).attempts <= MaxTokenAttempts
    ensures Acquire(tokens, from).token.None? <==>
              forall n :: from <= n < from + MaxTokenAttempts ==> TokenAt(tokens, n).TokenRaised?
    ensures AcquireDelay(Acquire(tokens, from)) <= TokenRetryDelay * MaxTokenAttempts
    ensures Acquire(tokens, from).token.None? ==> AcquireDelay(Acquire(tokens, from)) == TokenRetryDelay * MaxTokenAttempts
  {
    var a := Acquire(tokens, from);
    AllRaisedIff(tokens, from, MaxTokenAttempts);
    if a.token.Some? {
      assert !TokenAt(tokens, from + a.attempts - 1).TokenRaised?;
    }
  }

  // ---------------------------------------------------------------- lookups

  predicate GroupNamed(g: Group, groupName: string)
  {
    Lower(g.name) == Lower(groupName)
  }

  /** `get_group_id`: the id of the first group whose lower-cased name equals the lower-cased `group_name`. */
  function FindGroupId(groups: seq<Group>, groupName: string): (r: Option<string>)
    ensures r.None? <==> forall j :: 0 <= j < |groups| ==> !GroupNamed(groups[j], groupName)
    ensures r.Some? ==> exists i :: 0 <= i < |groups| && GroupNamed(groups[i], groupName) && r.value == groups[i].id
                                    && forall j :: 0 <= j < i ==> !GroupNamed(groups[j], groupName)
  {
    match FirstMatch(groups, g => GroupNamed(g, groupName))
    case None => None
    case Some(i) => Some(groups[i].id)
  }

  /** `get_dataset_id`: the id of the first dataset whose name equals the report name exactly. */
  function FindDatasetId(datasets: seq<Dataset>, reportName: string): (r: Option<string>)
    ensures r.None? <==> forall j :: 0 <= j < |datasets| ==> datasets[j].name != reportName
    ensures r.Some? ==> exists i :: 0 <= i < |datasets| && datasets[i].name == reportName && r.value == datasets[i].id
                                    && forall j :: 0 <= j < i ==> datasets[j].name != reportName
  {
    match FirstMatch(datasets, (d: Dataset) => d.name == reportName)
    case None => None
    case Some(i) => Some(datasets[i].id)
  }

  /** Whether a report belongs to the dataset; a missing dataset id (None) never matches. */
  predicate OfDataset(rep: Report, datasetId: Option<string>)
  {
    datasetId == Some(rep.datasetId)
  }

  /** `get_report_id` after its 401 retry: None on a non-200 status, an empty body or an
      undecodable body, else `(id, webUrl)` of the first report of the dataset. */
  function ReportLookup(reply: ListReply<Report>, datasetId: Option<string>): (r: Option<(string, string)>)
    ensures reply.code != HttpOk || reply.text == [] || reply.value.None? ==> r.None?
    ensures reply.code == HttpOk && reply.text != [] && reply.value.Some? ==>
              var reports := reply.value.value;
              && (r.None? <==> forall j :: 0 <= j < |reports| ==> !OfDataset(reports[j], datasetId))
              && (r.Some? ==> exists i :: 0 <= i < |reports| && OfDataset(reports[i], datasetId)
                                          && r.value == (reports[i].id, reports[i].webUrl)
                                          && forall j :: 0 <= j < i ==> !OfDataset(reports[j], datasetId))
  {
    if reply.code != HttpOk || reply.text == [] || reply.value.None? then None
    else
      var reports := reply.value.value;
      match FirstMatch(reports, rep => OfDataset(rep, datasetId))
      case None => None
      case Some(i) => Some((reports[i].id, reports[i].webUrl))
  }

  /** Group lookup does not depend on the case of the requested name. */
  lemma GroupLookupIgnoresCase(groups: seq<Group>, a: string, b: string)
    requires Lower(a) == Lower(b)
    ensures FindGroupId(groups, a) == FindGroupId(groups, b)
  {
    var ra, rb := FindGroupId(groups, a), FindGroupId(groups, b);
    assert forall j :: 0 <= j < |groups| ==> (GroupNamed(groups[j], a) <==> GroupNamed(groups[j], b));
    if ra.Some? {
      var i :| 0 <= i < |groups| && GroupNamed(groups[i], a) && ra.value == groups[i].id
               && forall j :: 0 <= j < i ==> !GroupNamed(groups[j], a);
      var k :| 0 <= k < |groups| && GroupNamed(groups[k], b) && rb.value == groups[k].id
               && forall j :: 0 <= j < k ==> !GroupNamed(groups[j], b);
      assert !(i < k) && !(k < i);
    }
  }

  /** A dataset id that is not found makes every report lookup fail. */
  lemma NoDatasetNoReport(reply: ListReply<Report>)
    ensures ReportLookup(reply, None).None?
  {
  }

  // ---------------------------------------------------------------- polling

  /** Seconds slept by the polling loop after n non-completed statuses: (i+1)*60 after the i-th. */
  function Backoff(n: nat): nat
  {
    if n == 0 then 0 else Backoff(n - 1) + n * PollStep
  }

  /** Giving up after n statuses costs 60 * n(n+1)/2 seconds. */
  lemma {:induction false} BackoffClosedForm(n: nat)
    ensures Backoff(n) == 30 * n * (n + 1)
  {
    if n > 0 {
      BackoffClosedForm(n - 1);
    }
  }

  // ---------------------------------------------------------------- refresh POST

  /** One pass of the `try` block of `refresh_power_bi_dataset`: the first POST's answer,
      whether the token re-acquisition after a 401 returned, and the second POST's answer.
      The response code it returns, or None when the pass raised. */
  function PostAttempt(first: PostReply, reauthorized: bool, second: PostReply): (r: Option<int>)
    ensures first.PostRaised? ==> r.None?
    ensures first.PostResponse? && first.code != Unauthorized ==> r == Some(first.code)
    ensures first == PostResponse(Unauthorized) ==>
              (r.Some? <==> reauthorized && second.PostResponse?) && (r.Some? ==> r.value == second.code)
  {
    match first
    case PostRaised => None
    case PostResponse(c) =>
      if c != Unauthorized then Some(c)
      else if !reauthorized then None
      else match second
        case PostRaised => None
        case PostResponse(c2) => Some(c2)
  }

  /** The answers one pass of the refresh loop saw. */
  datatype PostPass = PostPass(first: PostReply, reauthorized: bool, second: PostReply)

  function PassResult(p: PostPass): Option<int>
  {
    PostAttempt(p.first, p.reauthorized, p.second)
  }

  /** The refresh loop's result over its passes: the first response that did not raise. */
  function RetryResult(passes: seq<PostPass>): Option<int>
  {
    if passes == [] then None
    else if PassResult(passes[0]).Some? then PassResult(passes[0])
    else RetryResult(passes[1..])
  }

  /** The refresh loop's result is None exactly when every pass raised, and otherwise the
      response of a pass before which every pass raised. */
  lemma {:induction false} RetryResultIsFirst(passes: seq<PostPass>)
    ensures RetryResult(passes).None? <==> forall j :: 0 <= j < |passes| ==> PassResult(passes[j]).None?
    ensures RetryResult(passes).Some? ==>
              exists i :: 0 <= i < |passes| && RetryResult(passes) == PassResult(passes[i])
                          && forall j :: 0 <= j < i ==> PassResult(passes[j]).None?
  {
    if passes != [] && PassResult(passes[0]).None? {
      var rest := passes[1..];
      RetryResultIsFirst(rest);
      assert forall j :: 1 <= j < |passes| ==> passes[j] == rest[j - 1];
      if RetryResult(rest).Some? {
        var i :| 0 <= i < |rest| && RetryResult(rest) == PassResult(rest[i])
                 && forall j :: 0 <= j < i ==> PassResult(rest[j]).None?;
        assert passes[i + 1] == rest[i];
      }
    }
  }

  /** No pass but the last got a response. */
  predicate AnsweredOnlyLast(passes: seq<PostPass>)
  {
    |passes| <= 1 || (PassResult(passes[0]).None? && AnsweredOnlyLast(passes[1..]))
  }

  /** `AnsweredOnlyLast` says that every pass before the last raised. */
  lemma {:induction false} AnsweredOnlyLastIff(passes: seq<PostPass>)
    ensures AnsweredOnlyLast(passes) <==> forall j :: 0 <= j < |passes| - 1 ==> PassResult(passes[j]).None?
  {
    if |passes| > 1 {
      AnsweredOnlyLastIff(passes[1..]);
      assert forall j :: 1 <= j < |passes| ==> passes[j] == passes[1..][j - 1];
    }
  }

  /** Passes after a response do not matter; passes before one that all raised do not either. */
  lemma {:induction false} RetryResultAppend(a: seq<PostPass>, b: seq<PostPass>)
    ensures RetryResult(a + b) == if RetryResult(a).Some? then RetryResult(a) else RetryResult(b)
  {
    if a != [] {
      assert (a + b)[0] == a[0];
      assert (a + b)[1..] == a[1..] + b;
      RetryResultAppend(a[1..], b);
    } else {
      assert a + b == b;
    }
  }

  // ---------------------------------------------------------------- export

  /** `export_report`'s file name: the report name, a dot and the lower-cased format. */
  function ExportFileName(reportName: string, formatType: string): (r: string)
    ensures |r| == |reportName| + 1 + |formatType|
    ensures r[..|reportName|] == reportName && r[|reportName|] == '.'
    ensures r[|reportName| + 1..] == Lower(formatType)
  {
    reportName + "." + Lower(formatType)
  }

  lemma ExportExtensions(reportName: string)
    ensures ExportFileName(reportName, "PPTX") == reportName + ".pptx"
    ensures ExportFileName(reportName, "PNG") == reportName + ".png"
    ensures ExportFileName(reportName, "PDF") == reportName + ".pdf"
  {
    assert Lower("PPTX") == "pptx";
    assert Lower("PNG") == "png";
    assert Lower("PDF") == "pdf";
  }
}
