/**
 * The Power BI client `PowerBiRefresh` (bi_modules/bi_pbi.py:37-301, copied at
 * bi_modules/bi_modules.py:81-352) as functions on a snapshot of its fields. Each method of
 * class PbiClient.PowerBiRefresh is proved to move its fields exactly as the function of the
 * same concern here moves a `Client` value; what the source promises is stated on these
 * functions and in the lemmas about them. Every endpoint answers from a sequence of replies:
 * the n-th call gets element n, and a call counter in `Client` says how many have been used.
 */
module PbiSession {
  import opened Wrappers
  import opened PbiSpec

  /** What a `PowerBiRefresh` object is created with: its three arguments and the answers its
      endpoints will give. */
  datatype Setup = Setup(reportName: string, groupName: string, numberOfTries: int,
                         tokens: seq<TokenReply>, groupReplies: seq<ListReply<Group>>,
                         datasetReplies: seq<ListReply<Dataset>>, reportReplies: seq<ListReply<Report>>,
                         posts: seq<PostReply>, statuses: seq<StatusReply>)

  /** The fields of a `PowerBiRefresh` object, the replies used per endpoint, the clock, and the
      seconds slept at token retries, refresh POSTs and status polls. */
  datatype Client = Client(tokenCalls: nat, groupsCalls: nat, datasetsCalls: nat, reportsCalls: nat,
                           postCalls: nat, statusCalls: nat, clock: int,
                           apiToken: string, startTime: int, expiresIn: int,
                           groupId: Option<string>, datasetId: Option<string>,
                           reportId: Option<string>, reportUrl: Option<string>,
                           tokenDelay: nat, postDelay: nat, pollDelay: nat)

  /** A step that may fail, and the fields after it. */
  datatype Moved = Moved(outcome: Outcome<Error>, client: Client)

  /** `get_power_bi_access_token`'s answer (header value, time, lifetime) and the fields after it. */
  datatype Granting = Granting(token: Result<(string, int, int), Error>, client: Client)

  /** A list GET: whether it got through, the reply used, the endpoint's new call count, the fields. */
  datatype Fetched<T> = Fetched(outcome: Outcome<Error>, reply: ListReply<T>, calls: nat, client: Client)

  /** A lookup: what it found or why it failed, the list reply it used, the fields. */
  datatype Looked<I, T> = Looked(found: Result<I, Error>, reply: ListReply<T>, client: Client)

  /** A status read: the status (None after a 401) or why it failed, and the fields. */
  datatype Read = Read(status: Result<Option<string>, Error>, client: Client)

  /** The polling loop: its result, the fields, and the status each iteration read. */
  datatype Poll = Poll(status: Result<Option<string>, Error>, client: Client, seen: seq<Option<string>>)

  /** One POST pass: the response code unless it raised, what happened, the fields. */
  datatype Posted = Posted(code: Option<int>, pass: PostPass, client: Client)

  /** The refresh loop: the response code, the fields, and its passes. */
  datatype Retried = Retried(code: Option<int>, client: Client, passes: seq<PostPass>)

  /** `refresh_power_bi_dataset`: the response code or why it failed, the fields, the passes. */
  datatype Refresh = Refresh(code: Result<Option<int>, Error>, client: Client, passes: seq<PostPass>)

  /** `trigger_and_check_refresh`: response code and last status, the fields, the passes and statuses. */
  datatype Trigger = Trigger(result: Result<(int, Option<string>), Error>, client: Client,
                             passes: seq<PostPass>, seen: seq<Option<string>>)

  /** The n-th answer of a list endpoint; past the given answers the server is unreachable. */
  function ListAt<T>(replies: seq<ListReply<T>>, n: nat): ListReply<T>
  {
    Nth(replies, n, ListReply(0, [], None))
  }

  // ---------------------------------------------------------------- frames

  /** The clock moved by exactly the seconds slept, each kind of sleep summed in its own delay. */
  predicate TimeIsSleep(s: Client, t: Client)
  {
    && t.tokenDelay >= s.tokenDelay && t.postDelay >= s.postDelay && t.pollDelay >= s.pollDelay
    && t.clock - s.clock == (t.tokenDelay - s.tokenDelay) + (t.postDelay - s.postDelay) + (t.pollDelay - s.pollDelay)
  }

  /** The four ids found by the lookups are untouched. */
  predicate KeepsIds(s: Client, t: Client)
  {
    t.groupId == s.groupId && t.datasetId == s.datasetId && t.reportId == s.reportId && t.reportUrl == s.reportUrl
  }

  /** No list endpoint was called. */
  predicate KeepsCounts(s: Client, t: Client)
  {
    t.groupsCalls == s.groupsCalls && t.datasetsCalls == s.datasetsCalls && t.reportsCalls == s.reportsCalls
  }

  /** The refresh state is untouched: the POST and status counters and their sleeps. */
  predicate KeepsRefresh(s: Client, t: Client)
  {
    t.postCalls == s.postCalls && t.statusCalls == s.statusCalls && t.postDelay == s.postDelay && t.pollDelay == s.pollDelay
  }

  /** Only token work happened between `s` and `t`. */
  predicate TokenWork(s: Client, t: Client)
  {
    t.tokenCalls >= s.tokenCalls && TimeIsSleep(s, t) && KeepsIds(s, t) && KeepsCounts(s, t) && KeepsRefresh(s, t)
  }

  /** The six token replies used last all raised: how `api_token` ends up unbound. */
  predicate LastSixRaised(tokens: seq<TokenReply>, calls: nat)
  {
    calls >= MaxTokenAttempts && AllRaised(tokens, calls - MaxTokenAttempts, MaxTokenAttempts)
  }

  /** A granted reply among the last six used means they did not all raise. */
  lemma GrantedBreaksRaised(tokens: seq<TokenReply>, calls: nat)
    requires calls > 0 && TokenAt(tokens, calls - 1).Granted?
    ensures !LastSixRaised(tokens, calls)
  {
    if calls >= MaxTokenAttempts {
      AllRaisedIff(tokens, calls - MaxTokenAttempts, MaxTokenAttempts);
    }
  }

  // ---------------------------------------------------------------- token

  /** `get_power_bi_access_token`: the header value, the time and the lifetime of the first
      granted reply, or an unbound `api_token` after six raising attempts. */
  function AccessToken(c: Setup, s: Client): (r: Granting)
    ensures TokenWork(s, r.client) && r.client.apiToken == s.apiToken
    ensures r.client.startTime == s.startTime && r.client.expiresIn == s.expiresIn
    ensures r.client.tokenCalls - s.tokenCalls == Acquire(c.tokens, s.tokenCalls).attempts
    ensures r.token.Err? <==> LastSixRaised(c.tokens, r.client.tokenCalls)
    ensures r.token.Err? ==> r.token.error == TokenUnbound && r.client.tokenCalls == s.tokenCalls + MaxTokenAttempts
                             && r.client.clock == s.clock + TokenRetryDelay * MaxTokenAttempts
    ensures r.token.Ok? ==> r.client.tokenCalls > s.tokenCalls &&
                            var g := TokenAt(c.tokens, r.client.tokenCalls - 1);
                            g.Granted? && r.token.value == (BearerPrefix + g.accessToken, r.client.clock, g.expiresIn)
  {
    var a := Acquire(c.tokens, s.tokenCalls);
    var t := s.(tokenCalls := s.tokenCalls + a.attempts, clock := s.clock + AcquireDelay(a),
                tokenDelay := s.tokenDelay + AcquireDelay(a));
    if a.token.None? then Granting(Err(TokenUnbound), t)
    else
      GrantedBreaksRaised(c.tokens, t.tokenCalls);
      Granting(Ok((a.token.value.0, t.clock, a.token.value.1)), t)
  }

  /** `self.api_token, _, _ = self.get_power_bi_access_token()`. */
  function Reauthorized(c: Setup, s: Client): (r: Moved)
    ensures TokenWork(s, r.client) && r.client.startTime == s.startTime && r.client.expiresIn == s.expiresIn
    ensures var a := Acquire(c.tokens, s.tokenCalls);
            && (r.outcome.Pass? <==> a.token.Some?)
            && (r.outcome.Pass? ==> r.client.apiToken == a.token.value.0)
            && (r.outcome.Fail? ==> r.outcome.error == TokenUnbound && r.client.apiToken == s.apiToken
                                    && LastSixRaised(c.tokens, r.client.tokenCalls))
  {
    var Granting(t, s1) := AccessToken(c, s);
    if t.Err? then Moved(Fail(t.error), s1) else Moved(Pass, s1.(apiToken := t.value.0))
  }

  /** `check_token_refresh`: a new token, start time and lifetime exactly when `.seconds` of the
      token's age exceeds its lifetime less 60 seconds. */
  function TokenChecked(c: Setup, s: Client): (r: Moved)
    ensures TokenWork(s, r.client)
    ensures !NeedsTokenRefresh(s.clock - s.startTime, s.expiresIn) ==> r == Moved(Pass, s)
    ensures NeedsTokenRefresh(s.clock - s.startTime, s.expiresIn) ==>
              var a := Acquire(c.tokens, s.tokenCalls);
              && (r.outcome.Pass? <==> a.token.Some?)
              && (r.outcome.Pass? ==> r.client.apiToken == a.token.value.0 && r.client.startTime == r.client.clock
                                      && r.client.expiresIn == a.token.value.1)
    ensures r.outcome.Fail? ==> r.outcome.error == TokenUnbound && LastSixRaised(c.tokens, r.client.tokenCalls)
  {
    if !NeedsTokenRefresh(s.clock - s.startTime, s.expiresIn) then Moved(Pass, s)
    else
      var Granting(t, s1) := AccessToken(c, s);
      if t.Err? then Moved(Fail(t.error), s1)
      else Moved(Pass, s1.(apiToken := t.value.0, startTime := t.value.1, expiresIn := t.value.2))
  }

  /** The end of `power_bi_check_refresh_status`: a new `api_token` when `.seconds` of the
      token's age exceeds an hour. */
  function Renewed(c: Setup, s: Client): (r: Moved)
    ensures TokenWork(s, r.client) && r.client.startTime == s.startTime && r.client.expiresIn == s.expiresIn
    ensures TimedeltaSeconds(s.clock - s.startTime) <= TokenMaxAge ==> r == Moved(Pass, s)
    ensures TimedeltaSeconds(s.clock - s.startTime) > TokenMaxAge ==>
              var a := Acquire(c.tokens, s.tokenCalls);
              && (r.outcome.Pass? <==> a.token.Some?)
              && (r.outcome.Pass? ==> r.client.apiToken == a.token.value.0)
    ensures r.outcome.Fail? ==> r.outcome.error == TokenUnbound && LastSixRaised(c.tokens, r.client.tokenCalls)
  {
    if TimedeltaSeconds(s.clock - s.startTime) > TokenMaxAge then Reauthorized(c, s) else Moved(Pass, s)
  }

  // ---------------------------------------------------------------- lookups

  /** A GET of a list endpoint with `calls` of its `replies` used so far, and after a 401 a new
      `api_token` and a second GET. */
  function Fetch<T>(c: Setup, replies: seq<ListReply<T>>, calls: nat, s: Client): (r: Fetched<T>)
    ensures TokenWork(s, r.client) && r.client.startTime == s.startTime && r.client.expiresIn == s.expiresIn
    ensures var first := ListAt(replies, calls);
            && (first.code != Unauthorized ==> r == Fetched(Pass, first, calls + 1, s))
            && (first.code == Unauthorized ==>
                  var a := Acquire(c.tokens, s.tokenCalls);
                  && (r.outcome.Pass? <==> a.token.Some?)
                  && (r.outcome.Pass? ==> r.reply == ListAt(replies, calls + 1) && r.calls == calls + 2
                                          && r.client.apiToken == a.token.value.0)
                  && (r.outcome.Fail? ==> r.calls == calls + 1 && r.outcome.error == TokenUnbound
                                          && LastSixRaised(c.tokens, r.client.tokenCalls)))
    ensures r.outcome.Pass? ==> r.calls > calls && r.reply == ListAt(replies, r.calls - 1)
  {
    var first := ListAt(replies, calls);
    if first.code != Unauthorized then Fetched(Pass, first, calls + 1, s)
    else
      var Moved(o, s1) := Reauthorized(c, s);
      if o.Fail? then Fetched(o, first, calls + 1, s1)
      else Fetched(Pass, ListAt(replies, calls + 1), calls + 2, s1)
  }

  /** `group_id` is the id found in the last group list read. */
  predicate GroupIdFrom(c: Setup, s: Client)
  {
    && s.groupsCalls > 0
    && ListAt(c.groupReplies, s.groupsCalls - 1).value.Some?
    && s.groupId == FindGroupId(ListAt(c.groupReplies, s.groupsCalls - 1).value.value, c.groupName)
  }

  /** `dataset_id` is the id found in the last dataset list read. */
  predicate DatasetIdFrom(c: Setup, s: Client)
  {
    && s.datasetsCalls > 0
    && ListAt(c.datasetReplies, s.datasetsCalls - 1).value.Some?
    && s.datasetId == FindDatasetId(ListAt(c.datasetReplies, s.datasetsCalls - 1).value.value, c.reportName)
  }

  /** The last group list read had no decodable `value`. */
  predicate GroupsMalformed(c: Setup, s: Client)
  {
    s.groupsCalls > 0 && ListAt(c.groupReplies, s.groupsCalls - 1).value.None?
  }

  /** The last dataset list read had no decodable `value`. */
  predicate DatasetsMalformed(c: Setup, s: Client)
  {
    s.datasetsCalls > 0 && ListAt(c.datasetReplies, s.datasetsCalls - 1).value.None?
  }

  /** `report_id` and `webUrl` are those the last report list read gives for the stored dataset. */
  predicate ReportFrom(c: Setup, s: Client)
  {
    && s.reportsCalls > 0
    && var found := ReportLookup(ListAt(c.reportReplies, s.reportsCalls - 1), s.datasetId);
       found.Some? && s.reportId == Some(found.value.0) && s.reportUrl == Some(found.value.1)
  }

  /** The last report list read has no report of the stored dataset. */
  predicate ReportMissing(c: Setup, s: Client)
  {
    s.reportsCalls > 0 && ReportLookup(ListAt(c.reportReplies, s.reportsCalls - 1), s.datasetId).None?
  }

  /** Only lookups and token work happened between `s` and `t`. */
  predicate LookupWork(s: Client, t: Client)
  {
    t.tokenCalls >= s.tokenCalls && TimeIsSleep(s, t) && KeepsRefresh(s, t)
    && t.groupsCalls >= s.groupsCalls && t.datasetsCalls >= s.datasetsCalls && t.reportsCalls >= s.reportsCalls
  }

  /** `get_group_id`: after the refresh check it acquires a token of its own, which authorises
      the first group GET but is not stored, GETs the groups and looks the group up by
      case-insensitive name. */
  function GroupIdLookup(c: Setup, s: Client): (r: Looked<Option<string>, Group>)
    ensures LookupWork(s, r.client) && KeepsIds(s, r.client)
    ensures r.client.datasetsCalls == s.datasetsCalls && r.client.reportsCalls == s.reportsCalls
    ensures r.found.Ok? ==> r.client.tokenCalls > s.tokenCalls
    ensures r.found.Ok? || r.found == Err(MalformedBody) ==>
              && r.client.groupsCalls > s.groupsCalls && r.reply == ListAt(c.groupReplies, r.client.groupsCalls - 1)
              && (r.found.Ok? <==> r.reply.value.Some?)
    ensures r.found.Ok? ==> r.found.value == FindGroupId(r.reply.value.value, c.groupName)
                            && GroupIdFrom(c, r.client.(groupId := r.found.value))
    ensures r.found == Err(MalformedBody) ==> GroupsMalformed(c, r.client)
    ensures r.found.Err? ==> r.found.error in {TokenUnbound, MalformedBody}
    ensures r.found == Err(TokenUnbound) ==> LastSixRaised(c.tokens, r.client.tokenCalls)
  {
    var Moved(o, s1) := TokenChecked(c, s);
    if o.Fail? then Looked(Err(o.error), ListReply(0, [], None), s1)
    else
      var Granting(t, s2) := AccessToken(c, s1);
      if t.Err? then Looked(Err(t.error), ListReply(0, [], None), s2)
      else
        var Fetched(f, reply, calls, s3) := Fetch(c, c.groupReplies, s2.groupsCalls, s2);
        var s4 := s3.(groupsCalls := calls);
        if f.Fail? then Looked(Err(f.error), reply, s4)
        else if reply.value.None? then Looked(Err(MalformedBody), reply, s4)
        else Looked(Ok(FindGroupId(reply.value.value, c.groupName)), reply, s4)
  }

  /** `get_dataset_id`: GET the group's datasets and look the report name up exactly. */
  function DatasetIdLookup(c: Setup, s: Client): (r: Looked<Option<string>, Dataset>)
    ensures LookupWork(s, r.client) && KeepsIds(s, r.client)
    ensures r.client.groupsCalls == s.groupsCalls && r.client.reportsCalls == s.reportsCalls
    ensures r.found.Ok? || r.found == Err(MalformedBody) ==>
              && r.client.datasetsCalls > s.datasetsCalls && r.reply == ListAt(c.datasetReplies, r.client.datasetsCalls - 1)
              && (r.found.Ok? <==> r.reply.value.Some?)
    ensures r.found.Ok? ==> r.found.value == FindDatasetId(r.reply.value.value, c.reportName)
                            && DatasetIdFrom(c, r.client.(datasetId := r.found.value))
    ensures r.found == Err(MalformedBody) ==> DatasetsMalformed(c, r.client)
    ensures r.found.Err? ==> r.found.error in {TokenUnbound, MalformedBody}
    ensures r.found == Err(TokenUnbound) ==> LastSixRaised(c.tokens, r.client.tokenCalls)
  {
    var Moved(o, s1) := TokenChecked(c, s);
    if o.Fail? then Looked(Err(o.error), ListReply(0, [], None), s1)
    else
      var Fetched(f, reply, calls, s2) := Fetch(c, c.datasetReplies, s1.datasetsCalls, s1);
      var s3 := s2.(datasetsCalls := calls);
      if f.Fail? then Looked(Err(f.error), reply, s3)
      else if reply.value.None? then Looked(Err(MalformedBody), reply, s3)
      else Looked(Ok(FindDatasetId(reply.value.value, c.reportName)), reply, s3)
  }

  /** `get_report_id`: GET the group's reports and pick the first report of the stored dataset. */
  function ReportIdLookup(c: Setup, s: Client): (r: Looked<Option<(string, string)>, Report>)
    ensures LookupWork(s, r.client) && KeepsIds(s, r.client)
    ensures r.client.groupsCalls == s.groupsCalls && r.client.datasetsCalls == s.datasetsCalls
    ensures r.found.Ok? ==> && r.client.reportsCalls > s.reportsCalls
                            && r.reply == ListAt(c.reportReplies, r.client.reportsCalls - 1)
                            && r.found.value == ReportLookup(r.reply, s.datasetId)
    ensures r.found.Ok? && r.found.value.Some? ==>
              ReportFrom(c, r.client.(reportId := Some(r.found.value.value.0), reportUrl := Some(r.found.value.value.1)))
    ensures r.found.Ok? && r.found.value.None? ==> ReportMissing(c, r.client)
    ensures r.found.Err? ==> r.found.error == TokenUnbound && LastSixRaised(c.tokens, r.client.tokenCalls)
  {
    var Moved(o, s1) := TokenChecked(c, s);
    if o.Fail? then Looked(Err(o.error), ListReply(0, [], None), s1)
    else
      var Fetched(f, reply, calls, s2) := Fetch(c, c.reportReplies, s1.reportsCalls, s1);
      var s3 := s2.(reportsCalls := calls);
      if f.Fail? then Looked(Err(f.error), reply, s3)
      else Looked(Ok(ReportLookup(reply, s.datasetId)), reply, s3)
  }

  /** `self.group_id = self.get_group_id()` then `self.dataset_id = self.get_dataset_id()`. */
  function GroupAndDatasetLookedUp(c: Setup, s: Client): (r: Moved)
    ensures LookupWork(s, r.client) && r.client.reportsCalls == s.reportsCalls
    ensures r.client.reportId == s.reportId && r.client.reportUrl == s.reportUrl
    ensures r.outcome.Pass? ==> GroupIdFrom(c, r.client) && DatasetIdFrom(c, r.client)
    ensures r.outcome.Fail? ==> r.outcome.error in {TokenUnbound, MalformedBody}
    ensures r.outcome == Fail(TokenUnbound) ==> LastSixRaised(c.tokens, r.client.tokenCalls)
    ensures r.outcome == Fail(MalformedBody) ==> GroupsMalformed(c, r.client) || DatasetsMalformed(c, r.client)
  {
    var Looked(g, _, s1) := GroupIdLookup(c, s);
    if g.Err? then Moved(Fail(g.error), s1)
    else
      var Looked(d, _, s2) := DatasetIdLookup(c, s1.(groupId := g.value));
      if d.Err? then Moved(Fail(d.error), s2)
      else Moved(Pass, s2.(datasetId := d.value))
  }

  /** The lookups of `__init__`: group, dataset, then the report, whose None result fails the
      two-name unpacking `self.report_id, self.webUrl = ...`. */
  function IdsLookedUp(c: Setup, s: Client): (r: Moved)
    ensures LookupWork(s, r.client)
  {
    var Moved(o, s1) := GroupAndDatasetLookedUp(c, s);
    if o.Fail? then Moved(o, s1)
    else
      var Looked(rep, _, s2) := ReportIdLookup(c, s1);
      if rep.Err? then Moved(Fail(rep.error), s2)
      else if rep.value.None? then Moved(Fail(ReportLookupFailed), s2)
      else Moved(Pass, s2.(reportId := Some(rep.value.value.0), reportUrl := Some(rep.value.value.1)))
  }

  /** A failed group or dataset lookup ends the lookups. */
  lemma IdsStopEarly(c: Setup, s: Client, e: Error, s1: Client)
    requires GroupAndDatasetLookedUp(c, s) == Moved(Fail(e), s1)
    ensures IdsLookedUp(c, s) == Moved(Fail(e), s1)
  {
  }

  /** The report step of the lookups, once group and dataset are stored. */
  lemma IdsAfterDataset(c: Setup, s: Client, s1: Client, rep: Result<Option<(string, string)>, Error>,
                        reply: ListReply<Report>, s2: Client)
    requires GroupAndDatasetLookedUp(c, s) == Moved(Pass, s1) && ReportIdLookup(c, s1) == Looked(rep, reply, s2)
    ensures IdsLookedUp(c, s) == if rep.Err? then Moved(Fail(rep.error), s2)
                                 else if rep.value.None? then Moved(Fail(ReportLookupFailed), s2)
                                 else Moved(Pass, s2.(reportId := Some(rep.value.value.0), reportUrl := Some(rep.value.value.1)))
  {
  }

  /** After successful lookups the three stored ids are those the last lists read give. */
  lemma IdsStored(c: Setup, s: Client)
    ensures var r := IdsLookedUp(c, s);
            r.outcome.Pass? ==> GroupIdFrom(c, r.client) && DatasetIdFrom(c, r.client) && ReportFrom(c, r.client)
  {
    var Moved(o, s1) := GroupAndDatasetLookedUp(c, s);
    if o.Pass? {
      var Looked(rep, _, s2) := ReportIdLookup(c, s1);
      if rep.Ok? && rep.value.Some? {
        var s3 := s2.(reportId := Some(rep.value.value.0), reportUrl := Some(rep.value.value.1));
        assert IdsLookedUp(c, s) == Moved(Pass, s3);
        assert GroupIdFrom(c, s3) && DatasetIdFrom(c, s3);
      }
    }
  }

  /** The report lookup fails exactly when the last report list read has no report of the
      stored dataset, the group and dataset ids being stored by then. */
  lemma IdsReportMissing(c: Setup, s: Client)
    ensures var r := IdsLookedUp(c, s);
            && (r.outcome == Fail(ReportLookupFailed) ==>
                  GroupIdFrom(c, r.client) && DatasetIdFrom(c, r.client) && ReportMissing(c, r.client))
            && (r.outcome.Pass? ==> !ReportMissing(c, r.client))
  {
    var Moved(o, s1) := GroupAndDatasetLookedUp(c, s);
    if o.Pass? {
      var Looked(rep, reply, s2) := ReportIdLookup(c, s1);
      IdsAfterDataset(c, s, s1, rep, reply, s2);
      if rep.Ok? && rep.value.None? {
        assert GroupIdFrom(c, s2) && DatasetIdFrom(c, s2);
      } else if rep.Ok? {
        var s3 := s2.(reportId := Some(rep.value.value.0), reportUrl := Some(rep.value.value.1));
        assert ReportFrom(c, s3);
      }
    } else {
      IdsStopEarly(c, s, o.error, s1);
    }
  }

  /** The other ways the lookups fail: a malformed list or six raising token requests. */
  lemma IdsFailures(c: Setup, s: Client)
    ensures var r := IdsLookedUp(c, s);
            && (r.outcome.Fail? ==> r.outcome.error in {TokenUnbound, MalformedBody, ReportLookupFailed})
            && (r.outcome == Fail(TokenUnbound) ==> LastSixRaised(c.tokens, r.client.tokenCalls))
  {
  }

  /** `__init__` after its three plain assignments: a token, its time and lifetime, then the lookups. */
  function Started(c: Setup, s: Client): (r: Moved)
    ensures LookupWork(s, r.client)
  {
    var Granting(t, s1) := AccessToken(c, s);
    if t.Err? then Moved(Fail(t.error), s1)
    else IdsLookedUp(c, s1.(apiToken := t.value.0, startTime := t.value.1, expiresIn := t.value.2))
  }

  /** A constructed client holds the ids the lists give, and fails on a report lookup exactly
      when the report list has no report of the stored dataset. */
  lemma StartedStoresIds(c: Setup, s: Client)
    ensures var r := Started(c, s);
            && (r.outcome.Pass? ==> GroupIdFrom(c, r.client) && DatasetIdFrom(c, r.client) && ReportFrom(c, r.client))
            && (r.outcome == Fail(ReportLookupFailed) ==>
                  GroupIdFrom(c, r.client) && DatasetIdFrom(c, r.client) && ReportMissing(c, r.client))
            && (r.outcome.Pass? || r.outcome == Fail(ReportLookupFailed) ==>
                  (r.outcome.Fail? <==> ReportMissing(c, r.client)))
  {
    var Granting(t, s1) := AccessToken(c, s);
    if t.Ok? {
      var s2 := s1.(apiToken := t.value.0, startTime := t.value.1, expiresIn := t.value.2);
      IdsStored(c, s2);
      IdsReportMissing(c, s2);
    }
  }

  /** Constructing a client fails only on token, body or report lookup failures. */
  lemma StartedFailures(c: Setup, s: Client)
    ensures var r := Started(c, s);
            && (r.outcome.Fail? ==> r.outcome.error in {TokenUnbound, MalformedBody, ReportLookupFailed})
            && (r.outcome == Fail(TokenUnbound) ==> LastSixRaised(c.tokens, r.client.tokenCalls))
  {
    var Granting(t, s1) := AccessToken(c, s);
    if t.Ok? {
      IdsFailures(c, s1.(apiToken := t.value.0, startTime := t.value.1, expiresIn := t.value.2));
    }
  }

  // ---------------------------------------------------------------- status polling

  /** What `power_bi_dataset_refresh_status` makes of one reply: None for a 401, the status
      otherwise; a raising GET escapes. */
  function StatusValue(reply: StatusReply): Result<Option<string>, Error>
  {
    match reply
    case StatusUnauthorized => Ok(None)
    case StatusOk(st) => Ok(Some(st))
    case StatusRaised => Err(RequestRaised)
  }

  /** Only polling and token work happened between `s` and `t`. */
  predicate PollWork(s: Client, t: Client)
  {
    t.tokenCalls >= s.tokenCalls && t.statusCalls >= s.statusCalls && TimeIsSleep(s, t) && KeepsIds(s, t)
    && KeepsCounts(s, t) && t.postCalls == s.postCalls && t.postDelay == s.postDelay
  }

  /** `power_bi_dataset_refresh_status`: the refresh check, then one GET of the latest refresh. */
  function StatusRead(c: Setup, s: Client): (r: Read)
    ensures PollWork(s, r.client) && r.client.pollDelay == s.pollDelay
    ensures r.status == Err(TokenUnbound) <==>
              NeedsTokenRefresh(s.clock - s.startTime, s.expiresIn) && Acquire(c.tokens, s.tokenCalls).token.None?
    ensures r.status == Err(TokenUnbound) ==>
              r.client.statusCalls == s.statusCalls && LastSixRaised(c.tokens, r.client.tokenCalls)
    ensures r.status != Err(TokenUnbound) ==>
              r.client.statusCalls == s.statusCalls + 1 && r.status == StatusValue(StatusAt(c.statuses, s.statusCalls))
  {
    var Moved(o, s1) := TokenChecked(c, s);
    if o.Fail? then Read(Err(o.error), s1)
    else Read(StatusValue(StatusAt(c.statuses, s1.statusCalls)), s1.(statusCalls := s1.statusCalls + 1))
  }

  /** One iteration's read in `power_bi_check_refresh_status`: after a None (a 401) a new
      `api_token` and exactly one more read. */
  function StatusReadOnce(c: Setup, s: Client): (r: Read)
    ensures PollWork(s, r.client) && r.client.pollDelay == s.pollDelay
    ensures r.status != Err(TokenUnbound) ==>
              && r.client.statusCalls > s.statusCalls
              && r.status == StatusValue(StatusAt(c.statuses, r.client.statusCalls - 1))
              && (r.client.statusCalls == s.statusCalls + 2 <==> StatusAt(c.statuses, s.statusCalls).StatusUnauthorized?)
              && r.client.statusCalls <= s.statusCalls + 2
    ensures r.status == Err(TokenUnbound) ==> LastSixRaised(c.tokens, r.client.tokenCalls)
  {
    var Read(st, s1) := StatusRead(c, s);
    if st != Ok(None) then Read(st, s1)
    else
      var Moved(o, s2) := Reauthorized(c, s1);
      if o.Fail? then Read(Err(o.error), s2)
      else StatusRead(c, s2)
  }

  /** A 401 on the status read (a None status) makes the iteration acquire the next token:
      when none is granted it fails with `api_token` unbound and reads nothing more; otherwise
      `api_token` is the new token and the status is that of the second read, made with it.
      Any other first read is the iteration's result. */
  lemma StatusReadOnceReauthorizes(c: Setup, s: Client)
    ensures var first := StatusRead(c, s);
            var r := StatusReadOnce(c, s);
            && (first.status != Ok(None) ==> r == first)
            && (first.status == Ok(None) ==>
                  var a := Acquire(c.tokens, first.client.tokenCalls);
                  var s2 := Reauthorized(c, first.client).client;
                  && s2.tokenCalls == first.client.tokenCalls + a.attempts
                  && (a.token.None? ==> r.status == Err(TokenUnbound) && r.client == s2
                                        && r.client.statusCalls == first.client.statusCalls)
                  && (a.token.Some? ==> s2.apiToken == a.token.value.0 && r == StatusRead(c, s2)))
  {
  }

  /** How many sleeps a polling trace `seen` went through: none after a final 'Completed'. */
  function Sleeps(seen: seq<Option<string>>): nat
  {
    if seen != [] && seen[|seen| - 1] == Some(Completed) then |seen| - 1 else |seen|
  }

  /** The fields after the sleep of iteration `i`: (i+1)*60 seconds. */
  function Slept(s: Client, i: nat): Client
  {
    s.(clock := s.clock + (i + 1) * PollStep, pollDelay := s.pollDelay + (i + 1) * PollStep)
  }

  /** What the polling loop relies on in its read step: it reads statuses and renews the token
      only, reads at least one status when it succeeds, and fails only by a token failure or a
      raising GET. */
  ghost predicate ReadStep(read: (Setup, Client) -> Read)
  {
    forall c: Setup, s: Client ::
      && PollWork(s, read(c, s).client) && read(c, s).client.pollDelay == s.pollDelay
      && (read(c, s).status.Ok? ==> read(c, s).client.statusCalls > s.statusCalls)
      && (read(c, s).status.Err? ==> read(c, s).status.error in {TokenUnbound, RequestRaised})
  }

  /** What the polling loop relies on in its closing renewal: token work only, failing only by
      an unbound token. */
  ghost predicate RenewStep(renew: (Setup, Client) -> Moved)
  {
    forall c: Setup, s: Client ::
      TokenWork(s, renew(c, s).client) && (renew(c, s).outcome.Fail? ==> renew(c, s).outcome.error == TokenUnbound)
  }

  /** The read of one iteration of `power_bi_check_refresh_status` is such a step. */
  lemma ReadOnceIsReadStep()
    ensures ReadStep(StatusReadOnce)
  {
  }

  /** The closing renewal of `power_bi_check_refresh_status` is such a step. */
  lemma RenewedIsRenewStep()
    ensures RenewStep(Renewed)
  {
  }

  /** The polling loop of `power_bi_check_refresh_status` from iteration `i` on, `last` being the
      status of iteration i-1 (None before the first), with the read of each iteration and the
      renewal after the last one as parameters. */
  function PollLoop(read: (Setup, Client) -> Read, renew: (Setup, Client) -> Moved,
                    c: Setup, s: Client, i: nat, last: Option<Option<string>>): (r: Poll)
    ensures r.status.Ok? && r.seen == [] ==> last.Some? && r.status.value == last.value
    decreases c.numberOfTries - i
  {
    if i >= c.numberOfTries then
      var Moved(o, s1) := renew(c, s);
      if o.Fail? then Poll(Err(o.error), s1, [])
      else if last.None? then Poll(Err(StatusUnbound), s1, [])
      else Poll(Ok(last.value), s1, [])
    else
      var Read(st, s1) := read(c, s);
      if st.Err? then Poll(Err(st.error), s1, [])
      else if st.value == Some(Completed) then Poll(st, s1, [st.value])
      else
        var Poll(res, s3, seen) := PollLoop(read, renew, c, Slept(s1, i), i + 1, Some(st.value));
        Poll(res, s3, [st.value] + seen)
  }

  /** The polling loop with the reads and the renewal of the source. */
  function PollFrom(c: Setup, s: Client, i: nat, last: Option<Option<string>>): Poll
  {
    PollLoop(StatusReadOnce, Renewed, c, s, i, last)
  }

  /** One iteration of the polling loop: a failed read or a 'Completed' ends the polling with
      that read; any other read hands over to the next iteration, after the sleep. */
  lemma PollTry(c: Setup, s: Client, i: nat, last: Option<Option<string>>)
    requires i < c.numberOfTries
    ensures var p := StatusReadOnce(c, s);
            var whole := PollFrom(c, s, i, last);
            if p.status.Err? || p.status.value == Some(Completed) then
              whole.status == p.status && whole.client == p.client
            else
              var rest := PollFrom(c, Slept(p.client, i), i + 1, Some(p.status.value));
              whole.status == rest.status && whole.client == rest.client
  {
  }

  /** After the last iteration: the renewal, then the last status. */
  lemma PollGivesUp(c: Setup, s: Client, i: nat, last: Option<Option<string>>, o: Outcome<Error>, s1: Client)
    requires i >= c.numberOfTries && Renewed(c, s) == Moved(o, s1)
    ensures PollFrom(c, s, i, last).client == s1
    ensures PollFrom(c, s, i, last).status == if o.Fail? then Err(o.error)
                                             else if last.None? then Err(StatusUnbound) else Ok(last.value)
  {
  }

  /** Polling reads statuses, sleeps and renews the token, and touches nothing else. */
  lemma {:induction false} PollFrame(read: (Setup, Client) -> Read, renew: (Setup, Client) -> Moved,
                                     c: Setup, s: Client, i: nat, last: Option<Option<string>>)
    requires ReadStep(read) && RenewStep(renew)
    ensures var r := PollLoop(read, renew, c, s, i, last);
            PollWork(s, r.client) && r.client.statusCalls >= s.statusCalls + |r.seen|
    decreases c.numberOfTries - i
  {
    if i < c.numberOfTries {
      var Read(st, s1) := read(c, s);
      if st.Ok? && st.value != Some(Completed) {
        PollFrame(read, renew, c, Slept(s1, i), i + 1, Some(st.value));
      }
    }
  }

  /** At most one read per remaining try, and a status other than 'Completed' is returned only
      after all of them. */
  lemma {:induction false} PollLength(read: (Setup, Client) -> Read, renew: (Setup, Client) -> Moved,
                                      c: Setup, s: Client, i: nat, last: Option<Option<string>>)
    ensures var r := PollLoop(read, renew, c, s, i, last);
            && |r.seen| <= (if i <= c.numberOfTries then c.numberOfTries - i else 0)
            && (r.status.Ok? && r.status.value != Some(Completed) && i <= c.numberOfTries ==>
                  |r.seen| == c.numberOfTries - i)
    decreases c.numberOfTries - i
  {
    if i < c.numberOfTries {
      var Read(st, s1) := read(c, s);
      if st.Ok? && st.value != Some(Completed) {
        PollLength(read, renew, c, Slept(s1, i), i + 1, Some(st.value));
      }
    }
  }

  /** No status read before the last is 'Completed'. */
  predicate CompletedOnlyLast(seen: seq<Option<string>>)
  {
    |seen| <= 1 || (seen[0] != Some(Completed) && CompletedOnlyLast(seen[1..]))
  }

  /** `CompletedOnlyLast` says that no status but the last is 'Completed'. */
  lemma {:induction false} CompletedOnlyLastIff(seen: seq<Option<string>>)
    ensures CompletedOnlyLast(seen) <==> forall j :: 0 <= j < |seen| - 1 ==> seen[j] != Some(Completed)
  {
    if |seen| > 1 {
      CompletedOnlyLastIff(seen[1..]);
      assert forall j :: 1 <= j < |seen| ==> seen[1..][j - 1] == seen[j];
    }
  }

  /** The loop stops at the first 'Completed'. */
  lemma {:induction false} PollStops(read: (Setup, Client) -> Read, renew: (Setup, Client) -> Moved,
                                     c: Setup, s: Client, i: nat, last: Option<Option<string>>)
    ensures CompletedOnlyLast(PollLoop(read, renew, c, s, i, last).seen)
    decreases c.numberOfTries - i
  {
    if i < c.numberOfTries {
      var Read(st, s1) := read(c, s);
      if st.Ok? && st.value != Some(Completed) {
        PollStops(read, renew, c, Slept(s1, i), i + 1, Some(st.value));
        var seen := PollLoop(read, renew, c, Slept(s1, i), i + 1, Some(st.value)).seen;
        assert ([st.value] + seen)[1..] == seen;
      }
    }
  }

  /** The loop returns the last status read. */
  lemma {:induction false} PollReturnsLast(read: (Setup, Client) -> Read, renew: (Setup, Client) -> Moved,
                                           c: Setup, s: Client, i: nat, last: Option<Option<string>>)
    ensures var r := PollLoop(read, renew, c, s, i, last);
            r.status.Ok? && r.seen != [] ==> r.status.value == r.seen[|r.seen| - 1]
    decreases c.numberOfTries - i
  {
    if i < c.numberOfTries {
      var Read(st, s1) := read(c, s);
      if st.Ok? && st.value != Some(Completed) {
        PollReturnsLast(read, renew, c, Slept(s1, i), i + 1, Some(st.value));
        var seen := PollLoop(read, renew, c, Slept(s1, i), i + 1, Some(st.value)).seen;
        if seen != [] { assert ([st.value] + seen)[|seen|] == seen[|seen| - 1]; }
      }
    }
  }

  /** The seconds a loop started at iteration `i` sleeps over the trace `seen`: (j+1)*60 after
      the read of iteration j, unless it read 'Completed'. */
  function SleptOver(i: nat, seen: seq<Option<string>>): nat
    decreases |seen|
  {
    if seen == [] || seen[0] == Some(Completed) then 0 else (i + 1) * PollStep + SleptOver(i + 1, seen[1..])
  }

  /** Over a trace that stops at its first 'Completed', the sleeps are those of `Backoff`. */
  lemma {:induction false} SleptOverIsBackoff(i: nat, seen: seq<Option<string>>)
    requires CompletedOnlyLast(seen)
    ensures SleptOver(i, seen) == Backoff(i + Sleeps(seen)) - Backoff(i)
    decreases |seen|
  {
    if seen != [] && seen[0] != Some(Completed) {
      SleptOverIsBackoff(i + 1, seen[1..]);
      if |seen| > 1 { assert seen[1..][|seen| - 2] == seen[|seen| - 1]; }
      assert Sleeps(seen) == 1 + Sleeps(seen[1..]);
    }
  }

  /** Iteration j sleeps (j+1)*60 seconds after a status other than 'Completed'. */
  lemma {:induction false} PollSleeps(read: (Setup, Client) -> Read, renew: (Setup, Client) -> Moved,
                                      c: Setup, s: Client, i: nat, last: Option<Option<string>>)
    requires ReadStep(read) && RenewStep(renew)
    ensures var r := PollLoop(read, renew, c, s, i, last);
            r.status.Ok? ==> r.client.pollDelay == s.pollDelay + SleptOver(i, r.seen)
    decreases c.numberOfTries - i
  {
    if i < c.numberOfTries {
      var Read(st, s1) := read(c, s);
      if st.Ok? && st.value != Some(Completed) {
        PollSleeps(read, renew, c, Slept(s1, i), i + 1, Some(st.value));
        var seen := PollLoop(read, renew, c, Slept(s1, i), i + 1, Some(st.value)).seen;
        assert ([st.value] + seen)[1..] == seen;
      }
    }
  }

  /** A whole loop reads at most `number_of_tries` statuses, stops at the first 'Completed',
      returns the last status read, and returns another status only after all tries. */
  lemma PollTraceWhole(read: (Setup, Client) -> Read, renew: (Setup, Client) -> Moved, c: Setup, s: Client)
    ensures var r := PollLoop(read, renew, c, s, 0, None);
            && (|r.seen| <= c.numberOfTries || (r.seen == [] && c.numberOfTries < 0))
            && (forall j :: 0 <= j < |r.seen| - 1 ==> r.seen[j] != Some(Completed))
            && (r.status.Ok? ==> r.status.value == r.seen[|r.seen| - 1])
            && (r.status.Ok? && r.status.value != Some(Completed) ==> |r.seen| == c.numberOfTries)
  {
    PollLength(read, renew, c, s, 0, None);
    PollStops(read, renew, c, s, 0, None);
    PollReturnsLast(read, renew, c, s, 0, None);
    CompletedOnlyLastIff(PollLoop(read, renew, c, s, 0, None).seen);
  }

  /** A whole loop sleeps 60*(1+...+k) seconds over its k sleeps. */
  lemma PollBackoff(read: (Setup, Client) -> Read, renew: (Setup, Client) -> Moved, c: Setup, s: Client)
    requires ReadStep(read) && RenewStep(renew)
    ensures var r := PollLoop(read, renew, c, s, 0, None);
            r.status.Ok? ==> r.client.pollDelay == s.pollDelay + Backoff(Sleeps(r.seen))
  {
    PollSleeps(read, renew, c, s, 0, None);
    PollStops(read, renew, c, s, 0, None);
    SleptOverIsBackoff(0, PollLoop(read, renew, c, s, 0, None).seen);
  }

  /** Polling fails only by a token failure, a raising GET, or no iteration at all. */
  lemma {:induction false} PollErrors(read: (Setup, Client) -> Read, renew: (Setup, Client) -> Moved,
                                      c: Setup, s: Client, i: nat, last: Option<Option<string>>)
    requires ReadStep(read) && RenewStep(renew)
    ensures var r := PollLoop(read, renew, c, s, i, last);
            && (r.status.Err? ==> r.status.error in {TokenUnbound, RequestRaised, StatusUnbound})
            && (r.status == Err(StatusUnbound) ==> last.None? && r.seen == [] && c.numberOfTries <= i)
    decreases c.numberOfTries - i
  {
    if i < c.numberOfTries {
      var Read(st, s1) := read(c, s);
      if st.Ok? && st.value != Some(Completed) {
        PollErrors(read, renew, c, Slept(s1, i), i + 1, Some(st.value));
      }
    }
  }

  /** `power_bi_check_refresh_status`: at most `number_of_tries` iterations; 'Completed' is
      returned as soon as it is read, otherwise (i+1)*60 seconds of sleep follow the i-th read;
      after the last iteration the token is renewed when old and the last status is returned. */
  function Polled(c: Setup, s: Client): (r: Poll)
    ensures r.status.Ok? ==> r.seen != []
  {
    var Moved(o, s1) := TokenChecked(c, s);
    if o.Fail? then Poll(Err(o.error), s1, [])
    else PollFrom(c, s1, 0, None)
  }

  /** The whole poll: statuses, sleeps and token work only, at least one status call per read. */
  lemma PolledFrame(c: Setup, s: Client)
    ensures var r := Polled(c, s);
            PollWork(s, r.client) && r.client.statusCalls >= s.statusCalls + |r.seen|
  {
    var Moved(o, s1) := TokenChecked(c, s);
    if o.Pass? {
      ReadOnceIsReadStep();
      RenewedIsRenewStep();
      PollFrame(StatusReadOnce, Renewed, c, s1, 0, None);
    }
  }

  /** The whole poll returns 'Completed' as soon as it is read and otherwise the status of the
      last of `number_of_tries` reads. */
  lemma PolledTrace(c: Setup, s: Client)
    ensures var r := Polled(c, s);
            && (|r.seen| <= c.numberOfTries || (r.seen == [] && c.numberOfTries < 0))
            && (forall j :: 0 <= j < |r.seen| - 1 ==> r.seen[j] != Some(Completed))
            && (r.status.Ok? ==> r.status.value == r.seen[|r.seen| - 1])
            && (r.status.Ok? && r.status.value != Some(Completed) ==> |r.seen| == c.numberOfTries)
  {
    var Moved(o, s1) := TokenChecked(c, s);
    if o.Pass? {
      assert Polled(c, s) == PollLoop(StatusReadOnce, Renewed, c, s1, 0, None);
      PollTraceWhole(StatusReadOnce, Renewed, c, s1);
    }
  }

  /** The whole poll sleeps 60*(1+...+k) seconds over its k sleeps. */
  lemma PolledSleeps(c: Setup, s: Client)
    ensures var r := Polled(c, s);
            r.status.Ok? ==> r.client.pollDelay == s.pollDelay + Backoff(Sleeps(r.seen))
  {
    var Moved(o, s1) := TokenChecked(c, s);
    if o.Pass? {
      ReadOnceIsReadStep();
      RenewedIsRenewStep();
      PollBackoff(StatusReadOnce, Renewed, c, s1);
    }
  }

  /** The whole poll fails by a token failure, a raising GET, or, with no tries, an unbound status. */
  lemma PolledErrors(c: Setup, s: Client)
    ensures var r := Polled(c, s);
            && (r.status.Err? ==> r.status.error in {TokenUnbound, RequestRaised, StatusUnbound})
            && (r.status == Err(StatusUnbound) <==> c.numberOfTries <= 0 && r.status != Err(TokenUnbound))
  {
    var Moved(o, s1) := TokenChecked(c, s);
    if o.Pass? {
      ReadOnceIsReadStep();
      RenewedIsRenewStep();
      PollErrors(StatusReadOnce, Renewed, c, s1, 0, None);
    }
  }

  // ---------------------------------------------------------------- refresh POST

  /** One pass of the `try` block of `refresh_power_bi_dataset`: POST, and after a 401 a new
      `api_token` and a second POST. A token failure raises inside the `try` and ends the pass. */
  function PostPassed(c: Setup, s: Client): (r: Posted)
    ensures r.code == PassResult(r.pass)
    ensures r.pass.first == PostAt(c.posts, s.postCalls)
    ensures r.pass.first != PostResponse(Unauthorized) ==>
              !r.pass.reauthorized && r.client == s.(postCalls := s.postCalls + 1)
    ensures r.pass.first == PostResponse(Unauthorized) ==>
              var a := Acquire(c.tokens, s.tokenCalls);
              && (r.pass.reauthorized <==> a.token.Some?)
              && (r.pass.reauthorized ==> && r.pass.second == PostAt(c.posts, s.postCalls + 1)
                                          && r.client.postCalls == s.postCalls + 2
                                          && r.client.apiToken == a.token.value.0)
              && (!r.pass.reauthorized ==> r.client.postCalls == s.postCalls + 1)
    ensures r.client.tokenCalls >= s.tokenCalls && TimeIsSleep(s, r.client) && KeepsIds(s, r.client)
    ensures KeepsCounts(s, r.client) && r.client.statusCalls == s.statusCalls
    ensures r.client.postDelay == s.postDelay && r.client.pollDelay == s.pollDelay
  {
    var first := PostAt(c.posts, s.postCalls);
    var s1 := s.(postCalls := s.postCalls + 1);
    if first != PostResponse(Unauthorized) then
      Posted(if first.PostResponse? then Some(first.code) else None, PostPass(first, false, PostRaised), s1)
    else
      var Moved(o, s2) := Reauthorized(c, s1);
      if o.Fail? then Posted(None, PostPass(first, false, PostRaised), s2)
      else
        var second := PostAt(c.posts, s2.postCalls);
        Posted(if second.PostResponse? then Some(second.code) else None, PostPass(first, true, second),
               s2.(postCalls := s2.postCalls + 1))
  }

  /** Only refresh POSTs and token work happened between `s` and `t`. */
  predicate PostWork(s: Client, t: Client)
  {
    t.tokenCalls >= s.tokenCalls && t.postCalls >= s.postCalls && TimeIsSleep(s, t) && KeepsIds(s, t)
    && KeepsCounts(s, t) && t.statusCalls == s.statusCalls && t.pollDelay == s.pollDelay
  }

  /** The refresh loop from pass `i` on: 10 seconds of sleep after every pass; the first pass
      that does not raise gives the response. */
  function RetryFrom(c: Setup, s: Client, i: nat): Retried
    decreases RefreshAttempts - i
  {
    if i >= RefreshAttempts then Retried(None, s, [])
    else
      var Posted(code, pass, s1) := PostPassed(c, s);
      var s2 := Rested(s1);
      if code.Some? then Retried(code, s2, [pass])
      else
        var Retried(res, s3, passes) := RetryFrom(c, s2, i + 1);
        Retried(res, s3, [pass] + passes)
  }

  /** The refresh loop POSTs, sleeps 10 seconds after every pass and renews the token, and
      touches nothing else. */
  lemma {:induction false} RetryFrame(c: Setup, s: Client, i: nat)
    ensures var r := RetryFrom(c, s, i);
            && PostWork(s, r.client) && r.client.postCalls >= s.postCalls + |r.passes|
            && r.client.postDelay == s.postDelay + RefreshDelay * |r.passes|
    decreases RefreshAttempts - i
  {
    if i < RefreshAttempts {
      var Posted(code, pass, s1) := PostPassed(c, s);
      if code.None? {
        RetryFrame(c, Rested(s1), i + 1);
      }
    }
  }

  /** The refresh loop's response is that of the first pass that did not raise; every pass
      before the last raised; it runs all its passes only when every pass raised. */
  lemma {:induction false} RetryTrace(c: Setup, s: Client, i: nat)
    ensures var r := RetryFrom(c, s, i);
            && |r.passes| <= (if i <= RefreshAttempts then RefreshAttempts - i else 0)
            && r.code == RetryResult(r.passes)
            && AnsweredOnlyLast(r.passes)
            && (r.code.None? && i <= RefreshAttempts ==> |r.passes| == RefreshAttempts - i)
            && (r.passes != [] ==> r.passes[0] == PostPassed(c, s).pass)
    decreases RefreshAttempts - i
  {
    if i < RefreshAttempts {
      var Posted(code, pass, s1) := PostPassed(c, s);
      if code.None? {
        RetryTrace(c, Rested(s1), i + 1);
        var rest := RetryFrom(c, Rested(s1), i + 1).passes;
        assert ([pass] + rest)[1..] == rest;
      }
    }
  }

  /** The 10-second sleep after a refresh pass. */
  function Rested(s: Client): Client
  {
    s.(clock := s.clock + RefreshDelay, postDelay := s.postDelay + RefreshDelay)
  }

  /** One pass of the refresh loop: a response ends the loop after the sleep; no response
      hands over to the next pass, after the sleep. */
  lemma RetryStep(c: Setup, s: Client, i: nat)
    requires i < RefreshAttempts
    ensures var p := PostPassed(c, s);
            var rest := RetryFrom(c, Rested(p.client), i + 1);
            && RetryFrom(c, s, i).code == (if p.code.Some? then p.code else rest.code)
            && RetryFrom(c, s, i).client == (if p.code.Some? then Rested(p.client) else rest.client)
  {
  }

  /** `refresh_power_bi_dataset`: the refresh check, then at most five passes; after five
      raising passes the method falls off its end and returns None. */
  function Refreshed(c: Setup, s: Client): Refresh
  {
    var Moved(o, s1) := TokenChecked(c, s);
    if o.Fail? then Refresh(Err(o.error), s1, [])
    else
      var Retried(code, s2, passes) := RetryFrom(c, s1, 0);
      Refresh(Ok(code), s2, passes)
  }

  /** A refresh POSTs, sleeps and renews the token, and touches nothing else; it fails only when
      the refresh check finds no token, before any POST. */
  lemma RefreshedFrame(c: Setup, s: Client)
    ensures var r := Refreshed(c, s);
            && PostWork(s, r.client)
            && (r.code.Ok? ==> r.client.postDelay == s.postDelay + RefreshDelay * |r.passes|)
            && (r.code.Err? ==> r.code.error == TokenUnbound && r.client.postCalls == s.postCalls
                                && LastSixRaised(c.tokens, r.client.tokenCalls))
  {
    var Moved(o, s1) := TokenChecked(c, s);
    if o.Pass? {
      RetryFrame(c, s1, 0);
    }
  }

  /** A refresh that ran gives the response of the first of at most five passes that did not
      raise, and None only after five raising passes. */
  lemma RefreshedTrace(c: Setup, s: Client)
    ensures var r := Refreshed(c, s);
            && (r.code.Ok? ==> 1 <= |r.passes| <= RefreshAttempts && r.code.value == RetryResult(r.passes))
            && (r.code.Ok? ==> AnsweredOnlyLast(r.passes))
            && (r.code.Ok? && r.code.value.None? ==> |r.passes| == RefreshAttempts)
  {
    var Moved(o, s1) := TokenChecked(c, s);
    if o.Pass? {
      RetryTrace(c, s1, 0);
    }
  }

  /** Only refresh and token work happened between `s` and `t`. */
  predicate RefreshWork(s: Client, t: Client)
  {
    t.tokenCalls >= s.tokenCalls && t.postCalls >= s.postCalls && t.statusCalls >= s.statusCalls
    && TimeIsSleep(s, t) && KeepsIds(s, t) && KeepsCounts(s, t)
  }

  /** `trigger_and_check_refresh`: trigger the refresh, then poll; the refresh response code and
      the last status. Reading `.status_code` of a None response raises. */
  function Triggered(c: Setup, s: Client): Trigger
  {
    var Moved(o, s1) := TokenChecked(c, s);
    if o.Fail? then Trigger(Err(o.error), s1, [], [])
    else
      var Refresh(refresh, s2, passes) := Refreshed(c, s1);
      if refresh.Err? then Trigger(Err(refresh.error), s2, passes, [])
      else if refresh.value.None? then Trigger(Err(NoRefreshResponse), s2, passes, [])
      else
        var Poll(status, s3, seen) := Polled(c, s2);
        if status.Err? then Trigger(Err(status.error), s3, passes, seen)
        else Trigger(Ok((refresh.value.value, status.value)), s3, passes, seen)
  }

  /** A triggered refresh touches nothing but the refresh, polling and token state. */
  lemma TriggeredFrame(c: Setup, s: Client)
    ensures RefreshWork(s, Triggered(c, s).client)
  {
    var Moved(o, s1) := TokenChecked(c, s);
    if o.Pass? {
      var Refresh(refresh, s2, passes) := Refreshed(c, s1);
      RefreshedFrame(c, s1);
      assert TokenWork(s, s1) && PostWork(s1, s2);
      if refresh.Ok? && refresh.value.Some? {
        PolledFrame(c, s2);
        var s3 := Polled(c, s2).client;
        assert Triggered(c, s).client == s3;
        assert PollWork(s2, s3);
      }
    }
  }

  /** A triggered refresh reports the last status polled, 'Completed' as soon as it is read and
      otherwise only after all tries. */
  lemma TriggeredTrace(c: Setup, s: Client)
    ensures var r := Triggered(c, s);
            && (r.result.Ok? ==> r.seen != [] && r.result.value.1 == r.seen[|r.seen| - 1] && |r.seen| <= c.numberOfTries)
            && (r.result.Ok? ==> forall j :: 0 <= j < |r.seen| - 1 ==> r.seen[j] != Some(Completed))
            && (r.result.Ok? && r.result.value.1 != Some(Completed) ==> |r.seen| == c.numberOfTries)
  {
    var Moved(o, s1) := TokenChecked(c, s);
    if o.Pass? {
      var Refresh(refresh, s2, passes) := Refreshed(c, s1);
      if refresh.Ok? && refresh.value.Some? {
        PolledTrace(c, s2);
      }
    }
  }

  /** A triggered refresh fails by a token failure, five raising POSTs, a raising status GET or
      an unbound status. */
  lemma TriggeredErrors(c: Setup, s: Client)
    ensures var r := Triggered(c, s);
            && (r.result.Err? ==> r.result.error in {TokenUnbound, NoRefreshResponse, RequestRaised, StatusUnbound})
            && (r.result == Err(NoRefreshResponse) ==> |r.passes| == RefreshAttempts && RetryResult(r.passes).None?)
  {
    var Moved(o, s1) := TokenChecked(c, s);
    if o.Pass? {
      var Refresh(refresh, s2, passes) := Refreshed(c, s1);
      RefreshedFrame(c, s1);
      RefreshedTrace(c, s1);
      if refresh.Ok? && refresh.value.Some? {
        PolledErrors(c, s2);
      }
    }
  }

  /** A triggered refresh that succeeds reports the response of the first refresh pass that did
      not raise. */
  lemma TriggeredResponse(c: Setup, s: Client)
    ensures var r := Triggered(c, s);
            r.result.Ok? ==> RetryResult(r.passes) == Some(r.result.value.0) && 1 <= |r.passes| <= RefreshAttempts
  {
    var Moved(o, s1) := TokenChecked(c, s);
    if o.Pass? {
      RefreshedTrace(c, s1);
    }
  }
}
