/**
 * The stateful Power BI client `PowerBiRefresh` (bi_modules/bi_pbi.py:37-301, copied
 * at bi_modules/bi_modules.py:81-352). Every endpoint is an oracle: the n-th call of an
 * endpoint answers element n of that endpoint's reply sequence and bumps its call counter.
 * `clock` stands for `datetime.now()` in seconds and advances only by the modelled sleeps,
 * which are also summed, per sleep site, in ghost delay counters. Each method moves the
 * object's fields exactly as the function of module PbiSession it names moves a `Client`.
 */
module PbiClient {
  import opened Wrappers
  import opened PbiSpec
  import opened PbiSession

  class PowerBiRefresh {
    const reportName: string
    const groupName: string
    const numberOfTries: int

    const tokens: seq<TokenReply>
    const groupReplies: seq<ListReply<Group>>
    const datasetReplies: seq<ListReply<Dataset>>
    const reportReplies: seq<ListReply<Report>>
    const posts: seq<PostReply>
    const statuses: seq<StatusReply>

    var tokenCalls: nat
    var groupsCalls: nat
    var datasetsCalls: nat
    var reportsCalls: nat
    var postCalls: nat
    var statusCalls: nat

    var clock: int

    var apiToken: string
    var startTime: int
    var expiresIn: int
    var groupId: Option<string>
    var datasetId: Option<string>
    var reportId: Option<string>
    var reportUrl: Option<string>

    ghost var tokenDelay: nat
    ghost var postDelay: nat
    ghost var pollDelay: nat

    /** The object's arguments and its endpoints' answers. */
    function Config(): Setup
    {
      Setup(reportName, groupName, numberOfTries, tokens, groupReplies, datasetReplies, reportReplies, posts, statuses)
    }

    /** The object's fields. */
    ghost function State(): Client
      reads this
    {
      Client(tokenCalls, groupsCalls, datasetsCalls, reportsCalls, postCalls, statusCalls, clock,
             apiToken, startTime, expiresIn, groupId, datasetId, reportId, reportUrl,
             tokenDelay, postDelay, pollDelay)
    }

    /** The object before `__init__` has made any call. */
    constructor (reportName: string, groupName: string, numberOfTries: int, now: int,
                 tokens: seq<TokenReply>, groupReplies: seq<ListReply<Group>>,
                 datasetReplies: seq<ListReply<Dataset>>, reportReplies: seq<ListReply<Report>>,
                 posts: seq<PostReply>, statuses: seq<StatusReply>)
      ensures Config() == Setup(reportName, groupName, numberOfTries, tokens, groupReplies, datasetReplies,
                                reportReplies, posts, statuses)
      ensures State() == Client(0, 0, 0, 0, 0, 0, now, "", now, 0, None, None, None, None, 0, 0, 0)
    {
      this.reportName, this.groupName, this.numberOfTries := reportName, groupName, numberOfTries;
      this.tokens, this.groupReplies, this.datasetReplies := tokens, groupReplies, datasetReplies;
      this.reportReplies, this.posts, this.statuses := reportReplies, posts, statuses;
      tokenCalls, groupsCalls, datasetsCalls, reportsCalls, postCalls, statusCalls := 0, 0, 0, 0, 0, 0;
      clock := now;
      apiToken, startTime, expiresIn := "", now, 0;
      groupId, datasetId, reportId, reportUrl := None, None, None, None;
      tokenDelay, postDelay, pollDelay := 0, 0, 0;
    }

    /** `get_power_bi_access_token`: up to six POSTs to the token endpoint, 60 seconds apart;
        returns the header value, the time it was obtained and its lifetime. */
    method GetPowerBiAccessToken() returns (r: Result<(string, int, int), Error>)
      modifies this
      ensures Granting(r, State()) == AccessToken(Config(), old(State()))
    {
      var from := tokenCalls;
      ghost var s0 := State();
      ghost var a := Acquire(tokens, from);
      var increment := 0;
      while increment <= 5
        invariant 0 <= increment <= MaxTokenAttempts
        invariant State() == s0.(tokenCalls := from + increment, clock := s0.clock + 60 * increment,
                                 tokenDelay := s0.tokenDelay + 60 * increment)
        invariant AcquireFrom(tokens, from, increment) == a
      {
        var reply := TokenAt(tokens, tokenCalls);
        tokenCalls := tokenCalls + 1;
        if reply.Granted? {
          assert a == Acquisition(increment + 1, Some((BearerPrefix + reply.accessToken, reply.expiresIn)));
          assert AcquireDelay(a) == 60 * increment;
          return Ok((BearerPrefix + reply.accessToken, clock, reply.expiresIn));
        }
        assert AcquireFrom(tokens, from, increment + 1) == a;
        clock := clock + TokenRetryDelay;
        tokenDelay := tokenDelay + TokenRetryDelay;
        increment := increment + 1;
      }
      assert a == Acquisition(MaxTokenAttempts, None);
      assert AcquireDelay(a) == 60 * MaxTokenAttempts;
      r := Err(TokenUnbound);
    }

    /** `self.api_token, _, _ = self.get_power_bi_access_token()`: only the header value is replaced. */
    method Reauthorize() returns (r: Outcome<Error>)
      modifies this
      ensures Moved(r, State()) == Reauthorized(Config(), old(State()))
    {
      var t := GetPowerBiAccessToken();
      if t.Err? {
        return Fail(t.error);
      }
      apiToken := t.value.0;
      r := Pass;
    }

    /** `check_token_refresh`: a new token, start time and lifetime when the token is within
        60 seconds of expiry. */
    method CheckTokenRefresh() returns (r: Outcome<Error>)
      modifies this
      ensures Moved(r, State()) == TokenChecked(Config(), old(State()))
    {
      if NeedsTokenRefresh(clock - startTime, expiresIn) {
        var t := GetPowerBiAccessToken();
        if t.Err? {
          return Fail(t.error);
        }
        apiToken, startTime, expiresIn := t.value.0, t.value.1, t.value.2;
      }
      r := Pass;
    }

    /** GET the group list, and once more with a new `api_token` after a 401. */
    method FetchGroups() returns (r: Outcome<Error>, reply: ListReply<Group>)
      modifies this
      ensures var f := Fetch(Config(), groupReplies, old(groupsCalls), old(State()));
              r == f.outcome && reply == f.reply && State() == f.client.(groupsCalls := f.calls)
    {
      reply := ListAt(groupReplies, groupsCalls);
      groupsCalls := groupsCalls + 1;
      r := Pass;
      if reply.code == Unauthorized {
        r := Reauthorize();
        if r.Pass? {
          reply := ListAt(groupReplies, groupsCalls);
          groupsCalls := groupsCalls + 1;
        }
      }
    }

    /** `get_group_id`: after the refresh check it acquires a token of its own (the header of the
        first GET, not stored),
        GETs the groups and looks the group up by case-insensitive name. */
    method GetGroupId() returns (r: Result<Option<string>, Error>, reply: ListReply<Group>)
      modifies this
      ensures Looked(r, reply, State()) == GroupIdLookup(Config(), old(State()))
    {
      reply := ListReply(0, [], None);
      var o := CheckTokenRefresh();
      if o.Fail? {
        return Err(o.error), reply;
      }
      var local := GetPowerBiAccessToken();
      if local.Err? {
        return Err(local.error), reply;
      }
      o, reply := FetchGroups();
      if o.Fail? {
        return Err(o.error), reply;
      }
      if reply.value.None? {
        return Err(MalformedBody), reply;
      }
      r := Ok(FindGroupId(reply.value.value, groupName));
    }

    /** GET the group's datasets, and once more with a new `api_token` after a 401. */
    method FetchDatasets() returns (r: Outcome<Error>, reply: ListReply<Dataset>)
      modifies this
      ensures var f := Fetch(Config(), datasetReplies, old(datasetsCalls), old(State()));
              r == f.outcome && reply == f.reply && State() == f.client.(datasetsCalls := f.calls)
    {
      reply := ListAt(datasetReplies, datasetsCalls);
      datasetsCalls := datasetsCalls + 1;
      r := Pass;
      if reply.code == Unauthorized {
        r := Reauthorize();
        if r.Pass? {
          reply := ListAt(datasetReplies, datasetsCalls);
          datasetsCalls := datasetsCalls + 1;
        }
      }
    }

    /** `get_dataset_id`: GET the group's datasets and look the report name up exactly. */
    method GetDatasetId() returns (r: Result<Option<string>, Error>, reply: ListReply<Dataset>)
      modifies this
      ensures Looked(r, reply, State()) == DatasetIdLookup(Config(), old(State()))
    {
      reply := ListReply(0, [], None);
      var o := CheckTokenRefresh();
      if o.Fail? {
        return Err(o.error), reply;
      }
      o, reply := FetchDatasets();
      if o.Fail? {
        return Err(o.error), reply;
      }
      if reply.value.None? {
        return Err(MalformedBody), reply;
      }
      r := Ok(FindDatasetId(reply.value.value, reportName));
    }

    /** GET the group's reports, and once more with a new `api_token` after a 401. */
    method FetchReports() returns (r: Outcome<Error>, reply: ListReply<Report>)
      modifies this
      ensures var f := Fetch(Config(), reportReplies, old(reportsCalls), old(State()));
              r == f.outcome && reply == f.reply && State() == f.client.(reportsCalls := f.calls)
    {
      reply := ListAt(reportReplies, reportsCalls);
      reportsCalls := reportsCalls + 1;
      r := Pass;
      if reply.code == Unauthorized {
        r := Reauthorize();
        if r.Pass? {
          reply := ListAt(reportReplies, reportsCalls);
          reportsCalls := reportsCalls + 1;
        }
      }
    }

    /** `get_report_id`: GET the group's reports and pick the first report of the dataset. */
    method GetReportId() returns (r: Result<Option<(string, string)>, Error>, reply: ListReply<Report>)
      modifies this
      ensures Looked(r, reply, State()) == ReportIdLookup(Config(), old(State()))
    {
      reply := ListReply(0, [], None);
      var o := CheckTokenRefresh();
      if o.Fail? {
        return Err(o.error), reply;
      }
      o, reply := FetchReports();
      if o.Fail? {
        return Err(o.error), reply;
      }
      r := Ok(ReportLookup(reply, datasetId));
    }

    /** `__init__` after the three plain assignments: a token, then the lookups. */
    method Start() returns (r: Outcome<Error>)
      modifies this
      ensures Moved(r, State()) == Started(Config(), old(State()))
    {
      ghost var s0 := State();
      var t := GetPowerBiAccessToken();
      if t.Err? {
        return Fail(t.error);
      }
      apiToken, startTime, expiresIn := t.value.0, t.value.1, t.value.2;
      assert State() == AccessToken(Config(), s0).client.(apiToken := t.value.0, startTime := t.value.1, expiresIn := t.value.2);
      r := LookUpIds();
    }

    /** The rest of `__init__`: group, dataset, then the report, whose None result fails the
        two-name unpacking; each id is stored as soon as it is known. */
    method LookUpIds() returns (r: Outcome<Error>)
      modifies this
      ensures Moved(r, State()) == IdsLookedUp(Config(), old(State()))
    {
      ghost var s0 := State();
      r := LookUpGroupAndDataset();
      if r.Fail? {
        IdsStopEarly(Config(), s0, r.error, State());
        return;
      }
      ghost var s1 := State();
      var rep, reply := GetReportId();
      IdsAfterDataset(Config(), s0, s1, rep, reply, State());
      if rep.Err? {
        return Fail(rep.error);
      }
      if rep.value.None? {
        return Fail(ReportLookupFailed);
      }
      reportId, reportUrl := Some(rep.value.value.0), Some(rep.value.value.1);
    }

    /** The group and dataset steps of `__init__`. */
    method LookUpGroupAndDataset() returns (r: Outcome<Error>)
      modifies this
      ensures Moved(r, State()) == GroupAndDatasetLookedUp(Config(), old(State()))
    {
      var g, _ := GetGroupId();
      if g.Err? {
        return Fail(g.error);
      }
      groupId := g.value;
      var d, _ := GetDatasetId();
      if d.Err? {
        return Fail(d.error);
      }
      datasetId := d.value;
      r := Pass;
    }

    /** `power_bi_dataset_refresh_status`: the status of the latest refresh, None after a 401. */
    method RefreshStatus() returns (r: Result<Option<string>, Error>)
      modifies this
      ensures Read(r, State()) == StatusRead(Config(), old(State()))
    {
      var o := CheckTokenRefresh();
      if o.Fail? {
        return Err(o.error);
      }
      var reply := StatusAt(statuses, statusCalls);
      statusCalls := statusCalls + 1;
      match reply
      case StatusUnauthorized => r := Ok(None);
      case StatusOk(st) => r := Ok(Some(st));
      case StatusRaised => r := Err(RequestRaised);
    }

    /** One iteration's status read of `power_bi_check_refresh_status`: after a None (401) it
        re-acquires `api_token` and reads once more. */
    method ReadStatusOnce() returns (r: Result<Option<string>, Error>)
      modifies this
      ensures Read(r, State()) == StatusReadOnce(Config(), old(State()))
    {
      r := RefreshStatus();
      if r == Ok(None) {
        var o := Reauthorize();
        if o.Fail? {
          return Err(o.error);
        }
        r := RefreshStatus();
      }
    }

    /** `power_bi_check_refresh_status`: at most `number_of_tries` iterations; returns 'Completed'
        as soon as it is seen, else sleeps (i+1)*60 seconds after the i-th status; after giving up
        it renews `api_token` when the token is over an hour old, and returns the last status. */
    method CheckRefreshStatus() returns (r: Result<Option<string>, Error>)
      modifies this
      ensures var p := Polled(Config(), old(State())); r == p.status && State() == p.client
    {
      var o := CheckTokenRefresh();
      if o.Fail? {
        return Err(o.error);
      }
      r := PollTries();
    }

    /** The loop of `power_bi_check_refresh_status` and what follows it. */
    method PollTries() returns (r: Result<Option<string>, Error>)
      modifies this
      ensures var p := PollFrom(Config(), old(State()), 0, None); r == p.status && State() == p.client
    {
      ghost var whole := PollFrom(Config(), State(), 0, None);
      var i := 0;
      var status: Option<Option<string>> := None;
      while i < numberOfTries
        invariant 0 <= i
        invariant var rest := PollFrom(Config(), State(), i, status);
                  whole.status == rest.status && whole.client == rest.client
        decreases numberOfTries - i
      {
        ghost var before := State();
        var st := ReadAndSleep(i);
        PollTry(Config(), before, i, status);
        if st.Err? || st.value == Some(Completed) {
          return st;
        }
        status := Some(st.value);
        i := i + 1;
      }
      ghost var before := State();
      var o := RenewIfOld();
      PollGivesUp(Config(), before, i, status, o, State());
      if o.Fail? {
        return Err(o.error);
      }
      if status.None? {
        return Err(StatusUnbound);
      }
      r := Ok(status.value);
    }

    /** One iteration of the polling loop: the read, then, unless it ends the loop, the sleep. */
    method ReadAndSleep(i: nat) returns (st: Result<Option<string>, Error>)
      modifies this
      ensures var p := StatusReadOnce(Config(), old(State()));
              && st == p.status
              && State() == if st.Err? || st.value == Some(Completed) then p.client else Slept(p.client, i)
    {
      st := ReadStatusOnce();
      if st.Ok? && st.value != Some(Completed) {
        clock, pollDelay := clock + (i + 1) * PollStep, pollDelay + (i + 1) * PollStep;
      }
    }

    /** The end of `power_bi_check_refresh_status`: a new `api_token` when the token is over an hour old. */
    method RenewIfOld() returns (r: Outcome<Error>)
      modifies this
      ensures Moved(r, State()) == Renewed(Config(), old(State()))
    {
      r := Pass;
      if TimedeltaSeconds(clock - startTime) > TokenMaxAge {
        r := Reauthorize();
      }
    }

    /** One pass of the `try` block of `refresh_power_bi_dataset`: POST, and after a 401 a new
        `api_token` and a second POST. A token failure raises inside the `try` and so ends the pass. */
    method PostOnce() returns (code: Option<int>)
      modifies this
      ensures var p := PostPassed(Config(), old(State())); code == p.code && State() == p.client
    {
      var first := PostAt(posts, postCalls);
      postCalls := postCalls + 1;
      code := if first.PostResponse? then Some(first.code) else None;
      if first == PostResponse(Unauthorized) {
        var o := Reauthorize();
        code := None;
        if o.Pass? {
          var second := PostAt(posts, postCalls);
          postCalls := postCalls + 1;
          code := if second.PostResponse? then Some(second.code) else None;
        }
      }
    }

    /** `refresh_power_bi_dataset`: at most five passes, 10 seconds of sleep after each; the first
        pass that does not raise gives the response; after five raising passes, None. */
    method RefreshPowerBiDataset() returns (r: Result<Option<int>, Error>)
      modifies this
      ensures var f := Refreshed(Config(), old(State())); r == f.code && State() == f.client
    {
      var o := CheckTokenRefresh();
      if o.Fail? {
        return Err(o.error);
      }
      var code := PostPasses();
      r := Ok(code);
    }

    /** The loop of `refresh_power_bi_dataset`. */
    method PostPasses() returns (r: Option<int>)
      modifies this
      ensures var f := RetryFrom(Config(), old(State()), 0); r == f.code && State() == f.client
    {
      ghost var whole := RetryFrom(Config(), State(), 0);
      var i := 0;
      while i < RefreshAttempts
        invariant 0 <= i <= RefreshAttempts
        invariant var rest := RetryFrom(Config(), State(), i);
                  whole.code == rest.code && whole.client == rest.client
      {
        ghost var before := State();
        var code := PostAndRest();
        RetryStep(Config(), before, i);
        if code.Some? {
          return code;
        }
        i := i + 1;
      }
      r := None;
    }

    /** One pass of the refresh loop: the POST, then the 10-second sleep. */
    method PostAndRest() returns (code: Option<int>)
      modifies this
      ensures var p := PostPassed(Config(), old(State())); code == p.code && State() == Rested(p.client)
    {
      code := PostOnce();
      clock, postDelay := clock + RefreshDelay, postDelay + RefreshDelay;
    }

    /** `trigger_and_check_refresh`: trigger the refresh, then poll its status; returns the
        refresh response code and the last status. A refresh that never got a response fails
        when its status code is read. */
    method TriggerAndCheckRefresh() returns (r: Result<(int, Option<string>), Error>)
      modifies this
      ensures var t := Triggered(Config(), old(State())); r == t.result && State() == t.client
    {
      var o := CheckTokenRefresh();
      if o.Fail? {
        return Err(o.error);
      }
      var refresh := RefreshPowerBiDataset();
      if refresh.Err? {
        return Err(refresh.error);
      }
      if refresh.value.None? {
        return Err(NoRefreshResponse);
      }
      var status := CheckRefreshStatus();
      if status.Err? {
        return Err(status.error);
      }
      r := Ok((refresh.value.value, status.value));
    }

    /** `pbi_refresh`: the same steps as `trigger_and_check_refresh` (they differ only in what they
        print); it returns nothing, so only its failures are visible. */
    method PbiRefresh() returns (r: Outcome<Error>)
      modifies this
      ensures var t := Triggered(Config(), old(State()));
              State() == t.client && (r.Pass? <==> t.result.Ok?) && (r.Fail? ==> r.error == t.result.error)
    {
      var t := TriggerAndCheckRefresh();
      r := if t.Ok? then Pass else Fail(t.error);
    }
  }
}
