/**
 * `check_and_wait_for_running_flow_runs` (bi_modules/check_flow_runs.py:5-26): build the
 * deployment and flow filters, then read the deployment's flow runs again and again, sleeping
 * `check_interval_minutes` between reads, until a read finds none in state RUNNING.
 * The Prefect client is an oracle: `responses[k]` is what the k-th read returns. The loop has no
 * bound of its own, so a run of the model can also end because the oracle ran out.
 */
module FlowRuns {
  import opened Wrappers
  import Text

  const RunningState := "RUNNING"
  const SecondsPerMinute := 60

  datatype FlowRun = FlowRun(id: string, stateType: string)

  /** `DeploymentFilterName(any_=...)` and `FlowFilterName(any_=...)`, or no flow name filter. */
  datatype Filters = Filters(deploymentNames: seq<string>, flowNames: Option<seq<string>>)

  /** Lines 6-12: a None or empty flow name filters on no flow name. */
  function MakeFilters(deploymentName: string, flowName: Option<string>): (f: Filters)
    ensures f.deploymentNames == [deploymentName]
    ensures f.flowNames.None? <==> flowName.None? || flowName == Some("")
    ensures f.flowNames.Some? ==> f.flowNames.value == [flowName.value]
  {
    var names := match flowName
      case None => None
      case Some(n) => if n == "" then None else Some([n]);
    Filters([deploymentName], names)
  }

  /** Line 19: the runs in state RUNNING, in response order. */
  function Running(response: seq<FlowRun>): (r: seq<FlowRun>)
    ensures |r| <= |response|
    ensures forall x :: x in r <==> x in response && x.stateType == RunningState
  {
    if response == [] then []
    else (if response[0].stateType == RunningState then [response[0]] else []) + Running(response[1..])
  }

  /** Filtering distributes over concatenation, so the filter keeps the response's order. */
  lemma {:induction false} RunningAppend(a: seq<FlowRun>, b: seq<FlowRun>)
    ensures Running(a + b) == Running(a) + Running(b)
  {
    if a != [] {
      assert (a + b)[1..] == a[1..] + b;
      RunningAppend(a[1..], b);
    } else {
      assert a + b == b;
    }
  }

  /** Filtering twice changes nothing. */
  lemma {:induction false} RunningIdempotent(response: seq<FlowRun>)
    ensures Running(Running(response)) == Running(response)
  {
    if response != [] {
      var head := if response[0].stateType == RunningState then [response[0]] else [];
      RunningAppend(head, Running(response[1..]));
      RunningIdempotent(response[1..]);
    }
  }

  /** A read that lets the loop exit. */
  predicate Idle(response: seq<FlowRun>)
  {
    Running(response) == []
  }

  /** The index of the first read that finds nothing running. */
  function FirstIdle(responses: seq<seq<FlowRun>>): (r: Option<nat>)
    ensures r.Some? ==> r.value < |responses| && Idle(responses[r.value])
    ensures r.Some? ==> forall k :: 0 <= k < r.value ==> !Idle(responses[k])
    ensures r.None? ==> forall k :: 0 <= k < |responses| ==> !Idle(responses[k])
  {
    Text.FirstMatch(responses, Idle)
  }

  /** How the wait ends: it proceeds after `sleeps` waits, `time.sleep` rejects a negative
      interval, or every read the oracle holds still found running runs. */
  datatype WaitOutcome = Proceeded(sleeps: nat) | SleepRejected | OracleExhausted

  /** Lines 14-26. `waited` counts the seconds slept. */
  method WaitForIdle(responses: seq<seq<FlowRun>>, checkIntervalMinutes: int) returns (outcome: WaitOutcome, ghost waited: int)
    ensures outcome.Proceeded? ==> FirstIdle(responses) == Some(outcome.sleeps)
    ensures outcome.Proceeded? ==> waited == outcome.sleeps * (checkIntervalMinutes * SecondsPerMinute)
    ensures outcome.Proceeded? && outcome.sleeps > 0 ==> checkIntervalMinutes >= 0
    ensures outcome.SleepRejected? <==> checkIntervalMinutes < 0 && |responses| > 0 && !Idle(responses[0])
    ensures outcome.OracleExhausted? ==> FirstIdle(responses).None?
    ensures outcome.OracleExhausted? ==> waited == |responses| * (checkIntervalMinutes * SecondsPerMinute)
    ensures FirstIdle(responses).Some? && checkIntervalMinutes >= 0 ==> outcome.Proceeded?
  {
    var k := 0;
    waited := 0;
    while k < |responses|
      invariant 0 <= k <= |responses|
      invariant forall j :: 0 <= j < k ==> !Idle(responses[j])
      invariant k > 0 ==> checkIntervalMinutes >= 0
      invariant waited == k * (checkIntervalMinutes * SecondsPerMinute)
    {
      var runningFlowRuns := Running(responses[k]);
      if runningFlowRuns != [] {
        if checkIntervalMinutes * SecondsPerMinute < 0 {
          return SleepRejected, waited;
        }
        waited := waited + checkIntervalMinutes * SecondsPerMinute;
        k := k + 1;
      } else {
        return Proceeded(k), waited;
      }
    }
    outcome := OracleExhausted;
  }

  /** No bound: as long as every read finds a running run, however many reads there are, the
      loop neither proceeds nor stops waiting on its own. */
  lemma AlwaysRunningNeverProceeds(responses: seq<seq<FlowRun>>, run: FlowRun)
    requires forall k :: 0 <= k < |responses| ==> run in responses[k] && run.stateType == RunningState
    ensures FirstIdle(responses).None?
  {
    forall k | 0 <= k < |responses| ensures !Idle(responses[k]) {
      assert run in Running(responses[k]);
    }
  }
}
