/** The sequential executor `RunTests`: one engine run
    per payload, in order, advancing only while runs complete without error. */
module Executor {
  import opened Basics
  import opened Paths
  import opened Engine

  /** Key under which this command passes the school name to each run. */
  const RuntimeVariableKey: string := "school_name"

  /** The engine options for one payload. */
  function RunTestsCall(p: Payload): (c: EngineCall)
    ensures c.iterationData == p.dataPath
    ensures c.envVarKey == "school_name" && c.envVarValue == p.schoolName
  {
    RunOptions(p, RuntimeVariableKey)
  }

  /** What one run is given: the collection and environment paths after their
      suffix rules, the data path unchanged, the school name under `school_name`. */
  lemma RunTestsCallPaths(p: Payload)
    ensures EndsWith(RunTestsCall(p).collection, CollectionSuffix)
    ensures EndsWith(RunTestsCall(p).environment, EnvironmentSuffix)
    ensures RunTestsCall(p).collection == WithSuffix(p.collectionPath, CollectionSuffix)
    ensures RunTestsCall(p).environment == WithSuffix(p.environmentPath, EnvironmentSuffix)
    ensures RunTestsCall(p).reporters == CliReporter
  {
    RunOptionsPaths(p, RuntimeVariableKey);
  }

  /** Index of the first failed outcome at or after `from`, or `|outcomes|` when
      every one of them succeeded. */
  function FirstFailure(outcomes: seq<Outcome>, from: nat): (k: nat)
    requires from <= |outcomes|
    ensures from <= k <= |outcomes|
    ensures forall i :: from <= i < k ==> !outcomes[i].Failed()
    ensures k < |outcomes| ==> outcomes[k].Failed()
    decreases |outcomes| - from
  {
    if from == |outcomes| then from
    else if outcomes[from].Failed() then from
    else FirstFailure(outcomes, from + 1)
  }

  /** How a chain of runs ends: its terminal value, the payloads it handed to
      the engine (one run each, in order) and the error it logged. */
  datatype ChainEnd = ChainEnd(code: int, runs: seq<Payload>, reported: Option<string>)

  /** The chain started at `index`, step by step as the completion callbacks
      drive it: a run per index, stopping with 1 on either kind of error and
      ending with 0 past the last payload. */
  function Chain(payloads: seq<Payload>, outcomes: seq<Outcome>, index: nat): (end: ChainEnd)
    requires |outcomes| == |payloads| && index <= |payloads|
    ensures end.code == 0 || end.code == 1
    decreases |payloads| - index
  {
    if index >= |payloads| then ChainEnd(0, [], None)
    else
      var payload := payloads[index];
      var outcome := outcomes[index];
      if outcome.error.Some? then ChainEnd(1, [payload], outcome.error)
      else if outcome.summaryError.Some? then ChainEnd(1, [payload], outcome.summaryError)
      else
        var rest := Chain(payloads, outcomes, index + 1);
        ChainEnd(rest.code, [payload] + rest.runs, rest.reported)
  }

  /** Number of engine runs a chain from `index` makes: up to and including the
      first failing one, or all remaining ones when none fails. */
  function RunCount(outcomes: seq<Outcome>, index: nat): (n: nat)
    requires index <= |outcomes|
    ensures index <= n <= |outcomes|
    ensures index < |outcomes| ==> index < n
    ensures n > index ==> (n == |outcomes| || outcomes[n - 1].Failed())
    ensures forall i :: index <= i < n - 1 ==> !outcomes[i].Failed()
  {
    var k := FirstFailure(outcomes, index);
    if k < |outcomes| then k + 1 else |outcomes|
  }

  /** The chain from `index` stops right after the first failure, with 1 and the
      failure's logged error, or runs every remaining payload and ends with 0. */
  lemma {:induction false} ChainClosedForm(payloads: seq<Payload>, outcomes: seq<Outcome>, index: nat)
    requires |outcomes| == |payloads| && index <= |payloads|
    ensures var k := FirstFailure(outcomes, index);
      Chain(payloads, outcomes, index) ==
        if k < |payloads| then ChainEnd(1, payloads[index..k + 1], outcomes[k].Reported())
        else ChainEnd(0, payloads[index..], None)
    decreases |payloads| - index
  {
    if index < |payloads| && !outcomes[index].Failed() {
      ChainClosedForm(payloads, outcomes, index + 1);
      var m := RunCount(outcomes, index);
      assert payloads[index..m] == [payloads[index]] + payloads[index + 1..m];
    }
  }

  /** The executor over a fixed list of payloads. */
  class RunTests {
    /** The payloads, in run order; never changed after construction. */
    const payloads: seq<Payload>

    constructor (payloads: seq<Payload>)
      ensures this.payloads == payloads
    {
      this.payloads := payloads;
    }

    /** Runs the payloads in order against an engine whose i-th run completes
        with `outcomes[i]`, returning the chain's terminal value, the payloads
        handed to the engine (run i is given `RunTestsCall(runs[i])`) and the
        logged error. An empty list gives -1 and no run; otherwise the chain
        stops with 1 at the first run whose callback reports a hard error or a
        summary error, and ends with 0 when every run completed cleanly. */
    method Start(outcomes: seq<Outcome>) returns (code: int, runs: seq<Payload>, reported: Option<string>)
      requires |outcomes| == |payloads|
      ensures |payloads| == 0 ==> code == -1 && runs == [] && reported == None
      ensures |payloads| > 0 ==>
        var k := FirstFailure(outcomes, 0);
        && (code == 1 <==> k < |payloads|)
        && (code == 0 <==> k == |payloads|)
        && runs == payloads[..RunCount(outcomes, 0)]
        && reported == (if k < |payloads| then outcomes[k].Reported() else None)
    {
      if |payloads| == 0 {
        return -1, [], None;
      }
      runs := [];
      var index := 0;
      while index < |payloads|
        invariant index <= FirstFailure(outcomes, 0)
        invariant runs == payloads[..index]
      {
        runs := runs + [payloads[index]];
        var outcome := outcomes[index];
        if outcome.error.Some? {
          return 1, runs, outcome.error;
        }
        if outcome.summaryError.Some? {
          return 1, runs, outcome.summaryError;
        }
        index := index + 1;
      }
      return 0, runs, None;
    }
  }

  /** A summary-level error halts the chain exactly where a hard error at the
      same step would: only whether a run failed decides how far the chain gets. */
  lemma SummaryErrorHaltsLikeHardError(outcomes: seq<Outcome>, failing: seq<Outcome>, index: nat)
    requires |outcomes| == |failing| && index <= |outcomes|
    requires forall i :: 0 <= i < |outcomes| ==> (outcomes[i].Failed() <==> failing[i].Failed())
    ensures FirstFailure(outcomes, index) == FirstFailure(failing, index)
    ensures RunCount(outcomes, index) == RunCount(failing, index)
  {
  }

  /** Step 2 of 6 failing, by either kind of error, stops the chain with 1
      after two runs: step 3 is never attempted. */
  lemma SecondStepFailureStops(payloads: seq<Payload>, outcomes: seq<Outcome>)
    requires |payloads| == 6 && |outcomes| == 6
    requires !outcomes[0].Failed() && outcomes[1].Failed()
    ensures Chain(payloads, outcomes, 0).code == 1
    ensures Chain(payloads, outcomes, 0).runs == payloads[..2]
    ensures Chain(payloads, outcomes, 0).reported == outcomes[1].Reported()
  {
    ChainClosedForm(payloads, outcomes, 0);
    assert FirstFailure(outcomes, 0) == 1;
  }

  /** When every run completes cleanly the chain runs every payload once, in
      order, and ends with 0. */
  lemma AllCleanRunsEverything(payloads: seq<Payload>, outcomes: seq<Outcome>)
    requires |outcomes| == |payloads|
    requires forall i :: 0 <= i < |outcomes| ==> !outcomes[i].Failed()
    ensures Chain(payloads, outcomes, 0) == ChainEnd(0, payloads, None)
  {
    ChainClosedForm(payloads, outcomes, 0);
  }
}
