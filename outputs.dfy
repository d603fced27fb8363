/**
 The action's entry point (`main` in main.go): load the inputs, run the
 migration, and publish the report as the five action outputs. The runtime's
 fatal exit is a result value here, and the published outputs are returned in
 the order they are set.
 */
module Outputs {
  import opened Results
  import opened Strconv
  import opened Loader
  import opened Dispatcher

  /** One `act.SetOutput(name, value)` call. */
  datatype Output = Output(name: string, value: string)

  /** The output names, in the order main sets them. */
  const OutputNames: seq<string> := ["error", "current", "target", "pending_count", "applied_count"]

  /** The outputs main publishes for a report. */
  function OutputsOf(report: ApplyReport): (o: seq<Output>)
    ensures |o| == |OutputNames| && forall k :: 0 <= k < |o| ==> o[k].name == OutputNames[k]
    ensures o[0].value == report.error && o[1].value == report.current && o[2].value == report.target
    ensures Canonical(o[3].value) && DecimalValue(o[3].value) == |report.pending|
    ensures Canonical(o[4].value) && DecimalValue(o[4].value) == |report.applied|
  {
    [ Output("error", report.error),
      Output("current", report.current),
      Output("target", report.target),
      Output("pending_count", Itoa(|report.pending|)),
      Output("applied_count", Itoa(|report.applied|)) ]
  }

  /** How one invocation of the action ends. */
  datatype Exit =
    | LoadFailed(cause: LoadError)
    | RunFailed(message: string)
    | Completed(outputs: seq<Output>)

  /** main: a failed Load or a failed Run is fatal; otherwise the outputs are published. */
  function ActionOutcome(env: Env, configPath: string, apply: ApplyClient): (x: Exit)
    ensures GetInput(env, "url") == "" ==> x == LoadFailed(UrlRequired)
    ensures x.RunFailed? ==>
      LoadResult(env).Success? && apply(ParamsFor(LoadResult(env).value, configPath)) == Failure(x.message)
    ensures x.Completed? ==> |x.outputs| == |OutputNames|
  {
    match LoadResult(env)
    case Failure(e) => LoadFailed(e)
    case Success(i) =>
      match apply(ParamsFor(i, configPath))
      case Failure(m) => RunFailed(m)
      case Success(report) => Completed(OutputsOf(report))
  }

  // ---------------------------------------------------------------------------
  // Properties of the output mapping
  // ---------------------------------------------------------------------------

  /** The two counts are canonical decimals that read back as the list lengths. */
  lemma CountsReadBack(report: ApplyReport)
    requires |report.pending| <= MaxUint64 && |report.applied| <= MaxUint64
    ensures var o := OutputsOf(report);
      && Canonical(o[3].value) && ParseUint10(o[3].value) == Success(|report.pending| as uint64)
      && Canonical(o[4].value) && ParseUint10(o[4].value) == Success(|report.applied| as uint64)
  {
    ItoaParses(|report.pending|);
    ItoaParses(|report.applied|);
  }

  /** Reports whose lists have the same lengths publish the same counts, and only those. */
  lemma {:induction false} CountsDetermineLengths(r1: ApplyReport, r2: ApplyReport)
    ensures OutputsOf(r1)[3] == OutputsOf(r2)[3] <==> |r1.pending| == |r2.pending|
    ensures OutputsOf(r1)[4] == OutputsOf(r2)[4] <==> |r1.applied| == |r2.applied|
  {
    if Itoa(|r1.pending|) == Itoa(|r2.pending|) {
      assert DecimalValue(Itoa(|r1.pending|)) == DecimalValue(Itoa(|r2.pending|));
    }
    if Itoa(|r1.applied|) == Itoa(|r2.applied|) {
      assert DecimalValue(Itoa(|r1.applied|)) == DecimalValue(Itoa(|r2.applied|));
    }
  }

  /** An invocation completes exactly when Load and the client both succeed, and then publishes that report. */
  lemma CompletesIff(env: Env, configPath: string, apply: ApplyClient)
    ensures ActionOutcome(env, configPath, apply).Completed? <==>
      LoadResult(env).Success? && apply(ParamsFor(LoadResult(env).value, configPath)).Success?
    ensures ActionOutcome(env, configPath, apply).Completed? ==>
      ActionOutcome(env, configPath, apply).outputs
        == OutputsOf(apply(ParamsFor(LoadResult(env).value, configPath)).value)
    ensures LoadResult(env).Failure? ==> ActionOutcome(env, configPath, apply) == LoadFailed(LoadResult(env).error)
    ensures LoadResult(env).Success? && apply(ParamsFor(LoadResult(env).value, configPath)).Failure? ==>
      ActionOutcome(env, configPath, apply) == RunFailed(apply(ParamsFor(LoadResult(env).value, configPath)).error)
  {
  }
}
