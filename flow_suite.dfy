/** `xunjian/selenium_flow_suite.py` above the interpreter: `load_suite`, the
    knobs `run_suite` merges (command line, suite, flow), its loop over the flows
    with `stop_on_fail`, and `main`, which writes the report and exits with 1 iff
    some flow did not pass. */
module FlowSuite {
  import opened Runtime
  import opened Session
  import opened FlowSteps
  import opened FlowRunner
  import opened Report

  /** `load_suite` on the decoded file: a list is wrapped as `{"flows": list}`, an
      object with a list under `flows` is kept as it is, anything else is a
      ValueError. */
  function LoadSuite(found: bool, data: Outcome<Json>): (r: Outcome<map<string, Json>>)
    ensures !found ==> r == Raise(FileNotFoundError)
    ensures found && data.Raise? ==> r == Raise(data.fault)
    ensures found && data.Value? && data.value.JArr? ==> r == Value(map["flows" := data.value])
    ensures found && data.Value? && data.value.JObj? && "flows" in data.value.fields && data.value.fields["flows"].JArr? ==>
      r == Value(data.value.fields)
    ensures r.Value? <==>
      found && data.Value? && (data.value.JArr? || (data.value.JObj? && "flows" in data.value.fields && data.value.fields["flows"].JArr?))
    ensures r.Value? ==> "flows" in r.value && r.value["flows"].JArr?
    ensures found && data.Value? && r.Raise? ==> r.fault == ValueError
  {
    if !found then Raise(FileNotFoundError)
    else if data.Raise? then Raise(data.fault)
    else
      match data.value
      case JArr(_) => Value(map["flows" := data.value])
      case JObj(fields) =>
        if "flows" in fields && fields["flows"].JArr? then Value(fields) else Raise(ValueError)
      case _ => Raise(ValueError)
  }

  /** The command-line options `run_suite` reads. */
  datatype SuiteCli = SuiteCli(headless: bool, defaultTimeout: int, chromedriverPath: Json, stopOnFail: bool)

  /** The suite-level `defaults`. */
  datatype Defaults = Defaults(headless: bool, timeout: int, chromedriverPath: Json)

  /** `defaults`: headless when the command line or the suite says so; the suite's
      timeout and driver path over the command line's. */
  function SuiteDefaults(cli: SuiteCli, suite: map<string, Json>): (r: Outcome<Defaults>)
    ensures "timeout" !in suite ==> r.Value?
    ensures "timeout" in suite ==> (r.Raise? <==> ToInt(suite["timeout"]).Raise?)
    ensures r.Raise? ==> r == Raise(ToInt(suite["timeout"]).fault)
    ensures r.Value? ==> r.value.headless == (cli.headless || ("headless" in suite && Truthy(suite["headless"])))
    ensures r.Value? ==> r.value.timeout == if "timeout" in suite then ToInt(suite["timeout"]).value else cli.defaultTimeout
    ensures r.Value? ==> r.value.chromedriverPath == if "chromedriver_path" in suite then suite["chromedriver_path"] else cli.chromedriverPath
  {
    var timeout := ToInt(Get(suite, "timeout", JNum(cli.defaultTimeout)));
    if timeout.Raise? then Raise(timeout.fault)
    else
      Value(Defaults(cli.headless || Truthy(Get(suite, "headless", JBool(false))), timeout.value,
                     Get(suite, "chromedriver_path", cli.chromedriverPath)))
  }

  /** The `overrides` handed to `run_flow_steps`: each of the flow's own knobs over
      the suite's defaults. */
  function FlowOverrides(d: Defaults, flow: map<string, Json>): (r: Outcome<Overrides>)
    ensures "timeout" !in flow ==> r.Value? && r.value.timeout == Some(d.timeout)
    ensures "timeout" in flow ==> (r.Raise? <==> ToInt(flow["timeout"]).Raise?)
    ensures r.Raise? ==> r == Raise(ToInt(flow["timeout"]).fault)
    ensures r.Value? && "timeout" in flow ==> r.value.timeout == Some(ToInt(flow["timeout"]).value)
    ensures r.Value? ==> r.value.headless == if "headless" in flow then Truthy(flow["headless"]) else d.headless
    ensures r.Value? ==> r.value.chromedriverPath == if "chromedriver_path" in flow then flow["chromedriver_path"] else d.chromedriverPath
  {
    var timeout := ToInt(Get(flow, "timeout", JNum(d.timeout)));
    if timeout.Raise? then Raise(timeout.fault)
    else
      Value(Overrides(Some(timeout.value), Truthy(Get(flow, "headless", JBool(d.headless))),
                      Get(flow, "chromedriver_path", d.chromedriverPath)))
  }

  /** `r` is the entry `run_suite` records for `flow`, the `index`-th flow. */
  predicate Describes(flow: Json, index: nat, r: Result) {
    flow.JObj? && r.name == NameOr(flow.fields, "flow_", index) && r.url.None? &&
    0 <= r.exitCode <= 4 && r.status == StatusLabel(r.exitCode)
  }

  /** One iteration of `run_suite`: the flow's name, its overrides, the run with
      every action of the suite's interpreter, and the entry recorded for it. A
      flow that is not an object has no `get`. */
  function RunEntry(o: Oracle, t: Trace, available: bool, d: Defaults, flow: Json, index: nat): (e: Effect<Result>)
    ensures !flow.JObj? ==> e == Effect(Raise(TypeError), t)
    ensures flow.JObj? && FlowOverrides(d, flow.fields).Raise? ==> e == Effect(Raise(FlowOverrides(d, flow.fields).fault), t)
    ensures e.out.Raise? ==> e.trace == t
    ensures e.out.Value? ==>
      flow.JObj? && FlowOverrides(d, flow.fields).Value? &&
      var ov := FlowOverrides(d, flow.fields).value;
      var run := RunFlowSteps(o, t, SuiteActions, available, flow.fields, ov);
      run.out.Value? && e.trace == run.trace &&
      e.out.value == Entry(NameOr(flow.fields, "flow_", index), None, run.out.value, ov.timeout.value, ov.headless)
    ensures e.out.Value? ==> Describes(flow, index, e.out.value)
  {
    if !flow.JObj? then Effect(Raise(TypeError), t)
    else
      var ov := FlowOverrides(d, flow.fields);
      if ov.Raise? then Effect(Raise(ov.fault), t)
      else
        var run := RunFlowSteps(o, t, SuiteActions, available, flow.fields, ov.value);
        Effect(Value(Entry(NameOr(flow.fields, "flow_", index), None, run.out.value, ov.value.timeout.value, ov.value.headless)), run.trace)
  }

  /** Running one flow of the suite, as a value for the loop. */
  function SuiteEntry(o: Oracle, available: bool, d: Defaults): EntryRunner {
    (t: Trace, flow: Json, index: nat) => RunEntry(o, t, available, d, flow, index)
  }

  lemma SuiteEntryRecords(o: Oracle, available: bool, d: Defaults)
    ensures Records(SuiteEntry(o, available, d), Describes)
  {
  }

  /** `run_suite(suite, cli)`; `suite` is what `load_suite` returned. */
  function RunSuite(o: Oracle, t: Trace, available: bool, cli: SuiteCli, suite: map<string, Json>): (e: Effect<seq<Result>>)
    requires "flows" in suite && suite["flows"].JArr?
    ensures SuiteDefaults(cli, suite).Raise? ==> e == Effect(Raise(SuiteDefaults(cli, suite).fault), t)
    ensures SuiteDefaults(cli, suite).Value? ==>
      e == RunItems(SuiteEntry(o, available, SuiteDefaults(cli, suite).value), t, cli.stopOnFail, suite["flows"].items, 0)
  {
    match SuiteDefaults(cli, suite)
    case Raise(f) => Effect(Raise(f), t)
    case Value(d) => RunItems(SuiteEntry(o, available, d), t, cli.stopOnFail, suite["flows"].items, 0)
  }

  /** `main`: load the suite, run it, write the report, then exit with 1 iff some
      flow did not pass. An exception on the way ends the process without a report. */
  function SuiteMain(o: Oracle, t: Trace, available: bool, cli: SuiteCli, suitePath: string, outputPath: string,
                     generatedAt: string): (e: Effect<int>)
    ensures !(o(t, PathExists(suitePath)).Value? && Truthy(o(t, PathExists(suitePath)).value)) ==>
      e == Effect(Raise(FileNotFoundError), t + [PathExists(suitePath)])
    ensures e.out.Value? ==> e.out.value == 0 || e.out.value == 1
    ensures e.out.Value? ==>
      |e.trace| > 0 && exists rs :: e.trace[|e.trace| - 1] == WriteJson(outputPath, ReportJson(generatedAt, rs)) && e.out.value == ExitStatus(rs)
  {
    var p := Ask(o, t, PathExists(suitePath));
    var found := p.out.Value? && Truthy(p.out.value);
    if !found then Effect(Raise(FileNotFoundError), p.trace)
    else
      var data := Ask(o, p.trace, ReadJson(suitePath));
      match LoadSuite(true, data.out)
      case Raise(f) => Effect(Raise(f), data.trace)
      case Value(suite) =>
        var results := RunSuite(o, data.trace, available, cli, suite);
        match results.out
        case Raise(f) => Effect(Raise(f), results.trace)
        case Value(rs) =>
          var w := WriteReport(o, results.trace, outputPath, generatedAt, rs);
          match w.out
          case Raise(f) => Effect(Raise(f), w.trace)
          case Value(_) => Effect(Value(ExitStatus(rs)), w.trace)
  }

  // ---------------------------------------------------------------------------
  // The same, against an `Env`

  method RunEntryCall(env: Env, available: bool, d: Defaults, flow: Json, index: nat) returns (r: Outcome<Result>)
    modifies env
    ensures Effect(r, env.trace) == RunEntry(env.oracle, old(env.trace), available, d, flow, index)
  {
    if !flow.JObj? {
      return Raise(TypeError);
    }
    var ov := FlowOverrides(d, flow.fields);
    if ov.Raise? {
      return Raise(ov.fault);
    }
    var code := RunFlowStepsCall(env, SuiteActions, available, flow.fields, ov.value);
    r := Value(Entry(NameOr(flow.fields, "flow_", index), None, code.value, ov.value.timeout.value, ov.value.headless));
  }

  method RunSuiteCall(env: Env, available: bool, cli: SuiteCli, suite: map<string, Json>) returns (r: Outcome<seq<Result>>)
    requires "flows" in suite && suite["flows"].JArr?
    modifies env
    ensures Effect(r, env.trace) == RunSuite(env.oracle, old(env.trace), available, cli, suite)
  {
    var defaults := SuiteDefaults(cli, suite);
    if defaults.Raise? {
      return Raise(defaults.fault);
    }
    ghost var run := SuiteEntry(env.oracle, available, defaults.value);
    r := RunFlowsCall(env, available, defaults.value, cli.stopOnFail, suite["flows"].items, run);
  }

  /** The `for index, flow in enumerate(flows)` loop of `run_suite`. The rows are
      specified through `run`, which the caller passes as `SuiteEntry`: the loop only
      needs `run` to agree with `RunEntry` for the flow it has just run, which keeps
      the whole interpreter out of its proof. */
  method RunFlowsCall(env: Env, available: bool, d: Defaults, stopOnFail: bool, flows: seq<Json>, ghost run: EntryRunner)
    returns (r: Outcome<seq<Result>>)
    requires forall t, flow, index {:trigger RunEntry(env.oracle, t, available, d, flow, index)} ::
      run(t, flow, index) == RunEntry(env.oracle, t, available, d, flow, index)
    modifies env
    ensures Effect(r, env.trace) == RunItems(run, old(env.trace), stopOnFail, flows, 0)
  {
    var results: seq<Result> := [];
    var i := 0;
    AfterNothing(RunItems(run, env.trace, stopOnFail, flows, 0));
    while i < |flows|
      invariant 0 <= i <= |flows|
      invariant RunItems(run, old(env.trace), stopOnFail, flows, 0) == After(results, RunItems(run, env.trace, stopOnFail, flows, i))
      decreases |flows| - i
    {
      LoopTurn(run, env.trace, stopOnFail, flows, i, results);
      var entry := RunEntryCall(env, available, d, flows[i], i);
      if entry.Raise? {
        return Raise(entry.fault);
      }
      results := results + [entry.value];
      if stopOnFail && entry.value.exitCode != 0 {
        break;
      }
      i := i + 1;
    }
    assert results + [] == results;
    r := Value(results);
  }

  method SuiteMainCall(env: Env, available: bool, cli: SuiteCli, suitePath: string, outputPath: string, generatedAt: string)
    returns (r: Outcome<int>)
    modifies env
    ensures Effect(r, env.trace) == SuiteMain(env.oracle, old(env.trace), available, cli, suitePath, outputPath, generatedAt)
  {
    var p := env.Call(PathExists(suitePath));
    if !(p.Value? && Truthy(p.value)) {
      return Raise(FileNotFoundError);
    }
    var data := env.Call(ReadJson(suitePath));
    var suite := LoadSuite(true, data);
    if suite.Raise? {
      return Raise(suite.fault);
    }
    var results := RunSuiteCall(env, available, cli, suite.value);
    if results.Raise? {
      return Raise(results.fault);
    }
    var w := WriteReportCall(env, outputPath, generatedAt, results.value);
    if w.Raise? {
      return Raise(w.fault);
    }
    r := Value(ExitStatus(results.value));
  }

  // ---------------------------------------------------------------------------
  // Properties of the suite

  /** The headless flag a flow's driver is opened with: the flow's own when it
      names one (the suite's and the command line's are then ignored), else the
      suite default. */
  lemma EffectiveHeadless(cli: SuiteCli, suite: map<string, Json>, flow: map<string, Json>)
    requires SuiteDefaults(cli, suite).Value? && FlowOverrides(SuiteDefaults(cli, suite).value, flow).Value?
    ensures HeadlessOf(FlowOverrides(SuiteDefaults(cli, suite).value, flow).value, flow) ==
      if "headless" in flow then Truthy(flow["headless"])
      else cli.headless || ("headless" in suite && Truthy(suite["headless"]))
  {
  }

  /** The driver path a flow's driver is opened with: the flow's own, else the
      suite's, else the command line's; a falsy one at the suite or command-line
      level means no path. */
  lemma EffectiveDriverPath(cli: SuiteCli, suite: map<string, Json>, flow: map<string, Json>)
    requires SuiteDefaults(cli, suite).Value? && FlowOverrides(SuiteDefaults(cli, suite).value, flow).Value?
    ensures var inherited := if "chromedriver_path" in suite then suite["chromedriver_path"] else cli.chromedriverPath;
      DriverPathOf(FlowOverrides(SuiteDefaults(cli, suite).value, flow).value, flow) ==
      if "chromedriver_path" in flow then flow["chromedriver_path"]
      else if Truthy(inherited) then inherited
      else JNull
  {
  }

  /** The default step timeout inside a flow: the flow's own, else the suite's,
      else the command line's. */
  lemma EffectiveTimeout(cli: SuiteCli, suite: map<string, Json>, flow: map<string, Json>)
    requires SuiteDefaults(cli, suite).Value? && FlowOverrides(SuiteDefaults(cli, suite).value, flow).Value?
    ensures DefaultTimeout(FlowOverrides(SuiteDefaults(cli, suite).value, flow).value, flow) ==
      if "timeout" in flow then ToInt(flow["timeout"])
      else if "timeout" in suite then ToInt(suite["timeout"])
      else Value(cli.defaultTimeout)
  {
  }

  /** `run_suite` appends one entry per flow it ran, in input order, named after
      the flow and labelled with its code; without `stop_on_fail` every flow runs,
      with it the entries end at the first non-zero code, which is included. */
  lemma SuiteResults(o: Oracle, t: Trace, available: bool, cli: SuiteCli, suite: map<string, Json>)
    requires "flows" in suite && suite["flows"].JArr?
    requires RunSuite(o, t, available, cli, suite).out.Value?
    ensures var rs := RunSuite(o, t, available, cli, suite).out.value;
      var flows := suite["flows"].items;
      |rs| <= |flows| && (!cli.stopOnFail ==> |rs| == |flows|) &&
      (forall k :: 0 <= k < |rs| ==> Describes(flows[k], k, rs[k])) &&
      (cli.stopOnFail ==> forall k :: 0 <= k < |rs| - 1 ==> rs[k].exitCode == 0) &&
      (cli.stopOnFail && |rs| < |flows| ==> |rs| > 0 && rs[|rs| - 1].exitCode != 0)
  {
    var d := SuiteDefaults(cli, suite).value;
    assert RunSuite(o, t, available, cli, suite) == RunItems(SuiteEntry(o, available, d), t, cli.stopOnFail, suite["flows"].items, 0);
    SuiteEntryRecords(o, available, d);
    RunItemsFromStart(SuiteEntry(o, available, d), Describes, t, cli.stopOnFail, suite["flows"].items);
  }

  /** The report's counts partition the results, and the exit status is 0 iff all
      of them passed. */
  lemma SuiteReportConsistent(o: Oracle, t: Trace, available: bool, cli: SuiteCli, suite: map<string, Json>)
    requires "flows" in suite && suite["flows"].JArr?
    requires RunSuite(o, t, available, cli, suite).out.Value?
    ensures var rs := RunSuite(o, t, available, cli, suite).out.value;
      var s := Summarise(rs);
      s.pass + s.errorFound + s.failures == |rs| &&
      (ExitStatus(rs) == 0 <==> s.pass == |rs|)
  {
    ExitStatusAgreesWithSummary(RunSuite(o, t, available, cli, suite).out.value);
  }
}
