/** `rm/batch_selenium_check.py`: `load_config`, the loop of `run_cases` over the
    login cases of a JSON array, each run through `run_flow`, and `main`, which
    writes the report and exits with 1 iff some case did not pass. */
module BatchCheck {
  import opened Runtime
  import opened Session
  import opened SeleniumCheck
  import opened Report

  /** `load_config` on the decoded file: it must be an array. */
  function LoadConfig(found: bool, data: Outcome<Json>): (r: Outcome<seq<Json>>)
    ensures !found ==> r == Raise(FileNotFoundError)
    ensures found && data.Raise? ==> r == Raise(data.fault)
    ensures r.Value? <==> found && data.Value? && data.value.JArr?
    ensures r.Value? ==> r.value == data.value.items
    ensures found && data.Value? && r.Raise? ==> r.fault == ValueError
  {
    if !found then Raise(FileNotFoundError)
    else if data.Raise? then Raise(data.fault)
    else if data.value.JArr? then Value(data.value.items)
    else Raise(ValueError)
  }

  /** The defaults `main` hands to `run_cases` from the command line. */
  datatype BatchDefaults = BatchDefaults(timeout: int, headless: bool, chromedriverPath: Json, stopOnFail: bool)

  /** The keys `case["..."]` reads without a default, in the order it reads them. */
  const RequiredKeys: seq<string> := ["url", "username", "password", "username_selector", "password_selector", "submit_selector"]

  /** The arguments of the `run_flow` call for one case: the required fields as
      they are, `feature_selector or ""`, the two optional waits, and each knob
      of the case over the batch default. Only the `int` of the timeout can fail. */
  function CaseOf(d: BatchDefaults, c: map<string, Json>): (r: Outcome<LoginCase>)
    ensures r.Raise? <==> (exists k :: k in RequiredKeys && k !in c) ||
                          ToInt(Get(c, "timeout", JNum(d.timeout))).Raise?
    ensures (exists k :: k in RequiredKeys && k !in c) ==> r == Raise(KeyError)
    ensures r.Value? ==>
      r.value.url == c["url"] && r.value.username == c["username"] && r.value.password == c["password"] &&
      r.value.usernameSelector == c["username_selector"] && r.value.passwordSelector == c["password_selector"] &&
      r.value.submitSelector == c["submit_selector"]
    ensures r.Value? ==>
      r.value.featureSelector == (if "feature_selector" in c && Truthy(c["feature_selector"]) then c["feature_selector"] else JStr("")) &&
      r.value.afterLoginWaitSelector == Get(c, "after_login_wait_selector", JNull) &&
      r.value.postClickWaitSelector == Get(c, "post_click_wait_selector", JNull)
    ensures r.Value? ==>
      r.value.timeout == (if "timeout" in c then ToInt(c["timeout"]).value else d.timeout) &&
      r.value.headless == (if "headless" in c then Truthy(c["headless"]) else d.headless) &&
      r.value.chromedriverPath == (if "chromedriver_path" in c then c["chromedriver_path"] else d.chromedriverPath)
  {
    if exists k :: k in RequiredKeys && k !in c then Raise(KeyError)
    else
      assert forall k :: k in RequiredKeys ==> k in c;
      assert RequiredKeys[0] == "url" && RequiredKeys[5] == "submit_selector";
      var feature := Get(c, "feature_selector", JNull);
      var timeout := ToInt(Get(c, "timeout", JNum(d.timeout)));
      if timeout.Raise? then Raise(timeout.fault)
      else
        Value(LoginCase(
          c["url"], c["username"], c["password"],
          c["username_selector"], c["password_selector"], c["submit_selector"],
          if Truthy(feature) then feature else JStr(""),
          Get(c, "after_login_wait_selector", JNull), Get(c, "post_click_wait_selector", JNull),
          timeout.value, Truthy(Get(c, "headless", JBool(d.headless))), Get(c, "chromedriver_path", d.chromedriverPath)))
  }

  /** `r` is the entry `run_cases` records for `item`, the `index`-th case. */
  predicate DescribesCase(item: Json, index: nat, r: Result) {
    item.JObj? && r.name == NameOr(item.fields, "case_", index) && "url" in item.fields && r.url == Some(item.fields["url"]) &&
    0 <= r.exitCode <= 4 && r.status == StatusLabel(r.exitCode)
  }

  /** One iteration of `run_cases`. A case that is not an object has no `get`; a
      missing required field is a KeyError that ends the whole batch. */
  function RunCase(o: Oracle, t: Trace, d: BatchDefaults, item: Json, index: nat): (e: Effect<Result>)
    ensures !item.JObj? ==> e == Effect(Raise(TypeError), t)
    ensures item.JObj? && CaseOf(d, item.fields).Raise? ==> e == Effect(Raise(CaseOf(d, item.fields).fault), t)
    ensures e.out.Value? ==>
      item.JObj? && CaseOf(d, item.fields).Value? &&
      var c := CaseOf(d, item.fields).value;
      var run := LoginFlow(o, t, c);
      e.trace == run.trace && e.out.value == Entry(NameOr(item.fields, "case_", index), Some(c.url), run.out.value, c.timeout, c.headless)
    ensures e.out.Value? ==> DescribesCase(item, index, e.out.value)
  {
    if !item.JObj? then Effect(Raise(TypeError), t)
    else
      var c := CaseOf(d, item.fields);
      if c.Raise? then Effect(Raise(c.fault), t)
      else
        var run := LoginFlow(o, t, c.value);
        Effect(Value(Entry(NameOr(item.fields, "case_", index), Some(c.value.url), run.out.value, c.value.timeout, c.value.headless)),
               run.trace)
  }

  /** Running one case, as a value for the loop. */
  function BatchEntry(o: Oracle, d: BatchDefaults): EntryRunner {
    (t: Trace, item: Json, index: nat) => RunCase(o, t, d, item, index)
  }

  lemma BatchEntryRecords(o: Oracle, d: BatchDefaults)
    ensures Records(BatchEntry(o, d), DescribesCase)
  {
  }

  /** `run_cases(cases, ...)`. */
  function RunCases(o: Oracle, t: Trace, d: BatchDefaults, cases: seq<Json>): (e: Effect<seq<Result>>)
    ensures e.out.Value? ==> |e.out.value| <= |cases|
    ensures e.out.Value? && !d.stopOnFail ==> |e.out.value| == |cases|
  {
    RunItems(BatchEntry(o, d), t, d.stopOnFail, cases, 0)
  }

  /** `main`: load the cases, run them, write the report, then exit with 1 iff
      some case did not pass. An exception on the way ends the process without a report. */
  function BatchMain(o: Oracle, t: Trace, d: BatchDefaults, configPath: string, outputPath: string, generatedAt: string)
    : (e: Effect<int>)
    ensures !(o(t, PathExists(configPath)).Value? && Truthy(o(t, PathExists(configPath)).value)) ==>
      e == Effect(Raise(FileNotFoundError), t + [PathExists(configPath)])
    ensures e.out.Value? ==> e.out.value == 0 || e.out.value == 1
    ensures e.out.Value? ==>
      |e.trace| > 0 && exists rs :: e.trace[|e.trace| - 1] == WriteJson(outputPath, ReportJson(generatedAt, rs)) && e.out.value == ExitStatus(rs)
  {
    var p := Ask(o, t, PathExists(configPath));
    if !(p.out.Value? && Truthy(p.out.value)) then Effect(Raise(FileNotFoundError), p.trace)
    else
      var data := Ask(o, p.trace, ReadJson(configPath));
      match LoadConfig(true, data.out)
      case Raise(f) => Effect(Raise(f), data.trace)
      case Value(cases) =>
        var results := RunCases(o, data.trace, d, cases);
        match results.out
        case Raise(f) => Effect(Raise(f), results.trace)
        case Value(rs) =>
          var w := WriteReport(o, results.trace, outputPath, generatedAt, rs);
          match w.out
          case Raise(f) => Effect(Raise(f), w.trace)
          case Value(_) => Effect(Value(ExitStatus(rs)), w.trace)
  }

  // ---------------------------------------------------------------------------
  // The same, against an `Env`

  method RunCaseCall(env: Env, d: BatchDefaults, item: Json, index: nat) returns (r: Outcome<Result>)
    modifies env
    ensures Effect(r, env.trace) == RunCase(env.oracle, old(env.trace), d, item, index)
  {
    if !item.JObj? {
      return Raise(TypeError);
    }
    var c := CaseOf(d, item.fields);
    if c.Raise? {
      return Raise(c.fault);
    }
    var code := RunFlow(env, c.value);
    r := Value(Entry(NameOr(item.fields, "case_", index), Some(c.value.url), code, c.value.timeout, c.value.headless));
  }

  method RunCasesCall(env: Env, d: BatchDefaults, cases: seq<Json>) returns (r: Outcome<seq<Result>>)
    modifies env
    ensures Effect(r, env.trace) == RunCases(env.oracle, old(env.trace), d, cases)
  {
    ghost var run := BatchEntry(env.oracle, d);
    assert RunCases(env.oracle, env.trace, d, cases) == RunItems(run, env.trace, d.stopOnFail, cases, 0);
    var results: seq<Result> := [];
    var i := 0;
    AfterNothing(RunItems(run, env.trace, d.stopOnFail, cases, 0));
    while i < |cases|
      invariant 0 <= i <= |cases|
      invariant RunItems(run, old(env.trace), d.stopOnFail, cases, 0) == After(results, RunItems(run, env.trace, d.stopOnFail, cases, i))
      decreases |cases| - i
    {
      LoopTurn(run, env.trace, d.stopOnFail, cases, i, results);
      ghost var before := env.trace;
      var entry := RunCaseCall(env, d, cases[i], i);
      assert run(before, cases[i], i) == Effect(entry, env.trace);
      if entry.Raise? {
        return Raise(entry.fault);
      }
      results := results + [entry.value];
      if d.stopOnFail && entry.value.exitCode != 0 {
        break;
      }
      i := i + 1;
    }
    assert results + [] == results;
    r := Value(results);
  }

  method BatchMainCall(env: Env, d: BatchDefaults, configPath: string, outputPath: string, generatedAt: string)
    returns (r: Outcome<int>)
    modifies env
    ensures Effect(r, env.trace) == BatchMain(env.oracle, old(env.trace), d, configPath, outputPath, generatedAt)
  {
    var p := env.Call(PathExists(configPath));
    if !(p.Value? && Truthy(p.value)) {
      return Raise(FileNotFoundError);
    }
    var data := env.Call(ReadJson(configPath));
    var cases := LoadConfig(true, data);
    if cases.Raise? {
      return Raise(cases.fault);
    }
    var results := RunCasesCall(env, d, cases.value);
    if results.Raise? {
      return Raise(results.fault);
    }
    var w := WriteReportCall(env, outputPath, generatedAt, results.value);
    if w.Raise? {
      return Raise(w.fault);
    }
    r := Value(ExitStatus(results.value));
  }

  // ---------------------------------------------------------------------------
  // Properties of the batch

  /** A case without one of the six required fields aborts the batch with a
      KeyError after the cases before it: it gets no entry, and no driver is
      opened for it. */
  lemma MissingFieldAborts(o: Oracle, t: Trace, d: BatchDefaults, item: map<string, Json>, index: nat, key: string)
    requires key in RequiredKeys && key !in item
    ensures RunCase(o, t, d, JObj(item), index) == Effect(Raise(KeyError), t)
  {
  }

  /** `run_cases` appends one entry per case it ran, in input order, named after
      the case and carrying its url; without `stop_on_fail` every case runs, with
      it the entries end at the first non-zero code, which is included. */
  lemma BatchResults(o: Oracle, t: Trace, d: BatchDefaults, cases: seq<Json>)
    requires RunCases(o, t, d, cases).out.Value?
    ensures var rs := RunCases(o, t, d, cases).out.value;
      |rs| <= |cases| && (!d.stopOnFail ==> |rs| == |cases|) &&
      (forall k :: 0 <= k < |rs| ==> DescribesCase(cases[k], k, rs[k])) &&
      (d.stopOnFail ==> forall k :: 0 <= k < |rs| - 1 ==> rs[k].exitCode == 0) &&
      (d.stopOnFail && |rs| < |cases| ==> |rs| > 0 && rs[|rs| - 1].exitCode != 0)
  {
    assert RunCases(o, t, d, cases) == RunItems(BatchEntry(o, d), t, d.stopOnFail, cases, 0);
    BatchEntryRecords(o, d);
    RunItemsFromStart(BatchEntry(o, d), DescribesCase, t, d.stopOnFail, cases);
  }
}
