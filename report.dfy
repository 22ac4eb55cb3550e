/** What the two orchestrators do with the exit codes of their flows or cases:
    the status label of each, the JSON report with its summary counts, and the
    exit status of the process. The suite and the batch checker share the rule
    word for word; `url` is the one field only the batch checker records. */
module Report {
  import opened Runtime
  import opened Session

  /** `STATUS_BY_CODE.get(exit_code, "UNKNOWN")`. */
  function StatusLabel(code: int): (s: string)
    ensures s == "UNKNOWN" <==> !(0 <= code <= 4)
  {
    if code == 0 then "PASS_NO_ERROR_FOUND"
    else if code == 1 then "ERROR_KEYWORD_FOUND"
    else if code == 2 then "SELENIUM_TIMEOUT_OR_NO_SUCH_ELEMENT"
    else if code == 3 then "WEBDRIVER_ERROR"
    else if code == 4 then "UNEXPECTED_ERROR"
    else "UNKNOWN"
  }

  /** Every code a flow can return has a label of its own. */
  lemma StatusLabelsDistinct(c1: int, c2: int)
    requires 0 <= c1 <= 4 && 0 <= c2 <= 4 && c1 != c2
    ensures StatusLabel(c1) != StatusLabel(c2)
  {
  }

  /** The name an entry is recorded under: `fields.get("name") or
      f"{prefix}{index+1}"`, with prefix `flow_` in the suite and `case_` in the
      batch checker. */
  function NameOr(fields: map<string, Json>, prefix: string, index: nat): (name: Json)
    ensures "name" in fields && Truthy(fields["name"]) ==> name == fields["name"]
    ensures !("name" in fields && Truthy(fields["name"])) ==> name == JStr(prefix + NatToString(index + 1))
  {
    var given := Get(fields, "name", JNull);
    if Truthy(given) then given else JStr(prefix + NatToString(index + 1))
  }

  /** One entry of `results`. */
  datatype Result = Result(name: Json, url: Option<Json>, exitCode: int, status: string, timeout: int, headless: bool)

  /** The entry for a flow or case that returned `code`, with its label. */
  function Entry(name: Json, url: Option<Json>, code: int, timeout: int, headless: bool): (r: Result)
    ensures r.exitCode == code && r.status == StatusLabel(code)
    ensures r.name == name && r.url == url && r.timeout == timeout && r.headless == headless
  {
    Result(name, url, code, StatusLabel(code), timeout, headless)
  }

  /** The `summary` object: how many results passed, found an error keyword, or
      failed otherwise. */
  datatype Summary = Summary(pass: nat, errorFound: nat, failures: nat)

  function Plus(a: Summary, b: Summary): Summary {
    Summary(a.pass + b.pass, a.errorFound + b.errorFound, a.failures + b.failures)
  }

  /** The bucket one exit code is counted in. */
  function Bucket(code: int): Summary {
    if code == 0 then Summary(1, 0, 0) else if code == 1 then Summary(0, 1, 0) else Summary(0, 0, 1)
  }

  /** The three `sum(1 for r in results if ...)` of `write_report`. */
  function Summarise(results: seq<Result>): (s: Summary)
    ensures s.pass + s.errorFound + s.failures == |results|
    ensures s.pass == |results| <==> forall k :: 0 <= k < |results| ==> results[k].exitCode == 0
    ensures s.failures == 0 <==> forall k :: 0 <= k < |results| ==> results[k].exitCode in {0, 1}
    decreases |results|
  {
    if results == [] then Summary(0, 0, 0)
    else
      var head := Bucket(results[0].exitCode);
      var tail := Summarise(results[1..]);
      assert forall k :: 1 <= k < |results| ==> results[k] == results[1..][k - 1];
      Plus(head, tail)
  }

  /** The counts of a concatenation are the sums of the counts. */
  lemma {:induction false} SummariseAppend(a: seq<Result>, b: seq<Result>)
    ensures Summarise(a + b) == Plus(Summarise(a), Summarise(b))
    decreases |a|
  {
    if a == [] {
      assert a + b == b;
    } else {
      assert (a + b)[0] == a[0];
      assert (a + b)[1..] == a[1..] + b;
      SummariseAppend(a[1..], b);
      assert Summarise(a + b) == Plus(Bucket(a[0].exitCode), Summarise(a[1..] + b));
    }
  }

  /** The counts of a single result: it lands in exactly one bucket. */
  lemma SummariseOne(r: Result)
    ensures Summarise([r]) ==
      if r.exitCode == 0 then Summary(1, 0, 0)
      else if r.exitCode == 1 then Summary(0, 1, 0)
      else Summary(0, 0, 1)
  {
    assert [r][1..] == [];
  }

  /** `any(r["exit_code"] != 0 for r in results)`. */
  function AnyNonZero(results: seq<Result>): (b: bool)
    ensures b <==> exists k :: 0 <= k < |results| && results[k].exitCode != 0
    decreases |results|
  {
    if results == [] then false
    else
      var rest := AnyNonZero(results[1..]);
      assert forall k :: 1 <= k < |results| ==> results[k] == results[1..][k - 1];
      results[0].exitCode != 0 || rest
  }

  /** The process exit status of `main`: 1 iff some result is non-zero. */
  function ExitStatus(results: seq<Result>): (status: int)
    ensures status == 0 || status == 1
    ensures status == 1 <==> exists k :: 0 <= k < |results| && results[k].exitCode != 0
  {
    if AnyNonZero(results) then 1 else 0
  }

  /** The exit status is 0 exactly when the summary counts every result as a pass. */
  lemma ExitStatusAgreesWithSummary(results: seq<Result>)
    ensures ExitStatus(results) == 0 <==> Summarise(results).pass == |results|
    ensures ExitStatus(results) == 0 ==> Summarise(results).errorFound == 0 && Summarise(results).failures == 0
  {
  }

  /** The JSON object of one entry (key order is not modelled). */
  function ResultJson(r: Result): (j: Json)
    ensures j.JObj? && "exit_code" in j.fields && "name" in j.fields && "status" in j.fields
    ensures j.fields["exit_code"] == JNum(r.exitCode) && j.fields["name"] == r.name && j.fields["status"] == JStr(r.status)
    ensures "url" in j.fields <==> r.url.Some?
    ensures j.fields.Keys == {"name", "exit_code", "status", "timeout", "headless"} + (if r.url.Some? then {"url"} else {})
    ensures j.fields["timeout"] == JNum(r.timeout) && j.fields["headless"] == JBool(r.headless)
    ensures r.url.Some? ==> j.fields["url"] == r.url.value
  {
    var base := map["name" := r.name, "exit_code" := JNum(r.exitCode), "status" := JStr(r.status),
                    "timeout" := JNum(r.timeout), "headless" := JBool(r.headless)];
    match r.url
    case Some(u) => JObj(base["url" := u])
    case None => JObj(base)
  }

  function ResultsJson(results: seq<Result>): (items: seq<Json>)
    ensures |items| == |results|
    ensures forall k :: 0 <= k < |results| ==> items[k] == ResultJson(results[k])
  {
    seq(|results|, k requires 0 <= k < |results| => ResultJson(results[k]))
  }

  function SummaryJson(s: Summary): Json {
    JObj(map["pass" := JNum(s.pass), "error_found" := JNum(s.errorFound), "failures" := JNum(s.failures)])
  }

  /** The report object: its `generated_at` stamp (the clock is a parameter),
      the total, the summary and the entries themselves. */
  function ReportJson(generatedAt: string, results: seq<Result>): (j: Json)
    ensures j.JObj? && j.fields.Keys == {"generated_at", "total", "summary", "results"}
    ensures j.fields["total"] == JNum(|results|)
    ensures j.fields["summary"] == SummaryJson(Summarise(results))
    ensures j.fields["results"] == JArr(ResultsJson(results))
  {
    JObj(map[
      "generated_at" := JStr(generatedAt + "Z"),
      "total" := JNum(|results|),
      "summary" := SummaryJson(Summarise(results)),
      "results" := JArr(ResultsJson(results))])
  }

  /** `write_report`: open the output file, then dump the report into it. */
  function WriteReport(o: Oracle, t: Trace, path: string, generatedAt: string, results: seq<Result>): (e: Effect<Json>)
    ensures o(t, OpenForWriting(path)).Raise? ==> e == Effect(Raise(o(t, OpenForWriting(path)).fault), t + [OpenForWriting(path)])
    ensures o(t, OpenForWriting(path)).Value? ==>
      e == Ask(o, t + [OpenForWriting(path)], WriteJson(path, ReportJson(generatedAt, results)))
  {
    var f := Ask(o, t, OpenForWriting(path));
    match f.out
    case Raise(err) => Effect(Raise(err), f.trace)
    case Value(_) => Ask(o, f.trace, WriteJson(path, ReportJson(generatedAt, results)))
  }

  method WriteReportCall(env: Env, path: string, generatedAt: string, results: seq<Result>) returns (r: Reply)
    modifies env
    ensures Effect(r, env.trace) == WriteReport(env.oracle, old(env.trace), path, generatedAt, results)
  {
    r := env.Call(OpenForWriting(path));
    if r.Value? {
      r := env.Call(WriteJson(path, ReportJson(generatedAt, results)));
    }
  }

  // ---------------------------------------------------------------------------
  // The loop both orchestrators run

  /** Running one item (a flow, a case) as a value: given the trace, the item and
      its index, the entry recorded for it or the exception it raised. */
  type EntryRunner = (Trace, Json, nat) -> Effect<Result>

  /** `for index, item in enumerate(items)`: run the item, append its entry, and
      `break` after a non-zero one under `stop_on_fail`. An exception leaves the
      loop, and the orchestrator, with the entries so far lost. */
  function RunItems(run: EntryRunner, t: Trace, stopOnFail: bool, items: seq<Json>, i: nat): (e: Effect<seq<Result>>)
    requires i <= |items|
    ensures e.out.Value? ==> |e.out.value| <= |items| - i
    ensures e.out.Value? && !stopOnFail ==> |e.out.value| == |items| - i
    decreases |items| - i
  {
    if i == |items| then Effect(Value([]), t)
    else
      var x := run(t, items[i], i);
      match x.out
      case Raise(f) => Effect(Raise(f), x.trace)
      case Value(r) =>
        if stopOnFail && r.exitCode != 0 then Effect(Value([r]), x.trace)
        else
          var rest := RunItems(run, x.trace, stopOnFail, items, i + 1);
          match rest.out
          case Raise(f) => Effect(Raise(f), rest.trace)
          case Value(rs) => Effect(Value([r] + rs), rest.trace)
  }

  /** The entries so far in front of what the rest of the loop produces. */
  function After(done: seq<Result>, e: Effect<seq<Result>>): Effect<seq<Result>> {
    match e.out
    case Raise(f) => e
    case Value(rs) => Effect(Value(done + rs), e.trace)
  }

  lemma AfterNothing(e: Effect<seq<Result>>)
    ensures After([], e) == e
  {
    if e.out.Value? {
      assert [] + e.out.value == e.out.value;
    }
  }

  /** One turn of the loop: it raises, it stops, or it goes on with one more entry. */
  lemma LoopTurn(run: EntryRunner, t: Trace, stopOnFail: bool, items: seq<Json>, i: nat, done: seq<Result>)
    requires i < |items|
    ensures var x := run(t, items[i], i);
      var e := After(done, RunItems(run, t, stopOnFail, items, i));
      (x.out.Raise? ==> e == Effect(Raise(x.out.fault), x.trace)) &&
      (x.out.Value? && stopOnFail && x.out.value.exitCode != 0 ==> e == Effect(Value(done + [x.out.value]), x.trace)) &&
      (x.out.Value? && !(stopOnFail && x.out.value.exitCode != 0) ==>
        e == After(done + [x.out.value], RunItems(run, x.trace, stopOnFail, items, i + 1)))
  {
    var x := run(t, items[i], i);
    if x.out.Value? && !(stopOnFail && x.out.value.exitCode != 0) {
      var rest := RunItems(run, x.trace, stopOnFail, items, i + 1);
      if rest.out.Value? {
        assert done + ([x.out.value] + rest.out.value) == (done + [x.out.value]) + rest.out.value;
      }
    }
  }

  /** Every entry `run` records satisfies `describes` for the item it ran. */
  ghost predicate Records(run: EntryRunner, describes: (Json, nat, Result) -> bool) {
    forall t, item, index :: run(t, item, index).out.Value? ==> describes(item, index, run(t, item, index).out.value)
  }

  /** One entry per item run, in input order: the `k`-th entry is the `k`-th item's. */
  lemma {:induction false} RunItemsRecords(run: EntryRunner, describes: (Json, nat, Result) -> bool, t: Trace,
                                           stopOnFail: bool, items: seq<Json>, i: nat)
    requires Records(run, describes)
    requires i <= |items|
    ensures var e := RunItems(run, t, stopOnFail, items, i);
      e.out.Value? ==> forall k :: 0 <= k < |e.out.value| ==> describes(items[i + k], i + k, e.out.value[k])
    decreases |items| - i
  {
    if i < |items| {
      var x := run(t, items[i], i);
      if x.out.Value? && !(stopOnFail && x.out.value.exitCode != 0) {
        RunItemsRecords(run, describes, x.trace, stopOnFail, items, i + 1);
        var rest := RunItems(run, x.trace, stopOnFail, items, i + 1);
        if rest.out.Value? {
          var all := [x.out.value] + rest.out.value;
          forall k | 1 <= k < |all| ensures describes(items[i + k], i + k, all[k]) {
            assert all[k] == rest.out.value[k - 1] && i + k == (i + 1) + (k - 1);
          }
        }
      }
    }
  }

  /** With `stop_on_fail`, every entry but the last passed, and the loop ended
      before the last item only at a non-zero entry, which is recorded. */
  lemma {:induction false} StopOnFailStopsAtFirstFailure(run: EntryRunner, t: Trace, items: seq<Json>, i: nat)
    requires i <= |items|
    ensures var e := RunItems(run, t, true, items, i);
      e.out.Value? ==> forall k :: 0 <= k < |e.out.value| - 1 ==> e.out.value[k].exitCode == 0
    ensures var e := RunItems(run, t, true, items, i);
      e.out.Value? && |e.out.value| < |items| - i ==>
      |e.out.value| > 0 && e.out.value[|e.out.value| - 1].exitCode != 0
    decreases |items| - i
  {
    if i < |items| {
      var x := run(t, items[i], i);
      if x.out.Value? && x.out.value.exitCode == 0 {
        StopOnFailStopsAtFirstFailure(run, x.trace, items, i + 1);
        var rest := RunItems(run, x.trace, true, items, i + 1);
        if rest.out.Value? {
          var all := [x.out.value] + rest.out.value;
          assert forall k :: 1 <= k < |all| ==> all[k] == rest.out.value[k - 1];
        }
      }
    }
  }

  /** The loop from the first item: one entry per item run, in input order; every
      item runs without `stop_on_fail`, and with it the entries end at the first
      non-zero code, which is included. */
  lemma RunItemsFromStart(run: EntryRunner, describes: (Json, nat, Result) -> bool, t: Trace,
                          stopOnFail: bool, items: seq<Json>)
    requires Records(run, describes)
    requires RunItems(run, t, stopOnFail, items, 0).out.Value?
    ensures var rs := RunItems(run, t, stopOnFail, items, 0).out.value;
      |rs| <= |items| && (!stopOnFail ==> |rs| == |items|) &&
      (forall k :: 0 <= k < |rs| ==> describes(items[k], k, rs[k])) &&
      (stopOnFail ==> forall k :: 0 <= k < |rs| - 1 ==> rs[k].exitCode == 0) &&
      (stopOnFail && |rs| < |items| ==> |rs| > 0 && rs[|rs| - 1].exitCode != 0)
  {
    var rs := RunItems(run, t, stopOnFail, items, 0).out.value;
    RunItemsRecords(run, describes, t, stopOnFail, items, 0);
    forall k | 0 <= k < |rs| ensures describes(items[k], k, rs[k]) {
      assert 0 + k == k;
    }
    if stopOnFail {
      StopOnFailStopsAtFirstFailure(run, t, items, 0);
    }
  }
}
