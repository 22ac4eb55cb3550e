/** `run_flow_steps` and `load_flow`: the interpreter's loop over the steps of a
    flow, the settings it computes before the `try`, the driver it opens and
    quits, and the exit code it returns. One interpreter with a parameter for the
    actions it has branches for stands for both copies: `BaseActions` for
    `rm/selenium_flow_runner.py`, `SuiteActions` for the suite's. */
module FlowRunner {
  import opened Runtime
  import opened Interpolation
  import opened Session
  import opened FlowSteps
  import opened FlowExec

  /** How the loop over the steps ends: every step done, `return 1` at a failed
      assertion of step `at`, or an exception raised by step `at`. */
  datatype Halt = Completed(store: VarStore) | Mismatched(at: nat) | Failed(fault: Fault, at: nat)

  /** What stays fixed during one flow: the branches the interpreter has, whether
      OCR is available, and the default step timeout. */
  datatype Context = Context(handled: set<Action>, available: bool, defaultTimeout: int)

  /** The exit code of a loop that ends as `h`. */
  function Code(h: Halt): (code: int)
    ensures code == 0 <==> h.Completed?
    ensures code == 1 <==> h.Mismatched?
    ensures h.Failed? ==> code == ExitCode(h.fault) && 2 <= code <= 4
  {
    match h
    case Completed(_) => 0
    case Mismatched(_) => 1
    case Failed(f, _) => ExitCode(f)
  }

  /** One step: its validation, then, when that passes, its requests. */
  function Step(o: Oracle, t: Trace, ctx: Context, store: VarStore, step: Json): (e: Effect<StepEnd>)
    ensures Extends(t, e.trace)
    ensures PlanStep(ctx.handled, ctx.defaultTimeout, store, step).Raise? ==>
      e == Effect(Raise(PlanStep(ctx.handled, ctx.defaultTimeout, store, step).fault), t)
  {
    match PlanStep(ctx.handled, ctx.defaultTimeout, store, step)
    case Raise(f) => Effect(Raise(f), t)
    case Value(plan) => Exec(o, t, ctx.available, plan, store)
  }

  /** What running one step does, as a value: `Interpreter(o, ctx)` below is the
      step of the flow scripts; the loop and its properties hold for any step. */
  type Stepper = (Trace, VarStore, Json) -> Effect<StepEnd>

  function Interpreter(o: Oracle, ctx: Context): Stepper {
    (t, store, step) => Step(o, t, ctx, store, step)
  }

  /** The loop from step `i` on, with the variables as the earlier steps left them. */
  function RunFrom(run: Stepper, t: Trace, store: VarStore, steps: seq<Json>, i: nat): (e: Effect<Halt>)
    requires i <= |steps|
    ensures e.out.Value?
    ensures e.out.value.Mismatched? ==> i <= e.out.value.at < |steps|
    ensures e.out.value.Failed? ==> i <= e.out.value.at < |steps|
    decreases |steps| - i
  {
    if i == |steps| then Effect(Value(Completed(store)), t)
    else
      var x := run(t, store, steps[i]);
      match x.out
      case Raise(f) => Effect(Value(Failed(f, i)), x.trace)
      case Value(Mismatch) => Effect(Value(Mismatched(i)), x.trace)
      case Value(Next(s)) => RunFrom(run, x.trace, s, steps, i + 1)
  }

  /** The steps of a flow only make body requests. */
  lemma {:induction false} RunExtends(o: Oracle, t: Trace, ctx: Context, store: VarStore, steps: seq<Json>, i: nat)
    requires i <= |steps|
    ensures Extends(t, RunFrom(Interpreter(o, ctx), t, store, steps, i).trace)
    decreases |steps| - i
  {
    if i < |steps| {
      var x := Step(o, t, ctx, store, steps[i]);
      if x.out.Value? && x.out.value.Next? {
        RunExtends(o, x.trace, ctx, x.out.value.store, steps, i + 1);
        ExtendsTrans(t, x.trace, RunFrom(Interpreter(o, ctx), x.trace, x.out.value.store, steps, i + 1).trace);
      }
    }
  }

  /** `for step in container[key]`, where iteration starts with `get` on each
      item: a missing key is a KeyError; an empty string or object gives no items;
      a non-empty one gives items without `get` (characters, keys), which fail at
      the first; other values are not iterable. */
  function ItemsOf(m: map<string, Json>, key: string): (r: Outcome<seq<Json>>)
    ensures key !in m <==> r == Raise(KeyError)
    ensures key in m && m[key].JArr? ==> r == Value(m[key].items)
    ensures r.Value? ==> key in m && (m[key].JArr? || !Truthy(m[key]))
    ensures r.Raise? ==> r.fault == KeyError || r.fault == TypeError
  {
    if key !in m then Raise(KeyError)
    else
      match m[key]
      case JArr(items) => Value(items)
      case JStr(s) => if s == "" then Value([]) else Raise(TypeError)
      case JObj(f) => if f == map[] then Value([]) else Raise(TypeError)
      case _ => Raise(TypeError)
  }

  /** The settings handed in by the caller (the command line, or the suite). */
  datatype Overrides = Overrides(timeout: Option<int>, headless: bool, chromedriverPath: Json)

  /** The default step timeout: the caller's when it gave one, else `int(flow.get("timeout", 20))`. */
  function DefaultTimeout(cli: Overrides, flow: map<string, Json>): (r: Outcome<int>)
    ensures cli.timeout.Some? ==> r == Value(cli.timeout.value)
    ensures cli.timeout.None? && "timeout" in flow ==> r == ToInt(flow["timeout"])
    ensures cli.timeout.None? && "timeout" !in flow ==> r == Value(20)
  {
    if cli.timeout.Some? then Value(cli.timeout.value) else ToInt(Get(flow, "timeout", JNum(20)))
  }

  /** `bool(cli.headless or flow.get("headless", False))`. */
  function HeadlessOf(cli: Overrides, flow: map<string, Json>): (h: bool)
    ensures h <==> cli.headless || ("headless" in flow && Truthy(flow["headless"]))
  {
    cli.headless || Truthy(Get(flow, "headless", JBool(false)))
  }

  /** The caller's driver path when truthy, else the flow's (or none). */
  function DriverPathOf(cli: Overrides, flow: map<string, Json>): (p: Json)
    ensures Truthy(cli.chromedriverPath) ==> p == cli.chromedriverPath
    ensures !Truthy(cli.chromedriverPath) ==> p == Get(flow, "chromedriver_path", JNull)
  {
    if Truthy(cli.chromedriverPath) then cli.chromedriverPath else Get(flow, "chromedriver_path", JNull)
  }

  /** The body of the `try` once the driver exists: the loop over the items under
      `steps`, or, when they cannot be iterated, a failure before any step. */
  function FlowBody(o: Oracle, t: Trace, ctx: Context, store: VarStore, flow: map<string, Json>): (e: Effect<Halt>)
    ensures e.out.Value? && Extends(t, e.trace)
    ensures ItemsOf(flow, "steps").Raise? ==> e == Effect(Value(Failed(ItemsOf(flow, "steps").fault, 0)), t)
    ensures ItemsOf(flow, "steps").Value? ==> e == RunFrom(Interpreter(o, ctx), t, store, ItemsOf(flow, "steps").value, 0)
  {
    match ItemsOf(flow, "steps")
    case Raise(f) => Effect(Value(Failed(f, 0)), t)
    case Value(steps) => RunExtends(o, t, ctx, store, steps, 0); RunFrom(Interpreter(o, ctx), t, store, steps, 0)
  }

  /** `run_flow_steps(flow, cli_overrides)`. Only the timeout conversion before the
      `try` can raise; once inside, every outcome is an exit code, and the driver is
      quit when, and only when, it was created. */
  function RunFlowSteps(o: Oracle, t: Trace, handled: set<Action>, available: bool, flow: map<string, Json>, cli: Overrides)
    : (e: Effect<int>)
    ensures e.out.Raise? <==> DefaultTimeout(cli, flow).Raise?
    ensures e.out.Raise? ==> e == Effect(Raise(DefaultTimeout(cli, flow).fault), t)
    ensures e.out.Value? ==> 0 <= e.out.value <= 4
    ensures e.out.Value? ==>
      |e.trace| > |t| && e.trace[..|t| + 1] == t + [OpenDriver(HeadlessOf(cli, flow), DriverPathOf(cli, flow))]
  {
    var store := InitialStore(flow);
    var timeout := DefaultTimeout(cli, flow);
    if timeout.Raise? then Effect(Raise(timeout.fault), t)
    else
      var d := Ask(o, t, OpenDriver(HeadlessOf(cli, flow), DriverPathOf(cli, flow)));
      match d.out
      case Raise(f) => Effect(Value(ExitCode(f)), d.trace)
      case Value(_) =>
        var body := FlowBody(o, d.trace, Context(handled, available, timeout.value), store, flow);
        assert (body.trace + [Quit])[..|t| + 1] == body.trace[..|d.trace|];
        Effect(Value(Code(body.out.value)), body.trace + [Quit])
  }

  /** What the exit code of `run_flow_steps` means: a driver that cannot be
      created gives the code of its exception; otherwise the code is that of how
      the loop over the steps ended (0 when all ran, 1 at a failed assertion, the
      exception's code when a step raised), and `quit()` is the last request. */
  lemma RunFlowStepsCode(o: Oracle, t: Trace, handled: set<Action>, available: bool, flow: map<string, Json>, cli: Overrides)
    requires DefaultTimeout(cli, flow).Value?
    ensures var open := OpenDriver(HeadlessOf(cli, flow), DriverPathOf(cli, flow));
      o(t, open).Raise? ==>
        RunFlowSteps(o, t, handled, available, flow, cli) == Effect(Value(ExitCode(o(t, open).fault)), t + [open])
    ensures var open := OpenDriver(HeadlessOf(cli, flow), DriverPathOf(cli, flow));
      o(t, open).Value? ==>
        var body := FlowBody(o, t + [open], Context(handled, available, DefaultTimeout(cli, flow).value), InitialStore(flow), flow);
        RunFlowSteps(o, t, handled, available, flow, cli) == Effect(Value(Code(body.out.value)), body.trace + [Quit])
  {
  }

  /** `load_flow` on the decoded file: FileNotFoundError when it does not exist;
      ValueError unless it is an object with a list under `steps`; otherwise the
      object itself. A decoding error is raised as it is. */
  function LoadFlow(found: bool, data: Outcome<Json>): (r: Outcome<map<string, Json>>)
    ensures !found ==> r == Raise(FileNotFoundError)
    ensures found && data.Raise? ==> r == Raise(data.fault)
    ensures r.Value? <==> found && data.Value? && data.value.JObj? && "steps" in data.value.fields
                          && data.value.fields["steps"].JArr?
    ensures r.Value? ==> r.value == data.value.fields
    ensures found && data.Value? && r.Raise? ==> r.fault == ValueError
  {
    if !found then Raise(FileNotFoundError)
    else if data.Raise? then Raise(data.fault)
    else if !data.value.JObj? then Raise(ValueError)
    else if "steps" !in data.value.fields || !data.value.fields["steps"].JArr? then Raise(ValueError)
    else Value(data.value.fields)
  }

  /** `main` of `rm/selenium_flow_runner.py`: load the flow, run it with the base
      actions, and exit with its code. An exception raised while loading, or by
      the timeout conversion before the driver is opened, ends the process. The
      base runner has no captcha action, so no OCR is ever available to it. */
  function RunnerMain(o: Oracle, t: Trace, cli: Overrides, flowPath: string): (e: Effect<int>)
    ensures !(o(t, PathExists(flowPath)).Value? && Truthy(o(t, PathExists(flowPath)).value)) ==>
      e == Effect(Raise(FileNotFoundError), t + [PathExists(flowPath)])
    ensures e.out.Value? ==> 0 <= e.out.value <= 4
    ensures var t1 := t + [PathExists(flowPath), ReadJson(flowPath)];
      var flow := LoadFlow(true, o(t + [PathExists(flowPath)], ReadJson(flowPath)));
      o(t, PathExists(flowPath)).Value? && Truthy(o(t, PathExists(flowPath)).value) ==>
        (flow.Raise? ==> e == Effect(Raise(flow.fault), t1)) &&
        (flow.Value? ==> e == RunFlowSteps(o, t1, BaseActions, false, flow.value, cli))
  {
    var p := Ask(o, t, PathExists(flowPath));
    if !(p.out.Value? && Truthy(p.out.value)) then Effect(Raise(FileNotFoundError), p.trace)
    else
      var data := Ask(o, p.trace, ReadJson(flowPath));
      assert data.trace == t + [PathExists(flowPath), ReadJson(flowPath)];
      match LoadFlow(true, data.out)
      case Raise(f) => Effect(Raise(f), data.trace)
      case Value(flow) => RunFlowSteps(o, data.trace, BaseActions, false, flow, cli)
  }

  // ---------------------------------------------------------------------------
  // The interpreter against an `Env`

  /** The `for idx, step in enumerate(...)` loop: validate the step, run it, and
      stop at the first failed assertion or exception. */
  method StepCall(env: Env, ctx: Context, store: VarStore, step: Json) returns (r: Outcome<StepEnd>)
    modifies env
    ensures Effect(r, env.trace) == Step(env.oracle, old(env.trace), ctx, store, step)
  {
    var plan := PlanStep(ctx.handled, ctx.defaultTimeout, store, step);
    if plan.Raise? {
      return Raise(plan.fault);
    }
    r := ExecCall(env, ctx.available, plan.value, store);
  }

  method RunSteps(env: Env, ctx: Context, store0: VarStore, steps: seq<Json>) returns (halt: Halt)
    modifies env
    ensures Effect(Value(halt), env.trace) == RunFrom(Interpreter(env.oracle, ctx), old(env.trace), store0, steps, 0)
  {
    var store := store0;
    var i := 0;
    while i < |steps|
      invariant 0 <= i <= |steps|
      invariant RunFrom(Interpreter(env.oracle, ctx), old(env.trace), store0, steps, 0) ==
                RunFrom(Interpreter(env.oracle, ctx), env.trace, store, steps, i)
      decreases |steps| - i
    {
      var r := StepCall(env, ctx, store, steps[i]);
      if r.Raise? {
        return Failed(r.fault, i);
      }
      if r.value.Mismatch? {
        return Mismatched(i);
      }
      store := r.value.store;
      i := i + 1;
    }
    halt := Completed(store);
  }

  method RunFlowStepsCall(env: Env, handled: set<Action>, available: bool, flow: map<string, Json>, cli: Overrides)
    returns (r: Outcome<int>)
    modifies env
    ensures Effect(r, env.trace) == RunFlowSteps(env.oracle, old(env.trace), handled, available, flow, cli)
  {
    var store := InitialStore(flow);
    var timeout := DefaultTimeout(cli, flow);
    if timeout.Raise? {
      return Raise(timeout.fault);
    }
    var d := env.Call(OpenDriver(HeadlessOf(cli, flow), DriverPathOf(cli, flow)));
    if d.Raise? {
      return Value(ExitCode(d.fault));
    }
    var steps := ItemsOf(flow, "steps");
    var halt: Halt;
    if steps.Raise? {
      halt := Failed(steps.fault, 0);
    } else {
      halt := RunSteps(env, Context(handled, available, timeout.value), store, steps.value);
    }
    var _ := env.Call(Quit);
    r := Value(Code(halt));
  }

  method RunnerMainCall(env: Env, cli: Overrides, flowPath: string) returns (r: Outcome<int>)
    modifies env
    ensures Effect(r, env.trace) == RunnerMain(env.oracle, old(env.trace), cli, flowPath)
  {
    var p := env.Call(PathExists(flowPath));
    if !(p.Value? && Truthy(p.value)) {
      return Raise(FileNotFoundError);
    }
    var data := env.Call(ReadJson(flowPath));
    var flow := LoadFlow(true, data);
    if flow.Raise? {
      return Raise(flow.fault);
    }
    r := RunFlowStepsCall(env, BaseActions, false, flow.value, cli);
  }

  // ---------------------------------------------------------------------------
  // Properties of the interpreter

  /** Running a list of steps is running a prefix of it, then, when the prefix
      completes, the rest from where it stopped; when the prefix stops early the
      rest is never run. */
  lemma {:induction false} Compose(run: Stepper, t: Trace, store: VarStore, steps: seq<Json>, n: nat, i: nat)
    requires i <= n <= |steps|
    ensures var p := RunFrom(run, t, store, steps[..n], i);
      if p.out.value.Completed? then
        RunFrom(run, t, store, steps, i) == RunFrom(run, p.trace, p.out.value.store, steps, n)
      else
        RunFrom(run, t, store, steps, i) == p
    decreases n - i
  {
    if i < n {
      assert steps[..n][i] == steps[i];
      var x := run(t, store, steps[i]);
      if x.out.Value? && x.out.value.Next? {
        Compose(run, x.trace, x.out.value.store, steps, n, i + 1);
      }
    }
  }

  /** A failed assertion ends the loop: with `return 1` the steps after it are
      never run, whatever they are. */
  lemma MismatchStops(run: Stepper, t: Trace, store: VarStore, steps: seq<Json>, rest: seq<Json>)
    requires RunFrom(run, t, store, steps, 0).out.value.Mismatched?
    ensures RunFrom(run, t, store, steps + rest, 0) == RunFrom(run, t, store, steps, 0)
    ensures Code(RunFrom(run, t, store, steps + rest, 0).out.value) == 1
  {
    assert (steps + rest)[..|steps|] == steps;
    Compose(run, t, store, steps + rest, |steps|, 0);
  }

  /** A step that fails validation (a missing action, an unsupported one, a
      required field missing) after the steps before it completed ends the loop
      there with exit code 4: the earlier steps have taken effect, it and the
      later ones make no request. */
  lemma InvalidStepStops(o: Oracle, t: Trace, ctx: Context, store: VarStore, steps: seq<Json>, i: nat)
    requires i < |steps|
    requires var p := RunFrom(Interpreter(o, ctx), t, store, steps[..i], 0);
      p.out.value.Completed? && PlanStep(ctx.handled, ctx.defaultTimeout, p.out.value.store, steps[i]).Raise?
    ensures var p := RunFrom(Interpreter(o, ctx), t, store, steps[..i], 0);
      var e := RunFrom(Interpreter(o, ctx), t, store, steps, 0);
      e.trace == p.trace && e.out.value.Failed? && e.out.value.at == i && Code(e.out.value) == 4
  {
    Compose(Interpreter(o, ctx), t, store, steps, i, 0);
  }

  /** A step without an action, after steps that completed, gives exit code 4. */
  lemma MissingActionGivesFour(o: Oracle, t: Trace, ctx: Context, store: VarStore, steps: seq<Json>, i: nat)
    requires i < |steps| && steps[i].JObj? && !Truthy(Get(steps[i].fields, "action", JNull))
    requires RunFrom(Interpreter(o, ctx), t, store, steps[..i], 0).out.value.Completed?
    ensures RunFrom(Interpreter(o, ctx), t, store, steps, 0).out.value == Failed(ValueError, i)
    ensures RunFrom(Interpreter(o, ctx), t, store, steps, 0).trace == RunFrom(Interpreter(o, ctx), t, store, steps[..i], 0).trace
  {
    Compose(Interpreter(o, ctx), t, store, steps, i, 0);
  }

  /** Only a run of every step returns 0: when the whole list completes, so does
      every prefix of it. */
  lemma CompletedPrefixes(run: Stepper, t: Trace, store: VarStore, steps: seq<Json>)
    requires RunFrom(run, t, store, steps, 0).out.value.Completed?
    ensures forall n :: 0 <= n <= |steps| ==> RunFrom(run, t, store, steps[..n], 0).out.value.Completed?
  {
    forall n | 0 <= n <= |steps| ensures RunFrom(run, t, store, steps[..n], 0).out.value.Completed? {
      Compose(run, t, store, steps, n, 0);
    }
  }

  /** The driver is the first request; when it was created, the run ends with its
      one `quit()`, and nothing in between opens or quits a driver. */
  lemma QuitOnceIffCreated(o: Oracle, t: Trace, handled: set<Action>, available: bool, flow: map<string, Json>, cli: Overrides)
    requires Quits(t) == 0
    requires DefaultTimeout(cli, flow).Value?
    ensures var e := RunFlowSteps(o, t, handled, available, flow, cli);
      var created := o(t, OpenDriver(HeadlessOf(cli, flow), DriverPathOf(cli, flow))).Value?;
      Quits(e.trace) == (if created then 1 else 0) &&
      (created ==> e.trace[|e.trace| - 1] == Quit)
  {
    var d := OpenDriver(HeadlessOf(cli, flow), DriverPathOf(cli, flow));
    RunFlowStepsCode(o, t, handled, available, flow, cli);
    QuitsAppend(t, [d]);
    if o(t, d).Value? {
      var ctx := Context(handled, available, DefaultTimeout(cli, flow).value);
      var body := FlowBody(o, t + [d], ctx, InitialStore(flow), flow);
      ExtendsNoQuit(t + [d], body.trace);
      QuitsAppend(body.trace, [Quit]);
    }
  }

  /** Timeout precedence for an element step: the step's own `timeout`, else the
      caller's, else the flow's, else 20. */
  lemma TimeoutPrecedence(step: map<string, Json>, cli: Overrides, flow: map<string, Json>)
    requires DefaultTimeout(cli, flow).Value?
    ensures StepTimeout(step, DefaultTimeout(cli, flow).value) ==
      if "timeout" in step then ToInt(step["timeout"])
      else if cli.timeout.Some? then Value(cli.timeout.value)
      else if "timeout" in flow then ToInt(flow["timeout"])
      else Value(20)
  {
  }

  /** The base interpreter is the suite's restricted to its own actions: a step it
      accepts is planned the same way by the suite's. */
  lemma SuiteExtendsBase(d: int, store: VarStore, step: Json)
    requires PlanStep(BaseActions, d, store, step).Value?
    ensures PlanStep(SuiteActions, d, store, step) == PlanStep(BaseActions, d, store, step)
  {
  }

  /** A step whose action the interpreter has no branch for is an unsupported
      action: it raises, and the flow ends with 4. */
  lemma UnhandledActionRejected(handled: set<Action>, d: int, store: VarStore, m: map<string, Json>, name: string)
    requires "action" in m && m["action"] == JStr(name)
    requires ParseAction(name).None? || ParseAction(name).value !in handled
    ensures PlanStep(handled, d, store, JObj(m)).Raise?
    ensures ExitCode(PlanStep(handled, d, store, JObj(m)).fault) == 4
  {
  }

  /** The base interpreter has no branch for the suite's extra actions: a step
      naming one of them is an unsupported action there. */
  lemma BaseRejectsExtended(d: int, store: VarStore, m: map<string, Json>, a: Action)
    requires a in SuiteActions - BaseActions
    requires "action" in m && m["action"] == JStr(ActionName(a))
    ensures PlanStep(BaseActions, d, store, JObj(m)).Raise?
    ensures ExitCode(PlanStep(BaseActions, d, store, JObj(m)).fault) == 4
  {
    ParseActionName(a);
    UnhandledActionRejected(BaseActions, d, store, m, ActionName(a));
  }

  /** `switch_to_frame` has no branch in either interpreter. */
  lemma SwitchToFrameUnsupported(handled: set<Action>, d: int, store: VarStore, m: map<string, Json>)
    requires "action" in m && m["action"] == JStr("switch_to_frame")
    ensures PlanStep(handled, d, store, JObj(m)).Raise?
    ensures ExitCode(PlanStep(handled, d, store, JObj(m)).fault) == 4
  {
    assert ParseAction("switch_to_frame").None?;
    UnhandledActionRejected(handled, d, store, m, "switch_to_frame");
  }

  /** The fields of `{"action": "set_var", "name": k, "text": v}`. */
  lemma SetVarFields(d: int, vars: Vars, k: string, v: string)
    requires k != ""
    requires v != "" && forall c :: 0 <= c < |v| ==> v[c] != '}'
    ensures var m := map["action" := JStr("set_var"), "name" := JStr(k), "text" := JStr(v)];
      FieldsOf(Dict(vars), m) == Value(Fields(None, None, Some(v), None, None)) &&
      StepTimeout(m, d) == Value(d) && Get(m, "name", JNull) == JStr(k) && m["action"] == JStr("set_var")
  {
    NoCloseUnchanged(v, vars);
  }

  /** The planning of `{"action": "set_var", "name": k, "text": v}`. */
  lemma SetVarPlan(handled: set<Action>, d: int, vars: Vars, k: string, v: string)
    requires SetVar in handled && k != ""
    requires v != "" && forall c :: 0 <= c < |v| ==> v[c] != '}'
    ensures PlanStep(handled, d, Dict(vars), JObj(map["action" := JStr("set_var"), "name" := JStr(k), "text" := JStr(v)]))
      == Value(Store(JStr(k), v))
  {
    var m := map["action" := JStr("set_var"), "name" := JStr(k), "text" := JStr(v)];
    SetVarFields(d, vars, k, v);
    ParseStorageNames();
    PlanStepDispatch(handled, d, Dict(vars), m, "set_var", SetVar);
    assert BasePlan(SetVar, m, Fields(None, None, Some(v), None, None), d) == Value(Store(JStr(k), v));
  }

  /** The fields of `{"action": "goto", "url": "${k}"}` once `k` holds a value. */
  lemma GotoPlaceholderFields(d: int, vars: Vars, k: string)
    requires k in vars && vars[k] != ""
    requires k != "" && forall c :: 0 <= c < |k| ==> k[c] != '}'
    ensures var m := map["action" := JStr("goto"), "url" := JStr("${" + k + "}")];
      FieldsOf(Dict(vars), m) == Value(Fields(None, Some(vars[k]), None, None, None)) &&
      StepTimeout(m, d) == Value(d) && m["action"] == JStr("goto")
  {
    var m := map["action" := JStr("goto"), "url" := JStr("${" + k + "}")];
    PlaceholderReplaced(k, "", vars);
    assert "${" + k + "}" + "" == "${" + k + "}";
    assert Substitute("", vars) == "";
    var u := "${" + k + "}";
    assert Substitute(u, vars) == vars[k];
    assert Get(m, "url", JNull) == JStr(u) && Truthy(JStr(u));
    assert InterpolateIn(Dict(vars), u) == Value(vars[k]);
    assert Field(Dict(vars), m, "url") == Value(Some(vars[k]));
  }

  /** The planning of `{"action": "goto", "url": "${k}"}` once `k` holds `v`. */
  lemma GotoPlaceholderPlan(handled: set<Action>, d: int, vars: Vars, k: string)
    requires Goto in handled && k in vars && vars[k] != ""
    requires k != "" && forall c :: 0 <= c < |k| ==> k[c] != '}'
    ensures PlanStep(handled, d, Dict(vars), JObj(map["action" := JStr("goto"), "url" := JStr("${" + k + "}")]))
      == Value(Visit(vars[k]))
  {
    var m := map["action" := JStr("goto"), "url" := JStr("${" + k + "}")];
    GotoPlaceholderFields(d, vars, k);
    ParseNavigationNames();
    PlanStepDispatch(handled, d, Dict(vars), m, "goto", Goto);
    assert BasePlan(Goto, m, Fields(None, Some(vars[k]), None, None, None), d) == Value(Visit(vars[k]));
  }

  lemma SetVarStep(o: Oracle, t: Trace, ctx: Context, vars: Vars, k: string, v: string)
    requires SetVar in ctx.handled && k != ""
    requires v != "" && forall c :: 0 <= c < |v| ==> v[c] != '}'
    ensures Step(o, t, ctx, Dict(vars), JObj(map["action" := JStr("set_var"), "name" := JStr(k), "text" := JStr(v)]))
      == Effect(Value(Next(Dict(vars[k := v]))), t)
  {
    SetVarPlan(ctx.handled, ctx.defaultTimeout, vars, k, v);
  }

  lemma GotoPlaceholderStep(o: Oracle, t: Trace, ctx: Context, vars: Vars, k: string)
    requires Goto in ctx.handled && k in vars && vars[k] != ""
    requires k != "" && forall c :: 0 <= c < |k| ==> k[c] != '}'
    ensures Step(o, t, ctx, Dict(vars), JObj(map["action" := JStr("goto"), "url" := JStr("${" + k + "}")])).trace
      == t + [Navigate(JStr(vars[k]))]
  {
    GotoPlaceholderPlan(ctx.handled, ctx.defaultTimeout, vars, k);
  }

  /** Two steps, the first of which completes. */
  lemma TwoSteps(run: Stepper, t: Trace, store: VarStore, a: Json, b: Json)
    requires run(t, store, a).out.Value? && run(t, store, a).out.value.Next?
    ensures var x := run(t, store, a);
      var y := run(x.trace, x.out.value.store, b);
      RunFrom(run, t, store, [a, b], 0).trace == y.trace
  {
    var x := run(t, store, a);
    assert RunFrom(run, t, store, [a, b], 0) == RunFrom(run, x.trace, x.out.value.store, [a, b], 1);
    assert [a, b][1] == b;
    var y := run(x.trace, x.out.value.store, b);
    if y.out.Value? && y.out.value.Next? {
      assert RunFrom(run, y.trace, y.out.value.store, [a, b], 2).trace == y.trace;
    }
  }

  /** `set_var` threads into later steps: after `{"action": "set_var", "name": k,
      "text": v}`, a `goto` to `${k}` visits `v`. */
  lemma SetVarThenGoto(o: Oracle, t: Trace, ctx: Context, vars: Vars, k: string, v: string)
    requires SetVar in ctx.handled && Goto in ctx.handled
    requires k != "" && forall c :: 0 <= c < |k| ==> k[c] != '}'
    requires v != "" && forall c :: 0 <= c < |v| ==> v[c] != '}'
    ensures var steps := [JObj(map["action" := JStr("set_var"), "name" := JStr(k), "text" := JStr(v)]),
                          JObj(map["action" := JStr("goto"), "url" := JStr("${" + k + "}")])];
      RunFrom(Interpreter(o, ctx), t, Dict(vars), steps, 0).trace == t + [Navigate(JStr(v))]
  {
    var a := JObj(map["action" := JStr("set_var"), "name" := JStr(k), "text" := JStr(v)]);
    var b := JObj(map["action" := JStr("goto"), "url" := JStr("${" + k + "}")]);
    var vars2 := vars[k := v];
    SetVarStep(o, t, ctx, vars, k, v);
    GotoPlaceholderStep(o, t, ctx, vars2, k);
    TwoSteps(Interpreter(o, ctx), t, Dict(vars), a, b);
  }
}
