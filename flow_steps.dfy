/** The pure half of one step of `run_flow_steps`: every check a step makes
    before it touches the browser, the terminal or the file system. Both copies
    of the interpreter (the base one and the suite's extended one) do all of a
    step's validation first: the `action` check, the `int` of the step timeout,
    the interpolation of `selector`, `url`, `text`, `value` and `path` in that
    order, the dispatch on the action name, and the checks of the fields that
    action needs. The outcome is a `Plan`: what the step will then ask of the
    world, or the exception it raises without asking anything. */
module FlowSteps {
  import opened Runtime
  import opened Locators
  import opened Interpolation
  import opened Session
  import SeleniumOcr

  /** The action names the interpreters know. */
  datatype Action =
    | Goto | Type | Click | WaitPresence | WaitVisible | WaitClickable | Sleep
    | AssertPageContains | AssertPageNotContains | AssertElementContains | AssertElementNotContains
    | CheckErrorKeyword | Screenshot | SaveSource | SetVar
    | OcrCaptcha | SolveCaptcha | WaitUser | Prompt | SwitchToDefaultContent | SaveCookies | LoadCookies

  /** The names the `if action == ...` chains of the two interpreters test. */
  const ActionNames: set<string> := {
    "goto", "type", "click", "wait_presence", "wait_visible", "wait_clickable", "sleep",
    "assert_page_contains", "assert_page_not_contains", "assert_element_contains", "assert_element_not_contains",
    "check_error_keyword", "screenshot", "save_source", "set_var",
    "ocr_captcha", "solve_captcha", "wait_user", "prompt", "switch_to_default_content", "save_cookies", "load_cookies" }

  /** The name a step gives in its `action` field to ask for `a`. */
  function ActionName(a: Action): string {
    match a
    case Goto => "goto"
    case Type => "type"
    case Click => "click"
    case WaitPresence => "wait_presence"
    case WaitVisible => "wait_visible"
    case WaitClickable => "wait_clickable"
    case Sleep => "sleep"
    case AssertPageContains => "assert_page_contains"
    case AssertPageNotContains => "assert_page_not_contains"
    case AssertElementContains => "assert_element_contains"
    case AssertElementNotContains => "assert_element_not_contains"
    case CheckErrorKeyword => "check_error_keyword"
    case Screenshot => "screenshot"
    case SaveSource => "save_source"
    case SetVar => "set_var"
    case OcrCaptcha => "ocr_captcha"
    case SolveCaptcha => "solve_captcha"
    case WaitUser => "wait_user"
    case Prompt => "prompt"
    case SwitchToDefaultContent => "switch_to_default_content"
    case SaveCookies => "save_cookies"
    case LoadCookies => "load_cookies"
  }

  /** The `if action == ...` chain: the action a name selects, if any. */
  function ParseAction(s: string): (r: Option<Action>)
    ensures r.Some? ==> ActionName(r.value) == s
  {
    if s == "goto" then Some(Goto)
    else if s == "type" then Some(Type)
    else if s == "click" then Some(Click)
    else if s == "wait_presence" then Some(WaitPresence)
    else if s == "wait_visible" then Some(WaitVisible)
    else if s == "wait_clickable" then Some(WaitClickable)
    else if s == "sleep" then Some(Sleep)
    else if s == "assert_page_contains" then Some(AssertPageContains)
    else if s == "assert_page_not_contains" then Some(AssertPageNotContains)
    else if s == "assert_element_contains" then Some(AssertElementContains)
    else if s == "assert_element_not_contains" then Some(AssertElementNotContains)
    else if s == "check_error_keyword" then Some(CheckErrorKeyword)
    else if s == "screenshot" then Some(Screenshot)
    else if s == "save_source" then Some(SaveSource)
    else if s == "set_var" then Some(SetVar)
    else if s == "ocr_captcha" then Some(OcrCaptcha)
    else if s == "solve_captcha" then Some(SolveCaptcha)
    else if s == "wait_user" then Some(WaitUser)
    else if s == "prompt" then Some(Prompt)
    else if s == "switch_to_default_content" then Some(Action.SwitchToDefaultContent)
    else if s == "save_cookies" then Some(SaveCookies)
    else if s == "load_cookies" then Some(LoadCookies)
    else None
  }

  /** Every action is found under its own name: the two functions are inverse. */
  lemma ParseActionName(a: Action)
    ensures ParseAction(ActionName(a)) == Some(a)
  {
    ParseNavigationNames();
    ParsePageAssertionNames();
    ParseElementAssertionNames();
    ParseStorageNames();
    ParseCaptchaNames();
    ParseUserNames();
    ParseFrameNames();
    ParseCookieNames();
  }

  /** The chain selects an action for exactly the names it tests. */
  lemma ParseActionKnown(s: string)
    ensures ParseAction(s).None? <==> s !in ActionNames
  {
    if s in ActionNames {
      ParseNavigationNames();
      ParsePageAssertionNames();
      ParseElementAssertionNames();
      ParseStorageNames();
      ParseCaptchaNames();
      ParseUserNames();
      ParseFrameNames();
      ParseCookieNames();
    }
  }

  /** Every action's name is one the chain tests. */
  lemma ActionNameListed(a: Action)
    ensures ActionName(a) in ActionNames
  {
  }

  // The names of the chain, a few actions per group.
  lemma ParseNavigationNames()
    ensures ParseAction("goto") == Some(Goto)
    ensures ParseAction("type") == Some(Type)
    ensures ParseAction("click") == Some(Click)
    ensures ParseAction("wait_presence") == Some(WaitPresence)
    ensures ParseAction("wait_visible") == Some(WaitVisible)
    ensures ParseAction("wait_clickable") == Some(WaitClickable)
    ensures ParseAction("sleep") == Some(Sleep)
  {
  }

  lemma ParsePageAssertionNames()
    ensures ParseAction("assert_page_contains") == Some(AssertPageContains)
    ensures ParseAction("assert_page_not_contains") == Some(AssertPageNotContains)
  {
  }

  lemma ParseElementAssertionNames()
    ensures ParseAction("assert_element_contains") == Some(AssertElementContains)
    ensures ParseAction("assert_element_not_contains") == Some(AssertElementNotContains)
    ensures ParseAction("check_error_keyword") == Some(CheckErrorKeyword)
  {
  }

  lemma ParseStorageNames()
    ensures ParseAction("screenshot") == Some(Screenshot)
    ensures ParseAction("save_source") == Some(SaveSource)
    ensures ParseAction("set_var") == Some(SetVar)
  {
  }

  lemma ParseCaptchaNames()
    ensures ParseAction("ocr_captcha") == Some(OcrCaptcha)
    ensures ParseAction("solve_captcha") == Some(SolveCaptcha)
  {
  }

  lemma ParseUserNames()
    ensures ParseAction("wait_user") == Some(WaitUser)
    ensures ParseAction("prompt") == Some(Prompt)
  {
  }

  lemma ParseFrameNames()
    ensures ParseAction("switch_to_default_content") == Some(Action.SwitchToDefaultContent)
  {
  }

  lemma ParseCookieNames()
    ensures ParseAction("save_cookies") == Some(SaveCookies)
    ensures ParseAction("load_cookies") == Some(LoadCookies)
  {
  }

  /** The actions `rm/selenium_flow_runner.py` has a branch for. */
  const BaseActions: set<Action> := {
    Goto, Type, Click, WaitPresence, WaitVisible, WaitClickable, Sleep,
    AssertPageContains, AssertPageNotContains, AssertElementContains, AssertElementNotContains,
    CheckErrorKeyword, Screenshot, SaveSource, SetVar }

  /** The actions the suite's interpreter has a branch for: all of them. */
  const SuiteActions: set<Action> := BaseActions + {
    OcrCaptcha, SolveCaptcha, WaitUser, Prompt, Action.SwitchToDefaultContent, SaveCookies, LoadCookies }

  // ---------------------------------------------------------------------------
  // The variables

  /** The `variables` of a flow. A dictionary holds rendered values. A non-empty
      list has no `get`, so every lookup fails, but it takes stores at its
      positions, which leave its length as it was; only that length is kept. A
      truthy string, number or boolean fails at every lookup and every store. */
  datatype VarStore = Dict(vars: Vars) | Slots(size: nat) | Scalar

  /** `flow.get("variables", {}) or {}`, each value of a dictionary rendered with `str`. */
  function InitialStore(flow: map<string, Json>): (s: VarStore)
    ensures !Truthy(Get(flow, "variables", JObj(map[]))) ==> s == Dict(map[])
    ensures var j := Get(flow, "variables", JObj(map[]));
      j.JObj? ==>
        s.Dict? && s.vars.Keys == j.fields.Keys && forall k :: k in j.fields ==> s.vars[k] == Show(j.fields[k])
    ensures var j := Get(flow, "variables", JObj(map[]));
      j.JArr? ==> s == if j.items == [] then Dict(map[]) else Slots(|j.items|)
    ensures var j := Get(flow, "variables", JObj(map[]));
      Truthy(j) && !j.JObj? && !j.JArr? ==> s == Scalar
  {
    var j := Get(flow, "variables", JObj(map[]));
    if !Truthy(j) then Dict(map[])
    else if j.JObj? then Dict(map k | k in j.fields :: Show(j.fields[k]))
    else if j.JArr? then Slots(|j.items|)
    else Scalar
  }

  /** `_interpolate(s, variables)` for a string `s`: on a store that is not a
      dictionary the pass fails as soon as it has a placeholder to look up. */
  function InterpolateIn(store: VarStore, s: string): (r: Outcome<string>)
    ensures store.Dict? ==> r == Value(Substitute(s, store.vars))
    ensures !store.Dict? ==> (r.Raise? <==> HasMatch(s))
    ensures r.Value? ==> r.value == Substitute(s, if store.Dict? then store.vars else map[])
    ensures r.Raise? ==> r.fault == TypeError
  {
    match store
    case Dict(vars) => Value(Substitute(s, vars))
    case _ => if HasMatch(s) then Raise(TypeError) else (NoPlaceholderUnchanged(s, map[]); Value(s))
  }

  /** `variables[name] = v`. Into a dictionary, a string name stores; a number,
      boolean or `None` is a key no placeholder can name, so the lookups are as
      before; an array or an object cannot be a key. Into a list, a number or
      boolean is a position, and one outside the list is an `IndexError`; any other
      name is a `TypeError`, as is every store into a scalar. */
  function Assign(store: VarStore, name: Json, v: string): (r: Outcome<VarStore>)
    ensures store.Dict? && name.JStr? ==> r == Value(Dict(store.vars[name.s := v]))
    ensures store.Dict? && (name.JNull? || name.JBool? || name.JNum?) ==> r == Value(store)
    ensures store.Scalar? || name.JArr? || name.JObj? ==> r == Raise(TypeError)
    ensures store.Slots? && (name.JNull? || name.JStr?) ==> r == Raise(TypeError)
    ensures store.Slots? && (name.JNum? || name.JBool?) ==>
      (r.Value? <==> -(store.size as int) <= ToInt(name).value < store.size) &&
      (r.Value? ==> r.value == store) && (r.Raise? ==> r.fault == OtherException)
    ensures r.Value? ==> (r.value.Dict? <==> store.Dict?)
  {
    match store
    case Scalar => Raise(TypeError)
    case Slots(size) =>
      (match name
       case JNum(n) => if -(size as int) <= n < size then Value(store) else Raise(OtherException)
       case JBool(b) => if (if b then 1 else 0) < size then Value(store) else Raise(OtherException)
       case _ => Raise(TypeError))
    case Dict(vars) =>
      match name
      case JStr(k) => Value(Dict(vars[k := v]))
      case JArr(_) => Raise(TypeError)
      case JObj(_) => Raise(TypeError)
      case _ => Value(store)
  }

  // ---------------------------------------------------------------------------
  // The fields of a step

  /** `_interpolate(step.get(key), variables) if step.get(key) else None`. */
  function Field(store: VarStore, step: map<string, Json>, key: string): (r: Outcome<Option<string>>)
    ensures !Truthy(Get(step, key, JNull)) ==> r == Value(None)
    ensures Truthy(Get(step, key, JNull)) && !Get(step, key, JNull).JStr? ==> r == Raise(TypeError)
    ensures Get(step, key, JNull).JStr? && Truthy(Get(step, key, JNull)) ==>
      r == match InterpolateIn(store, Get(step, key, JNull).s)
           case Value(s) => Value(Some(s))
           case Raise(f) => Raise(f)
    ensures r.Raise? ==> r.fault == TypeError
  {
    var j := Get(step, key, JNull);
    if !Truthy(j) then Value(None)
    else if !j.JStr? then Raise(TypeError)
    else
      match InterpolateIn(store, j.s)
      case Value(s) => Value(Some(s))
      case Raise(f) => Raise(f)
  }

  /** The five interpolated fields of a step; `None` for one that is absent or falsy. */
  datatype Fields = Fields(selector: Option<string>, url: Option<string>, text: Option<string>,
                           value: Option<string>, path: Option<string>)

  /** The interpolations in the order the source makes them; the first failure is raised. */
  function FieldsOf(store: VarStore, step: map<string, Json>): (r: Outcome<Fields>)
    ensures r.Value? ==>
      Field(store, step, "selector") == Value(r.value.selector) &&
      Field(store, step, "url") == Value(r.value.url) &&
      Field(store, step, "text") == Value(r.value.text) &&
      Field(store, step, "value") == Value(r.value.value) &&
      Field(store, step, "path") == Value(r.value.path)
    ensures r.Raise? ==>
      exists key :: key in ["selector", "url", "text", "value", "path"] && Field(store, step, key) == Raise(r.fault)
  {
    var selector := Field(store, step, "selector");
    var url := Field(store, step, "url");
    var text := Field(store, step, "text");
    var value := Field(store, step, "value");
    var path := Field(store, step, "path");
    if selector.Raise? then Raise(selector.fault)
    else if url.Raise? then Raise(url.fault)
    else if text.Raise? then Raise(text.fault)
    else if value.Raise? then Raise(value.fault)
    else if path.Raise? then Raise(path.fault)
    else Value(Fields(selector.value, url.value, text.value, value.value, path.value))
  }

  /** Python truthiness of an interpolated field. */
  predicate Given(x: Option<string>) {
    x.Some? && x.value != ""
  }

  /** `a or b` on two interpolated fields. */
  function Or(a: Option<string>, b: Option<string>): (r: Option<string>)
    ensures Given(r) <==> Given(a) || Given(b)
    ensures Given(a) ==> r == a
  {
    if Given(a) then a else b
  }

  /** `x or default` for a field. */
  function OrText(x: Option<string>, default: string): (r: string)
    ensures Given(x) ==> r == x.value
    ensures !Given(x) ==> r == default
  {
    if Given(x) then x.value else default
  }

  /** `int(step.get("timeout", default_timeout))`. */
  function StepTimeout(step: map<string, Json>, defaultTimeout: int): (r: Outcome<int>)
    ensures "timeout" in step ==> r == ToInt(step["timeout"])
    ensures "timeout" !in step ==> r == Value(defaultTimeout)
  {
    ToInt(Get(step, "timeout", JNum(defaultTimeout)))
  }

  // ---------------------------------------------------------------------------
  // Plans

  /** What a validated step asks of the world. */
  datatype Plan =
    | OnPage(target: Locator, op: ElementOp, timeout: int)    // type, click, the three waits
    | Visit(url: string)                                      // goto
    | Wait(seconds: Json)                                     // sleep
    | PageHas(needle: string, expected: bool)                 // assert_page_(not_)contains
    | ElementHas(target: Locator, timeout: int, needle: string, expected: bool)
    | KeywordCheck                                            // check_error_keyword
    | Shoot(path: string)                                     // screenshot
    | DumpSource(path: string)                                // save_source
    | Store(name: Json, text: string)                         // set_var
    | ReadCaptcha(selector: string, name: Json, mode: Preprocessing) // ocr_captcha
    | Solve(form: SeleniumOcr.CaptchaForm, maxAttempts: int)  // solve_captcha
    | AwaitUser(message: string, seconds: Json)               // wait_user
    | Query(name: Json, message: string)                      // prompt
    | LeaveFrames                                             // switch_to_default_content
    | DumpCookies(path: string)                               // save_cookies
    | RestoreCookies(path: string)                            // load_cookies

  /** `_resolve_locator` on a field already checked to be given. */
  function Locate(sel: string, mk: Locator -> Plan): (r: Outcome<Plan>)
    ensures sel != "" ==> r == Value(mk(Classify(Strip(sel))))
    ensures r.Raise? ==> r.fault == ValueError
  {
    match ResolveLocator(Some(sel))
    case Value(loc) => Value(mk(loc))
    case Raise(f) => Raise(f)
  }

  /** An element action: the selector must be given. */
  function ElementStep(f: Fields, op: ElementOp, timeout: int): (r: Outcome<Plan>)
    ensures !Given(f.selector) ==> r == Raise(ValueError)
    ensures Given(f.selector) ==> r == Value(OnPage(Classify(Strip(f.selector.value)), op, timeout))
  {
    if !Given(f.selector) then Raise(ValueError)
    else Locate(f.selector.value, loc => OnPage(loc, op, timeout))
  }

  /** An element assertion: the selector, then the needle `text or value`, must be given. */
  function ElementAssertion(f: Fields, timeout: int, expected: bool): (r: Outcome<Plan>)
    ensures !Given(f.selector) || !Given(Or(f.text, f.value)) ==> r == Raise(ValueError)
    ensures Given(f.selector) && Given(Or(f.text, f.value)) ==>
      r == Value(ElementHas(Classify(Strip(f.selector.value)), timeout, Or(f.text, f.value).value, expected))
  {
    if !Given(f.selector) then Raise(ValueError)
    else
      var needle := Or(f.text, f.value);
      if !Given(needle) then Raise(ValueError)
      else Locate(f.selector.value, loc => ElementHas(loc, timeout, needle.value, expected))
  }

  /** A page assertion: the needle `text or value` must be given. */
  function PageAssertion(f: Fields, expected: bool): (r: Outcome<Plan>)
    ensures !Given(Or(f.text, f.value)) ==> r == Raise(ValueError)
    ensures Given(Or(f.text, f.value)) ==> r == Value(PageHas(Or(f.text, f.value).value, expected))
  {
    var needle := Or(f.text, f.value);
    if !Given(needle) then Raise(ValueError) else Value(PageHas(needle.value, expected))
  }

  /** An action on a path: the path must be given. */
  function PathStep(f: Fields, mk: string -> Plan): (r: Outcome<Plan>)
    ensures !Given(f.path) ==> r == Raise(ValueError)
    ensures Given(f.path) ==> r == Value(mk(f.path.value))
  {
    if !Given(f.path) then Raise(ValueError) else Value(mk(f.path.value))
  }

  /** The branches of the base interpreter, on an action known to be handled. */
  function BasePlan(a: Action, step: map<string, Json>, f: Fields, timeout: int): (r: Outcome<Plan>)
    requires a in BaseActions
    ensures r.Raise? ==> r.fault == ValueError
  {
    match a
    case Goto => if !Given(f.url) then Raise(ValueError) else Value(Visit(f.url.value))
    case Type => ElementStep(f, TypeKeys(JStr(OrText(f.text, ""))), timeout)
    case Click => ElementStep(f, ClickOn, timeout)
    case WaitPresence => ElementStep(f, WaitUntil(Presence), timeout)
    case WaitVisible => ElementStep(f, WaitUntil(Visibility), timeout)
    case WaitClickable => ElementStep(f, WaitUntil(Clickable), timeout)
    case Sleep => Value(Wait(Get(step, "seconds", JNum(1))))
    case AssertPageContains => PageAssertion(f, true)
    case AssertPageNotContains => PageAssertion(f, false)
    case AssertElementContains => ElementAssertion(f, timeout, true)
    case AssertElementNotContains => ElementAssertion(f, timeout, false)
    case CheckErrorKeyword => Value(KeywordCheck)
    case Screenshot => PathStep(f, p => Shoot(p))
    case SaveSource => PathStep(f, p => DumpSource(p))
    case SetVar =>
      var name := Get(step, "name", JNull);
      if !Truthy(name) then Raise(ValueError)
      else Value(Store(name, OrText(Or(f.text, f.value), "")))
  }

  /** The branches only the suite's interpreter has. `solve_captcha` reads its
      selectors raw, and converts `max_attempts` before it checks them. */
  function ExtendedPlan(a: Action, step: map<string, Json>, f: Fields): (r: Outcome<Plan>)
    requires a !in BaseActions
    ensures r.Raise? ==> r.fault == ValueError || r.fault == TypeError
  {
    match a
    case OcrCaptcha =>
      var name := Get(step, "name", JNull);
      if !Given(f.selector) then Raise(ValueError)
      else if !Truthy(name) then Raise(ValueError)
      else Value(ReadCaptcha(f.selector.value, name, SeleniumOcr.PreprocessingOf(Get(step, "preprocessing", JStr("default")))))
    case SolveCaptcha =>
      var captcha := Get(step, "captcha_selector", JNull);
      var input := Get(step, "input_selector", JNull);
      var submit := Get(step, "submit_selector", JNull);
      var maxAttempts := ToInt(Get(step, "max_attempts", JNum(3)));
      var mode := SeleniumOcr.PreprocessingOf(Get(step, "preprocessing", JStr("default")));
      if maxAttempts.Raise? then Raise(maxAttempts.fault)
      else if !Truthy(captcha) || !Truthy(input) then Raise(ValueError)
      else Value(Solve(SeleniumOcr.CaptchaForm(captcha, input, submit, mode), maxAttempts.value))
    case WaitUser =>
      Value(AwaitUser(OrText(Or(f.text, f.value), "请在浏览器内完成验证码后按回车继续..."),
                      Get(step, "seconds", JNum(30))))
    case Prompt =>
      var name := Get(step, "name", JNull);
      if !Truthy(name) then Raise(ValueError)
      else Value(Query(name, OrText(Or(f.text, f.value), "请输入 " + Show(name) + " 的值: ")))
    case SwitchToDefaultContent => Value(LeaveFrames)
    case SaveCookies => PathStep(f, p => DumpCookies(p))
    case LoadCookies => PathStep(f, p => RestoreCookies(p))
  }

  /** The validation of one step by an interpreter with branches for `handled`:
      a step that is not an object has no `get`; a falsy action is missing; then
      the timeout and the interpolations; then the dispatch, where a name without
      a branch is an unsupported action. */
  function PlanStep(handled: set<Action>, defaultTimeout: int, store: VarStore, step: Json): (r: Outcome<Plan>)
    ensures !step.JObj? ==> r == Raise(TypeError)
    ensures step.JObj? && !Truthy(Get(step.fields, "action", JNull)) ==> r == Raise(ValueError)
    ensures step.JObj? && Truthy(Get(step.fields, "action", JNull)) && StepTimeout(step.fields, defaultTimeout).Raise? ==>
      r == Raise(StepTimeout(step.fields, defaultTimeout).fault)
    ensures r.Raise? ==> r.fault == ValueError || r.fault == TypeError
    ensures r.Value? ==>
      step.JObj? && Get(step.fields, "action", JNull).JStr? &&
      var a := ParseAction(Get(step.fields, "action", JNull).s);
      a.Some? && a.value in handled
  {
    if !step.JObj? then Raise(TypeError)
    else
      var m := step.fields;
      var action := Get(m, "action", JNull);
      if !Truthy(action) then Raise(ValueError)
      else
        var timeout := StepTimeout(m, defaultTimeout);
        if timeout.Raise? then Raise(timeout.fault)
        else
          var fields := FieldsOf(store, m);
          if fields.Raise? then Raise(fields.fault)
          else
            var a := if action.JStr? then ParseAction(action.s) else None;
            if a.None? || a.value !in handled then Raise(ValueError)
            else if a.value in BaseActions then BasePlan(a.value, m, fields.value, timeout.value)
            else ExtendedPlan(a.value, m, fields.value)
  }

  /** A step whose checks pass goes to the branch of its action. */
  lemma PlanStepDispatch(handled: set<Action>, d: int, store: VarStore, m: map<string, Json>, name: string, a: Action)
    requires "action" in m && m["action"] == JStr(name) && name != ""
    requires ParseAction(name) == Some(a) && a in handled
    requires StepTimeout(m, d).Value? && FieldsOf(store, m).Value?
    ensures PlanStep(handled, d, store, JObj(m)) ==
      if a in BaseActions then BasePlan(a, m, FieldsOf(store, m).value, StepTimeout(m, d).value)
      else ExtendedPlan(a, m, FieldsOf(store, m).value)
  {
  }
}
