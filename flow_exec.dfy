/** The effectful half of one step of `run_flow_steps`: what a validated step
    asks of the browser, the terminal and the file system, and how the answers
    decide whether the flow goes on, stops on a failed assertion, or raises. */
module FlowExec {
  import opened Runtime
  import opened Locators
  import opened Session
  import opened FlowSteps
  import SeleniumCheck
  import SeleniumOcr

  /** How a step that did not raise ends: on to the next step with the variables
      as they now are, or `return 1` on a failed assertion. */
  datatype StepEnd = Next(store: VarStore) | Mismatch

  /** When `e` raises, what it raises is the answer to the last request it made. */
  predicate RaisedByLast<T>(o: Oracle, t: Trace, e: Effect<T>) {
    e.out.Raise? ==> |t| < |e.trace| && o(e.trace[..|e.trace| - 1], e.trace[|e.trace| - 1]) == Raise(e.out.fault)
  }

  /** A request whose answer is not used: only its failure matters. */
  function Done(e: Effect<Json>, store: VarStore): (r: Effect<StepEnd>)
    ensures r.trace == e.trace
    ensures r.out == if e.out.Raise? then Raise(e.out.fault) else Value(Next(store))
  {
    Effect(if e.out.Raise? then Raise(e.out.fault) else Value(Next(store)), e.trace)
  }

  /** A store into the variables after the requests that produced the value. */
  function Stored(o: Outcome<VarStore>, t: Trace): (r: Effect<StepEnd>)
    ensures r.trace == t
    ensures o.Value? ==> r.out == Value(Next(o.value))
    ensures o.Raise? ==> r.out == Raise(o.fault)
  {
    match o
    case Value(s) => Effect(Value(Next(s)), t)
    case Raise(f) => Effect(Raise(f), t)
  }

  /** The assertion on a text read from the page: the step passes when the
      needle's presence is the one expected. */
  function Verdict(text: string, needle: string, expected: bool, store: VarStore): (r: StepEnd)
    ensures r == Mismatch <==> Contains(text, needle) != expected
    ensures r != Mismatch ==> r == Next(store)
  {
    if Contains(text, needle) == expected then Next(store) else Mismatch
  }

  /** `assert_page_contains` / `assert_page_not_contains`: the body text, then the verdict. */
  function PageCheck(o: Oracle, t: Trace, needle: string, expected: bool, store: VarStore): (e: Effect<StepEnd>)
    ensures Extends(t, e.trace)
    ensures e.out.Value? <==> BodyText(o, t).out.Value?
    ensures e.out.Value? ==> e.out.value == Verdict(BodyText(o, t).out.value, needle, expected, store)
  {
    var p := BodyText(o, t);
    match p.out
    case Raise(f) => Effect(Raise(f), p.trace)
    case Value(text) => Effect(Value(Verdict(text, needle, expected, store)), p.trace)
  }

  /** `assert_element_*`: wait for the element to be visible, then the verdict on
      its text (`element.text or ""`). */
  function ElementCheck(o: Oracle, t: Trace, target: Locator, timeout: int, needle: string, expected: bool, store: VarStore)
    : (e: Effect<StepEnd>)
    ensures e.trace == t + [OnElement(target, ReadText, timeout)]
    ensures var reply := o(t, OnElement(target, ReadText, timeout));
      (reply.Raise? ==> e.out == Raise(reply.fault)) &&
      (reply.Value? ==> e.out == Value(Verdict(TextOf(reply.value), needle, expected, store)))
  {
    var r := Element(o, t, Value(target), ReadText, timeout);
    match r.out
    case Raise(f) => Effect(Raise(f), r.trace)
    case Value(j) => Effect(Value(Verdict(TextOf(j), needle, expected, store)), r.trace)
  }

  /** `check_error_keyword`: the flow stops with 1 when the body text holds the keyword. */
  function KeywordStep(o: Oracle, t: Trace, store: VarStore): (e: Effect<StepEnd>)
    ensures Extends(t, e.trace)
    ensures e.out.Value? ==>
      (e.out.value == Mismatch <==> BodyText(o, t).out.Value? && SeleniumCheck.ContainsErrorKeyword(BodyText(o, t).out.value))
  {
    var p := BodyText(o, t);
    match p.out
    case Raise(f) => Effect(Raise(f), p.trace)
    case Value(text) => Effect(Value(if SeleniumCheck.ContainsErrorKeyword(text) then Mismatch else Next(store)), p.trace)
  }

  /** `screenshot`: the parent directories, then the screenshot. A failure of
      either is raised; otherwise the flow goes on with the variables as they were. */
  function ShootStep(o: Oracle, t: Trace, path: string, store: VarStore): (e: Effect<StepEnd>)
    ensures Extends(t, e.trace) && e.out != Value(Mismatch)
    ensures var dirs := o(t, MakeParentDirs(path));
      dirs.Raise? ==> e == Effect(Raise(dirs.fault), t + [MakeParentDirs(path)])
    ensures var shot := o(t + [MakeParentDirs(path)], SaveScreenshot(path));
      o(t, MakeParentDirs(path)).Value? ==>
        e.trace == t + [MakeParentDirs(path), SaveScreenshot(path)] &&
        e.out == if shot.Raise? then Raise(shot.fault) else Value(Next(store))
  {
    var d := Ask(o, t, MakeParentDirs(path));
    if d.out.Raise? then Effect(Raise(d.out.fault), d.trace)
    else Done(Ask(o, d.trace, SaveScreenshot(path)), store)
  }

  /** `save_source`: the parent directories, the file opened, then the page source
      read (`or ""`) and written into it. The first of these requests that fails
      is the last one made, and its exception is raised. */
  function SourceStep(o: Oracle, t: Trace, path: string, store: VarStore): (e: Effect<StepEnd>)
    ensures Extends(t, e.trace) && e.out != Value(Mismatch)
    ensures |e.trace| <= |t| + 4
    ensures RaisedByLast(o, t, e)
    ensures e.out.Raise? && |e.trace| < |t| + 4 ==> e.trace <= t + [MakeParentDirs(path), OpenForWriting(path), PageSource]
    ensures var t2 := t + [MakeParentDirs(path), OpenForWriting(path)];
      e.out.Value? ==>
        o(t2, PageSource).Value? &&
        e.trace == t2 + [PageSource, WriteText(path, TextOf(o(t2, PageSource).value))] && e.out.value == Next(store)
  {
    var d := Ask(o, t, MakeParentDirs(path));
    if d.out.Raise? then Effect(Raise(d.out.fault), d.trace)
    else
      var f := Ask(o, d.trace, OpenForWriting(path));
      assert f.trace == t + [MakeParentDirs(path), OpenForWriting(path)];
      if f.out.Raise? then Effect(Raise(f.out.fault), f.trace)
      else
        var src := Ask(o, f.trace, PageSource);
        if src.out.Raise? then Effect(Raise(src.out.fault), src.trace)
        else Done(Ask(o, src.trace, WriteText(path, TextOf(src.out.value))), store)
  }

  /** `wait_user`: read a line; at end of input, sleep instead. */
  function AwaitStep(o: Oracle, t: Trace, message: string, seconds: Json, store: VarStore): (e: Effect<StepEnd>)
    ensures Extends(t, e.trace) && e.out != Value(Mismatch)
    ensures o(t, ReadLine(message)).Value? ==> e == Effect(Value(Next(store)), t + [ReadLine(message)])
    ensures var line := o(t, ReadLine(message));
      line.Raise? && line.fault != EOFError ==> e == Effect(Raise(line.fault), t + [ReadLine(message)])
    ensures var nap := o(t + [ReadLine(message)], Pause(seconds));
      o(t, ReadLine(message)) == Raise(EOFError) ==>
        e.trace == t + [ReadLine(message), Pause(seconds)] &&
        e.out == if nap.Raise? then Raise(nap.fault) else Value(Next(store))
  {
    var line := Ask(o, t, ReadLine(message));
    match line.out
    case Value(_) => Effect(Value(Next(store)), line.trace)
    case Raise(f) =>
      if f == EOFError then Done(Ask(o, line.trace, Pause(seconds)), store)
      else Effect(Raise(f), line.trace)
  }

  /** `prompt`: the line read is stored under `name`; at end of input, "" is. */
  function QueryStep(o: Oracle, t: Trace, name: Json, message: string, store: VarStore): (e: Effect<StepEnd>)
    ensures e.trace == t + [ReadLine(message)]
    ensures o(t, ReadLine(message)) == Raise(EOFError) ==> e == Stored(Assign(store, name, ""), e.trace)
    ensures o(t, ReadLine(message)).Value? ==> e == Stored(Assign(store, name, TextOf(o(t, ReadLine(message)).value)), e.trace)
  {
    var line := Ask(o, t, ReadLine(message));
    match line.out
    case Value(j) => Stored(Assign(store, name, TextOf(j)), line.trace)
    case Raise(f) =>
      if f == EOFError then Stored(Assign(store, name, ""), line.trace)
      else Effect(Raise(f), line.trace)
  }

  /** `save_cookies`: the parent directories, the file opened, the cookies read
      and dumped into it as JSON. The first of these requests that fails is the
      last one made, and its exception is raised. */
  function DumpCookiesStep(o: Oracle, t: Trace, path: string, store: VarStore): (e: Effect<StepEnd>)
    ensures Extends(t, e.trace) && e.out != Value(Mismatch)
    ensures |e.trace| <= |t| + 4
    ensures RaisedByLast(o, t, e)
    ensures e.out.Raise? && |e.trace| < |t| + 4 ==> e.trace <= t + [MakeParentDirs(path), OpenForWriting(path), GetCookies]
    ensures var t2 := t + [MakeParentDirs(path), OpenForWriting(path)];
      e.out.Value? ==>
        o(t2, GetCookies).Value? &&
        e.trace == t2 + [GetCookies, WriteJson(path, o(t2, GetCookies).value)] && e.out.value == Next(store)
  {
    var d := Ask(o, t, MakeParentDirs(path));
    if d.out.Raise? then Effect(Raise(d.out.fault), d.trace)
    else
      var f := Ask(o, d.trace, OpenForWriting(path));
      assert f.trace == t + [MakeParentDirs(path), OpenForWriting(path)];
      if f.out.Raise? then Effect(Raise(f.out.fault), f.trace)
      else
        var c := Ask(o, f.trace, GetCookies);
        if c.out.Raise? then Effect(Raise(c.out.fault), c.trace)
        else Done(Ask(o, c.trace, WriteJson(path, c.out.value)), store)
  }

  /** The cookie handed to `add_cookie`: the object without its `sameSite` key. */
  function WithoutSameSite(cookie: map<string, Json>): (c: map<string, Json>)
    ensures "sameSite" !in c
    ensures forall k :: k in cookie && k != "sameSite" ==> k in c && c[k] == cookie[k]
    ensures forall k :: k in c ==> k in cookie
  {
    cookie - {"sameSite"}
  }

  /** The `add_cookie` requests for `items`, in order: one for each object, which
      goes without its `sameSite` key; any other item asks for nothing. */
  function CookieAdds(items: seq<Json>): (rs: seq<Request>)
    ensures |rs| <= |items|
    ensures rs == [] <==> forall k :: 0 <= k < |items| ==> !items[k].JObj?
    ensures forall k :: 0 <= k < |rs| ==> rs[k].AddCookie? && rs[k].cookie.JObj? && "sameSite" !in rs[k].cookie.fields
  {
    if items == [] then []
    else
      var rest := CookieAdds(items[1..]);
      assert forall k :: 1 <= k < |items| ==> items[k] == items[1..][k - 1];
      (if items[0].JObj? then [AddCookie(JObj(WithoutSameSite(items[0].fields)))] else []) + rest
  }

  /** The `for ck in cookies` loop from position `i` on: each object is added
      without `sameSite`; anything that fails inside the `try` (an item with no
      `pop`, a refused cookie) is skipped, so the answers do not matter. */
  function AddFrom(t: Trace, items: seq<Json>, i: nat): (tr: Trace)
    requires i <= |items|
    ensures Extends(t, tr)
    ensures |tr| - |t| <= |items| - i
    ensures tr == t + CookieAdds(items[i..])
    decreases |items| - i
  {
    if i == |items| then t
    else
      var next := if items[i].JObj? then t + [AddCookie(JObj(WithoutSameSite(items[i].fields)))] else t;
      var rest := AddFrom(next, items, i + 1);
      ExtendsTrans(t, next, rest);
      assert items[i..][1..] == items[i + 1..];
      rest
  }

  /** Iterating the loaded cookies: a list item by item; a string or an object
      gives items without `pop` (characters, keys), all skipped; any other value
      is not iterable, and that error is outside the `try`. */
  function AddCookies(o: Oracle, t: Trace, cookies: Json): (e: Effect<()>)
    ensures Extends(t, e.trace)
    ensures e.out.Raise? <==> !(cookies.JArr? || cookies.JStr? || cookies.JObj?)
    ensures e.out.Raise? ==> e == Effect(Raise(TypeError), t)
    ensures cookies.JArr? ==> |e.trace| - |t| <= |cookies.items|
    ensures cookies.JArr? ==> e == Effect(Value(()), t + CookieAdds(cookies.items))
    ensures cookies.JStr? || cookies.JObj? ==> e == Effect(Value(()), t)
  {
    match cookies
    case JArr(items) => Effect(Value(()), AddFrom(t, items, 0))
    case JStr(_) => Effect(Value(()), t)
    case JObj(_) => Effect(Value(()), t)
    case _ => Effect(Raise(TypeError), t)
  }

  /** `load_cookies`: FileNotFoundError when the path does not exist; otherwise
      the JSON read and its cookies added. */
  function RestoreCookiesStep(o: Oracle, t: Trace, path: string, store: VarStore): (e: Effect<StepEnd>)
    ensures Extends(t, e.trace) && e.out != Value(Mismatch)
    ensures o(t, PathExists(path)).Value? && !Truthy(o(t, PathExists(path)).value) ==>
      e == Effect(Raise(FileNotFoundError), t + [PathExists(path)])
    ensures var found := o(t, PathExists(path));
      found.Raise? ==> e == Effect(Raise(found.fault), t + [PathExists(path)])
    ensures var t1 := t + [PathExists(path), ReadJson(path)];
      var data := o(t + [PathExists(path)], ReadJson(path));
      o(t, PathExists(path)).Value? && Truthy(o(t, PathExists(path)).value) ==>
        (data.Raise? ==> e == Effect(Raise(data.fault), t1)) &&
        (data.Value? ==>
          var a := AddCookies(o, t1, data.value);
          e.trace == a.trace && e.out == if a.out.Raise? then Raise(a.out.fault) else Value(Next(store)))
  {
    var x := Ask(o, t, PathExists(path));
    if x.out.Raise? then Effect(Raise(x.out.fault), x.trace)
    else if !Truthy(x.out.value) then Effect(Raise(FileNotFoundError), x.trace)
    else
      var j := Ask(o, x.trace, ReadJson(path));
      if j.out.Raise? then Effect(Raise(j.out.fault), j.trace)
      else
        var a := AddCookies(o, j.trace, j.out.value);
        ExtendsTrans(t, j.trace, a.trace);
        Effect(if a.out.Raise? then Raise(a.out.fault) else Value(Next(store)), a.trace)
  }

  /** `ocr_captcha` as a step: the recognised text is stored under `name`; the
      only error is OCR being unavailable (or a name that cannot be a key). */
  function RecogniseStep(o: Oracle, t: Trace, available: bool, selector: string, name: Json, mode: Preprocessing, store: VarStore)
    : (e: Effect<StepEnd>)
    ensures Extends(t, e.trace)
    ensures !available ==> e == Effect(Raise(RuntimeError), t)
    ensures available ==>
      var r := SeleniumOcr.OcrCaptcha(o, t, available, JStr(selector), mode, 10);
      e == Stored(Assign(store, name, r.out.value), r.trace)
  {
    var r := SeleniumOcr.OcrCaptcha(o, t, available, JStr(selector), mode, 10);
    match r.out
    case Raise(f) => Effect(Raise(f), r.trace)
    case Value(text) => Stored(Assign(store, name, text), r.trace)
  }

  /** One validated step. */
  function Exec(o: Oracle, t: Trace, available: bool, plan: Plan, store: VarStore): (e: Effect<StepEnd>)
    ensures Extends(t, e.trace)
    ensures e.out == Value(Mismatch) ==> plan.PageHas? || plan.ElementHas? || plan.KeywordCheck?
    ensures e.out.Value? && e.out.value.Next? && !(plan.Store? || plan.ReadCaptcha? || plan.Query?) ==>
      e.out.value.store == store
    ensures plan.Solve? ==> e.out == Value(Next(store))
  {
    match plan
    case OnPage(target, op, timeout) => Done(Element(o, t, Value(target), op, timeout), store)
    case Visit(url) => Done(Ask(o, t, Navigate(JStr(url))), store)
    case Wait(seconds) => Done(Ask(o, t, Pause(seconds)), store)
    case PageHas(needle, expected) => PageCheck(o, t, needle, expected, store)
    case ElementHas(target, timeout, needle, expected) => ElementCheck(o, t, target, timeout, needle, expected, store)
    case KeywordCheck => KeywordStep(o, t, store)
    case Shoot(path) => ShootStep(o, t, path, store)
    case DumpSource(path) => SourceStep(o, t, path, store)
    case Store(name, text) => Stored(Assign(store, name, text), t)
    case ReadCaptcha(selector, name, mode) => RecogniseStep(o, t, available, selector, name, mode, store)
    case Solve(form, maxAttempts) =>
      var r := SeleniumOcr.SolveCaptcha(o, t, available, true, form, maxAttempts);
      Effect(Value(Next(store)), r.trace)
    case AwaitUser(message, seconds) => AwaitStep(o, t, message, seconds, store)
    case Query(name, message) => QueryStep(o, t, name, message, store)
    case LeaveFrames => Done(Ask(o, t, Request.SwitchToDefaultContent), store)
    case DumpCookies(path) => DumpCookiesStep(o, t, path, store)
    case RestoreCookies(path) => RestoreCookiesStep(o, t, path, store)
  }

  // ---------------------------------------------------------------------------
  // The same, against an `Env`

  method ExecCall(env: Env, available: bool, plan: Plan, store: VarStore) returns (r: Outcome<StepEnd>)
    modifies env
    ensures Effect(r, env.trace) == Exec(env.oracle, old(env.trace), available, plan, store)
  {
    match plan
    case OnPage(target, op, timeout) =>
      var a := ElementCall(env, Value(target), op, timeout);
      r := if a.Raise? then Raise(a.fault) else Value(Next(store));
    case Visit(url) =>
      var a := env.Call(Navigate(JStr(url)));
      r := if a.Raise? then Raise(a.fault) else Value(Next(store));
    case Wait(seconds) =>
      var a := env.Call(Pause(seconds));
      r := if a.Raise? then Raise(a.fault) else Value(Next(store));
    case PageHas(needle, expected) =>
      var p := GetBodyText(env);
      r := if p.Raise? then Raise(p.fault) else Value(Verdict(p.value, needle, expected, store));
    case ElementHas(target, timeout, needle, expected) =>
      var a := ElementCall(env, Value(target), ReadText, timeout);
      r := if a.Raise? then Raise(a.fault) else Value(Verdict(TextOf(a.value), needle, expected, store));
    case KeywordCheck =>
      var p := GetBodyText(env);
      r := if p.Raise? then Raise(p.fault)
           else Value(if SeleniumCheck.ContainsErrorKeyword(p.value) then Mismatch else Next(store));
    case Shoot(path) => r := ShootCall(env, path, store);
    case DumpSource(path) => r := SourceCall(env, path, store);
    case Store(name, text) =>
      var s := Assign(store, name, text);
      r := if s.Raise? then Raise(s.fault) else Value(Next(s.value));
    case ReadCaptcha(selector, name, mode) =>
      var text := SeleniumOcr.OcrCaptchaCall(env, available, JStr(selector), mode, 10);
      if text.Raise? {
        r := Raise(text.fault);
      } else {
        var s := Assign(store, name, text.value);
        r := if s.Raise? then Raise(s.fault) else Value(Next(s.value));
      }
    case Solve(form, maxAttempts) =>
      var _ := SeleniumOcr.SolveSimpleCaptcha(env, available, true, form, maxAttempts);
      r := Value(Next(store));
    case AwaitUser(message, seconds) => r := AwaitCall(env, message, seconds, store);
    case Query(name, message) =>
      var line := env.Call(ReadLine(message));
      if line.Value? || line.fault == EOFError {
        var s := Assign(store, name, if line.Value? then TextOf(line.value) else "");
        r := if s.Raise? then Raise(s.fault) else Value(Next(s.value));
      } else {
        r := Raise(line.fault);
      }
    case LeaveFrames =>
      var a := env.Call(Request.SwitchToDefaultContent);
      r := if a.Raise? then Raise(a.fault) else Value(Next(store));
    case DumpCookies(path) => r := DumpCookiesCall(env, path, store);
    case RestoreCookies(path) => r := RestoreCookiesCall(env, path, store);
  }

  method ShootCall(env: Env, path: string, store: VarStore) returns (r: Outcome<StepEnd>)
    modifies env
    ensures Effect(r, env.trace) == ShootStep(env.oracle, old(env.trace), path, store)
  {
    var d := env.Call(MakeParentDirs(path));
    if d.Raise? {
      return Raise(d.fault);
    }
    var s := env.Call(SaveScreenshot(path));
    r := if s.Raise? then Raise(s.fault) else Value(Next(store));
  }

  method SourceCall(env: Env, path: string, store: VarStore) returns (r: Outcome<StepEnd>)
    modifies env
    ensures Effect(r, env.trace) == SourceStep(env.oracle, old(env.trace), path, store)
  {
    var d := env.Call(MakeParentDirs(path));
    if d.Raise? {
      return Raise(d.fault);
    }
    var f := env.Call(OpenForWriting(path));
    if f.Raise? {
      return Raise(f.fault);
    }
    var src := env.Call(PageSource);
    if src.Raise? {
      return Raise(src.fault);
    }
    var w := env.Call(WriteText(path, TextOf(src.value)));
    r := if w.Raise? then Raise(w.fault) else Value(Next(store));
  }

  method AwaitCall(env: Env, message: string, seconds: Json, store: VarStore) returns (r: Outcome<StepEnd>)
    modifies env
    ensures Effect(r, env.trace) == AwaitStep(env.oracle, old(env.trace), message, seconds, store)
  {
    var line := env.Call(ReadLine(message));
    if line.Value? {
      return Value(Next(store));
    }
    if line.fault != EOFError {
      return Raise(line.fault);
    }
    var p := env.Call(Pause(seconds));
    r := if p.Raise? then Raise(p.fault) else Value(Next(store));
  }

  method DumpCookiesCall(env: Env, path: string, store: VarStore) returns (r: Outcome<StepEnd>)
    modifies env
    ensures Effect(r, env.trace) == DumpCookiesStep(env.oracle, old(env.trace), path, store)
  {
    var d := env.Call(MakeParentDirs(path));
    if d.Raise? {
      return Raise(d.fault);
    }
    var f := env.Call(OpenForWriting(path));
    if f.Raise? {
      return Raise(f.fault);
    }
    var c := env.Call(GetCookies);
    if c.Raise? {
      return Raise(c.fault);
    }
    var w := env.Call(WriteJson(path, c.value));
    r := if w.Raise? then Raise(w.fault) else Value(Next(store));
  }

  /** The cookie loop itself. */
  method AddCookiesCall(env: Env, cookies: Json) returns (r: Outcome<()>)
    modifies env
    ensures Effect(r, env.trace) == AddCookies(env.oracle, old(env.trace), cookies)
  {
    if cookies.JStr? || cookies.JObj? {
      return Value(());
    }
    if !cookies.JArr? {
      return Raise(TypeError);
    }
    var items := cookies.items;
    var i := 0;
    while i < |items|
      invariant 0 <= i <= |items|
      invariant AddFrom(old(env.trace), items, 0) == AddFrom(env.trace, items, i)
    {
      if items[i].JObj? {
        var _ := env.Call(AddCookie(JObj(WithoutSameSite(items[i].fields))));
      }
      i := i + 1;
    }
    r := Value(());
  }

  method RestoreCookiesCall(env: Env, path: string, store: VarStore) returns (r: Outcome<StepEnd>)
    modifies env
    ensures Effect(r, env.trace) == RestoreCookiesStep(env.oracle, old(env.trace), path, store)
  {
    var x := env.Call(PathExists(path));
    if x.Raise? {
      return Raise(x.fault);
    }
    if !Truthy(x.value) {
      return Raise(FileNotFoundError);
    }
    var j := env.Call(ReadJson(path));
    if j.Raise? {
      return Raise(j.fault);
    }
    var a := AddCookiesCall(env, j.value);
    r := if a.Raise? then Raise(a.fault) else Value(Next(store));
  }
}
