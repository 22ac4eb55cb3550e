/** Everything the flow scripts ask of the world outside them: the Chrome driver,
    the file system, the terminal and the OCR engine. Each such request is one
    entry of a trace; what the world answers is a function of the trace so far
    (the oracle), so a run is determined by the oracle and its inputs. The
    helpers shared by all the scripts (`_type`, `_click`, the waits,
    `get_body_text`) and the exception-to-exit-code rule live here too. */
module Session {
  import opened Runtime
  import opened Locators

  /** The three expected conditions the scripts wait for. */
  datatype Condition = Presence | Visibility | Clickable

  /** The image preprocessing `preprocess_image` applies before OCR. */
  datatype Preprocessing = Binary | Grayscale | Denoise | Default

  /** What is done to the element a locator finds, once `WebDriverWait` has it. */
  datatype ElementOp =
    | WaitUntil(condition: Condition)  // the wait alone
    | TypeKeys(text: Json)             // visibility wait, `clear()`, `send_keys(text)`
    | ClickOn                          // clickable wait, `click()`
    | ReadText                         // visibility wait, `element.text`
    | Recognize(mode: Preprocessing)   // presence wait, the captcha image, preprocessing, raw OCR text

  datatype Request =
    | OpenDriver(headless: bool, driverPath: Json)  // `create_webdriver`
    | Navigate(url: Json)                           // `driver.get(url)`
    | OnElement(target: Locator, op: ElementOp, timeout: int)
    | BodyElementText                               // `find_element(By.TAG_NAME, "body").text`
    | PageSource                                    // `driver.page_source`
    | Pause(seconds: Json)                          // `time.sleep(float(seconds))`
    | MakeParentDirs(path: string)                  // `os.makedirs(os.path.dirname(path) or ".")`
    | SaveScreenshot(path: string)
    | OpenForWriting(path: string)                  // `open(path, "w")`, which creates or empties the file
    | WriteText(path: string, contents: string)     // writing into the file just opened
    | ReadLine(message: string)                     // `input(message)`
    | SwitchToDefaultContent
    | GetCookies
    | WriteJson(path: string, data: Json)           // `json.dump` into the file just opened
    | PathExists(path: string)
    | ReadJson(path: string)                        // `json.load` of a file
    | AddCookie(cookie: Json)
    | Quit                                          // `driver.quit()`

  type Reply = Outcome<Json>
  type Trace = seq<Request>
  type Oracle = (Trace, Request) -> Reply

  /** The world as the scripts see it: every request is recorded, and answered by
      the oracle from the requests made before it. */
  class Env {
    const oracle: Oracle
    var trace: Trace

    constructor (oracle: Oracle)
      ensures this.oracle == oracle && trace == []
    {
      this.oracle := oracle;
      trace := [];
    }

    method Call(r: Request) returns (reply: Reply)
      modifies this
      ensures trace == old(trace) + [r]
      ensures reply == oracle(old(trace), r)
    {
      reply := oracle(trace, r);
      trace := trace + [r];
    }
  }

  /** The result of a computation that talks to the world, with the trace it leaves. */
  datatype Effect<+T> = Effect(out: Outcome<T>, trace: Trace)

  function Ask(o: Oracle, t: Trace, r: Request): Effect<Json> {
    Effect(o(t, r), t + [r])
  }

  /** Requests a flow body may make: anything but opening or quitting a driver. */
  predicate InBody(r: Request) {
    !r.OpenDriver? && !r.Quit?
  }

  /** `t2` is `t` followed by body requests only. */
  predicate Extends(t: Trace, t2: Trace) {
    |t| <= |t2| && t2[..|t|] == t && forall k :: |t| <= k < |t2| ==> InBody(t2[k])
  }

  lemma ExtendsTrans(t1: Trace, t2: Trace, t3: Trace)
    requires Extends(t1, t2) && Extends(t2, t3)
    ensures Extends(t1, t3)
  {
    assert t3[..|t1|] == t3[..|t2|][..|t1|];
  }

  /** A request that runs the OCR engine on a captcha. */
  predicate Recognises(r: Request) {
    r.OnElement? && r.op.Recognize?
  }

  /** `t2` extends `t` by body requests none of which runs the OCR engine. */
  predicate Quiet(t: Trace, t2: Trace) {
    Extends(t, t2) && forall k :: |t| <= k < |t2| ==> !Recognises(t2[k])
  }

  lemma QuietTrans(t1: Trace, t2: Trace, t3: Trace)
    requires Quiet(t1, t2) && Quiet(t2, t3)
    ensures Quiet(t1, t3)
  {
    ExtendsTrans(t1, t2, t3);
  }

  /** The number of `Quit` requests in a trace. */
  function Quits(t: Trace): (n: nat)
    ensures n <= |t|
    ensures n == 0 <==> forall k :: 0 <= k < |t| ==> !t[k].Quit?
  {
    if t == [] then 0 else Quits(t[..|t| - 1]) + (if t[|t| - 1].Quit? then 1 else 0)
  }

  lemma {:induction false} QuitsAppend(a: Trace, b: Trace)
    ensures Quits(a + b) == Quits(a) + Quits(b)
    decreases |b|
  {
    if b == [] {
      assert a + b == a;
    } else {
      assert (a + b)[..|a + b| - 1] == a + b[..|b| - 1];
      QuitsAppend(a, b[..|b| - 1]);
    }
  }

  /** A trace that extends another by body requests adds no `Quit`. */
  lemma ExtendsNoQuit(t: Trace, t2: Trace)
    requires Extends(t, t2)
    ensures Quits(t2) == Quits(t)
  {
    assert t2 == t + t2[|t|..];
    QuitsAppend(t, t2[|t|..]);
  }

  /** The `except` clauses around a flow: Selenium's timeout and missing-element
      errors first, then every other driver error, then anything else. */
  function ExitCode(f: Fault): (code: int)
    ensures code == 2 <==> f.TimeoutException? || f.NoSuchElementException?
    ensures code == 3 <==> f.WebDriverException?
    ensures code == 4 <==> !IsWebDriverException(f)
  {
    if f.TimeoutException? || f.NoSuchElementException? then 2
    else if IsWebDriverException(f) then 3
    else 4
  }

  /** `_resolve_locator` applied to a decoded JSON value: a falsy value fails the
      emptiness check, a string is resolved, and anything else has no `strip`. */
  function LocatorOf(j: Json): (r: Outcome<Locator>)
    ensures !Truthy(j) ==> r == Raise(ValueError)
    ensures j.JStr? ==> r == ResolveLocator(Some(j.s))
    ensures Truthy(j) && !j.JStr? ==> r == Raise(TypeError)
  {
    if !Truthy(j) then Raise(ValueError)
    else if j.JStr? then ResolveLocator(Some(j.s))
    else Raise(TypeError)
  }

  /** One element helper (`_type`, `_click`, `_wait_*`, an element's text): the
      locator is resolved first, and a selector that does not resolve raises
      without making any request. */
  function Element(o: Oracle, t: Trace, target: Outcome<Locator>, op: ElementOp, timeout: int): (e: Effect<Json>)
    ensures target.Raise? ==> e == Effect(Raise(target.fault), t)
    ensures target.Value? ==> e.trace == t + [OnElement(target.value, op, timeout)]
    ensures Extends(t, e.trace)
    ensures !op.Recognize? ==> Quiet(t, e.trace)
  {
    match target
    case Raise(f) => Effect(Raise(f), t)
    case Value(loc) => Ask(o, t, OnElement(loc, op, timeout))
  }

  method ElementCall(env: Env, target: Outcome<Locator>, op: ElementOp, timeout: int) returns (r: Reply)
    modifies env
    ensures Effect(r, env.trace) == Element(env.oracle, old(env.trace), target, op, timeout)
  {
    match target
    case Raise(f) => r := Raise(f);
    case Value(loc) => r := env.Call(OnElement(loc, op, timeout));
  }

  /** `get_body_text`: the body element's text, or "" when it has none; when
      reading the body fails, the page source (or "") instead. A failure to read
      the page source is not caught. */
  function BodyText(o: Oracle, t: Trace): (e: Effect<string>)
    ensures o(t, BodyElementText).Value? ==>
      e == Effect(Value(TextOf(o(t, BodyElementText).value)), t + [BodyElementText])
    ensures o(t, BodyElementText).Raise? ==>
      var t1 := t + [BodyElementText];
      e.trace == t1 + [PageSource] &&
      e.out == match o(t1, PageSource) case Value(j) => Value(TextOf(j)) case Raise(f) => Raise(f)
    ensures Quiet(t, e.trace)
  {
    var b := Ask(o, t, BodyElementText);
    match b.out
    case Value(j) => Effect(Value(TextOf(j)), b.trace)
    case Raise(_) =>
      var p := Ask(o, b.trace, PageSource);
      match p.out
      case Value(j) => Effect(Value(TextOf(j)), p.trace)
      case Raise(f) => Effect(Raise(f), p.trace)
  }

  method GetBodyText(env: Env) returns (r: Outcome<string>)
    modifies env
    ensures Effect(r, env.trace) == BodyText(env.oracle, old(env.trace))
  {
    var b := env.Call(BodyElementText);
    if b.Value? {
      return Value(TextOf(b.value));
    }
    var p := env.Call(PageSource);
    if p.Value? {
      r := Value(TextOf(p.value));
    } else {
      r := Raise(p.fault);
    }
  }
}
