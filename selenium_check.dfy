/** The single-login check: `contains_error_keyword` and `run_flow`, which logs
    in, optionally clicks through to a feature, and reports whether the page
    shows the word "error". */
module SeleniumCheck {
  import opened Runtime
  import opened Session

  // ---------------------------------------------------------------------------
  // contains_error_keyword

  /** A character that `\b` treats as part of a word (ASCII letters, digits, `_`). */
  predicate IsWordChar(c: char) {
    IsAsciiAlnum(c) || c == '_'
  }

  /** `error`, in any letter case, at position `i` of `s`, with no word character
      immediately before or after it. */
  predicate ErrorAt(s: string, i: int) {
    0 <= i && i + 5 <= |s|
    && LowerAscii(s[i]) == 'e' && LowerAscii(s[i + 1]) == 'r' && LowerAscii(s[i + 2]) == 'r'
    && LowerAscii(s[i + 3]) == 'o' && LowerAscii(s[i + 4]) == 'r'
    && (i == 0 || !IsWordChar(s[i - 1]))
    && (i + 5 == |s| || !IsWordChar(s[i + 5]))
  }

  /** The left-most match of the keyword at or after `i`, as `re.search` scans. */
  function FindError(s: string, i: nat): (r: Option<nat>)
    ensures r.Some? ==> i <= r.value && ErrorAt(s, r.value)
    ensures r.None? <==> forall k :: i <= k ==> !ErrorAt(s, k)
    ensures r.Some? ==> forall k :: i <= k < r.value ==> !ErrorAt(s, k)
    decreases |s| - i
  {
    if i + 5 > |s| then None
    else if ErrorAt(s, i) then Some(i)
    else FindError(s, i + 1)
  }

  /** `contains_error_keyword(text)`. */
  function ContainsErrorKeyword(text: string): (found: bool)
    ensures found <==> exists k :: ErrorAt(text, k)
    ensures text == [] ==> !found
  {
    if text == [] then false
    else FindError(text, 0).Some?
  }

  /** The keyword is found in any text where it stands between non-word characters. */
  lemma KeywordBetweenSeparators(pre: string, word: string, post: string)
    requires |word| == 5 && LowerAscii(word[0]) == 'e' && LowerAscii(word[1]) == 'r'
    requires LowerAscii(word[2]) == 'r' && LowerAscii(word[3]) == 'o' && LowerAscii(word[4]) == 'r'
    requires pre == [] || !IsWordChar(pre[|pre| - 1])
    requires post == [] || !IsWordChar(post[0])
    ensures ContainsErrorKeyword(pre + word + post)
  {
    var s := pre + word + post;
    assert s[|pre|..|pre| + 5] == word;
    assert |pre| > 0 ==> s[|pre| - 1] == pre[|pre| - 1];
    assert post != [] ==> s[|pre| + 5] == post[0];
    assert ErrorAt(s, |pre|);
  }

  /** "ERROR:" matches: the colon is not a word character. */
  lemma UpperCaseWithColon()
    ensures ContainsErrorKeyword("ERROR:")
  {
    KeywordBetweenSeparators("", "ERROR", ":");
    assert "" + "ERROR" + ":" == "ERROR:";
  }

  /** A letter, digit or underscore right next to the keyword spoils the match:
      "errors", "terror" and "_error" do not match. */
  lemma GluedToWordCharacters()
    ensures !ContainsErrorKeyword("errors")
    ensures !ContainsErrorKeyword("terror")
    ensures !ContainsErrorKeyword("_error")
  {
    var a, b, c := "errors", "terror", "_error";
    assert !ErrorAt(a, 0) && !ErrorAt(a, 1);
    assert !ErrorAt(b, 0) && !ErrorAt(b, 1);
    assert !ErrorAt(c, 0) && !ErrorAt(c, 1);
  }

  // ---------------------------------------------------------------------------
  // run_flow

  /** The arguments of `run_flow`, as the JSON values a caller hands over. */
  datatype LoginCase = LoginCase(
    url: Json, username: Json, password: Json,
    usernameSelector: Json, passwordSelector: Json, submitSelector: Json,
    featureSelector: Json, afterLoginWaitSelector: Json, postClickWaitSelector: Json,
    timeout: int, headless: bool, chromedriverPath: Json)

  /** One element helper of `run_flow` after the steps before it: skipped when
      an earlier one raised. */
  function Then(o: Oracle, prev: Effect<()>, selector: Json, op: ElementOp, timeout: int): (e: Effect<()>)
    ensures prev.out.Raise? ==> e == prev
    ensures Extends(prev.trace, e.trace)
    ensures e.out.Value? ==>
      prev.out.Value? && LocatorOf(selector).Value? &&
      e.trace == prev.trace + [OnElement(LocatorOf(selector).value, op, timeout)]
  {
    if prev.out.Raise? then prev
    else
      var s := Element(o, prev.trace, LocatorOf(selector), op, timeout);
      Effect(if s.out.Raise? then Raise(s.out.fault) else Value(()), s.trace)
  }

  /** An optional step: run only when its selector is truthy. */
  function ThenIf(o: Oracle, prev: Effect<()>, selector: Json, op: ElementOp, timeout: int): (e: Effect<()>)
    ensures !Truthy(selector) || prev.out.Raise? ==> e == prev
    ensures Extends(prev.trace, e.trace)
  {
    if Truthy(selector) then Then(o, prev, selector, op, timeout) else prev
  }

  /** The element steps of `run_flow` after navigation, in order: the two fields
      typed, the submit click, then each optional step whose selector is truthy. */
  function LoginSteps(o: Oracle, t: Trace, c: LoginCase): (e: Effect<()>)
    ensures Extends(t, e.trace)
  {
    var s1 := Then(o, Effect(Value(()), t), c.usernameSelector, TypeKeys(c.username), c.timeout);
    var s2 := Then(o, s1, c.passwordSelector, TypeKeys(c.password), c.timeout);
    var s3 := Then(o, s2, c.submitSelector, ClickOn, c.timeout);
    var s4 := ThenIf(o, s3, c.afterLoginWaitSelector, WaitUntil(Presence), c.timeout);
    var s5 := ThenIf(o, s4, c.featureSelector, ClickOn, c.timeout);
    var s6 := ThenIf(o, s5, c.postClickWaitSelector, WaitUntil(Presence), c.timeout);
    ExtendsTrans(t, s1.trace, s2.trace);
    ExtendsTrans(t, s2.trace, s3.trace);
    ExtendsTrans(t, s3.trace, s4.trace);
    ExtendsTrans(t, s4.trace, s5.trace);
    ExtendsTrans(t, s5.trace, s6.trace);
    s6
  }

  /** When every element step succeeds, exactly one element request was made
      for each of the three fixed steps and for each optional step whose selector is
      truthy, the first of them typing the user name. */
  lemma {:induction false} OptionalStepsRunWhenTruthy(o: Oracle, t: Trace, c: LoginCase)
    ensures var e := LoginSteps(o, t, c);
      e.out.Value? ==>
        |e.trace| == |t| + 3 + (if Truthy(c.afterLoginWaitSelector) then 1 else 0)
          + (if Truthy(c.featureSelector) then 1 else 0) + (if Truthy(c.postClickWaitSelector) then 1 else 0)
        && e.trace[|t|] == OnElement(LocatorOf(c.usernameSelector).value, TypeKeys(c.username), c.timeout)
  {
    var s1 := Then(o, Effect(Value(()), t), c.usernameSelector, TypeKeys(c.username), c.timeout);
    var s2 := Then(o, s1, c.passwordSelector, TypeKeys(c.password), c.timeout);
    var s3 := Then(o, s2, c.submitSelector, ClickOn, c.timeout);
    var s4 := ThenIf(o, s3, c.afterLoginWaitSelector, WaitUntil(Presence), c.timeout);
    var s5 := ThenIf(o, s4, c.featureSelector, ClickOn, c.timeout);
    var s6 := ThenIf(o, s5, c.postClickWaitSelector, WaitUntil(Presence), c.timeout);
    if s6.out.Value? {
      assert s6.trace[..|s1.trace|] == s1.trace by {
        ExtendsTrans(s1.trace, s2.trace, s3.trace);
        ExtendsTrans(s1.trace, s3.trace, s4.trace);
        ExtendsTrans(s1.trace, s4.trace, s5.trace);
        ExtendsTrans(s1.trace, s5.trace, s6.trace);
      }
      assert s6.trace[|t|] == s1.trace[|t|];
    }
  }

  /** The request an optional step makes when it succeeds: one on its own
      selector when that is truthy, none otherwise. */
  function Opt(selector: Json, op: ElementOp, timeout: int): (rs: seq<Request>)
    ensures |rs| == (if Truthy(selector) && LocatorOf(selector).Value? then 1 else 0)
  {
    if Truthy(selector) && LocatorOf(selector).Value? then [OnElement(LocatorOf(selector).value, op, timeout)] else []
  }

  /** A successful optional step appends exactly its `Opt` request. */
  lemma ThenIfTrace(o: Oracle, prev: Effect<()>, selector: Json, op: ElementOp, timeout: int)
    ensures var e := ThenIf(o, prev, selector, op, timeout);
      e.out.Value? ==> prev.out.Value? && e.trace == prev.trace + Opt(selector, op, timeout)
  {
  }

  /** The three fixed steps, when they all succeed: the user name typed, the
      password typed, then the submit click, each on its own selector. */
  lemma FixedSteps(o: Oracle, t: Trace, c: LoginCase)
    ensures var s1 := Then(o, Effect(Value(()), t), c.usernameSelector, TypeKeys(c.username), c.timeout);
      var s2 := Then(o, s1, c.passwordSelector, TypeKeys(c.password), c.timeout);
      var s3 := Then(o, s2, c.submitSelector, ClickOn, c.timeout);
      s3.out.Value? ==>
        s3.trace == t + [OnElement(LocatorOf(c.usernameSelector).value, TypeKeys(c.username), c.timeout),
                         OnElement(LocatorOf(c.passwordSelector).value, TypeKeys(c.password), c.timeout),
                         OnElement(LocatorOf(c.submitSelector).value, ClickOn, c.timeout)]
  {
    var s1 := Then(o, Effect(Value(()), t), c.usernameSelector, TypeKeys(c.username), c.timeout);
    var s2 := Then(o, s1, c.passwordSelector, TypeKeys(c.password), c.timeout);
    var s3 := Then(o, s2, c.submitSelector, ClickOn, c.timeout);
    if s3.out.Value? {
      assert s2.out.Value? && s1.out.Value?;
      var u := OnElement(LocatorOf(c.usernameSelector).value, TypeKeys(c.username), c.timeout);
      var p := OnElement(LocatorOf(c.passwordSelector).value, TypeKeys(c.password), c.timeout);
      var k := OnElement(LocatorOf(c.submitSelector).value, ClickOn, c.timeout);
      assert s1.trace == t + [u];
      assert s2.trace == t + [u] + [p];
      assert s3.trace == t + [u] + [p] + [k];
      assert t + [u] + [p] + [k] == t + [u, p, k];
    }
  }

  /** The order of `run_flow`'s element steps: when they all succeed, the trace
      holds the user name typed, the password typed and the submit click, then the
      wait after login, the feature click and the wait after that click, each
      present exactly when its selector is truthy. */
  lemma {:induction false} LoginStepsOrder(o: Oracle, t: Trace, c: LoginCase)
    ensures var e := LoginSteps(o, t, c);
      e.out.Value? ==>
        e.trace == t + [OnElement(LocatorOf(c.usernameSelector).value, TypeKeys(c.username), c.timeout),
                        OnElement(LocatorOf(c.passwordSelector).value, TypeKeys(c.password), c.timeout),
                        OnElement(LocatorOf(c.submitSelector).value, ClickOn, c.timeout)]
          + Opt(c.afterLoginWaitSelector, WaitUntil(Presence), c.timeout)
          + Opt(c.featureSelector, ClickOn, c.timeout)
          + Opt(c.postClickWaitSelector, WaitUntil(Presence), c.timeout)
  {
    var s1 := Then(o, Effect(Value(()), t), c.usernameSelector, TypeKeys(c.username), c.timeout);
    var s2 := Then(o, s1, c.passwordSelector, TypeKeys(c.password), c.timeout);
    var s3 := Then(o, s2, c.submitSelector, ClickOn, c.timeout);
    var s4 := ThenIf(o, s3, c.afterLoginWaitSelector, WaitUntil(Presence), c.timeout);
    var s5 := ThenIf(o, s4, c.featureSelector, ClickOn, c.timeout);
    var s6 := ThenIf(o, s5, c.postClickWaitSelector, WaitUntil(Presence), c.timeout);
    ThenIfTrace(o, s5, c.postClickWaitSelector, WaitUntil(Presence), c.timeout);
    ThenIfTrace(o, s4, c.featureSelector, ClickOn, c.timeout);
    ThenIfTrace(o, s3, c.afterLoginWaitSelector, WaitUntil(Presence), c.timeout);
    FixedSteps(o, t, c);
  }

  /** The body of the `try` in `run_flow` once the driver exists: 1 when the
      page text holds the keyword, 0 when not; a raised exception escapes. A
      value is given only after a successful body-text read that ends the trace,
      and it is 1 exactly when that text holds an error keyword. */
  function LoginBody(o: Oracle, t: Trace, c: LoginCase): (e: Effect<int>)
    ensures Extends(t, e.trace)
    ensures e.out.Value? ==> e.out.value == 0 || e.out.value == 1
    ensures e.out.Value? ==>
      exists t' :: Extends(t, t') && BodyText(o, t').out.Value? && BodyText(o, t').trace == e.trace &&
        (e.out.value == 1 <==> ContainsErrorKeyword(BodyText(o, t').out.value))
  {
    var nav := Ask(o, t, Navigate(c.url));
    if nav.out.Raise? then Effect(Raise(nav.out.fault), nav.trace)
    else
      var steps := LoginSteps(o, nav.trace, c);
      ExtendsTrans(t, nav.trace, steps.trace);
      if steps.out.Raise? then Effect(Raise(steps.out.fault), steps.trace)
      else
        var page := BodyText(o, steps.trace);
        ExtendsTrans(t, steps.trace, page.trace);
        match page.out
        case Raise(f) => Effect(Raise(f), page.trace)
        case Value(text) => Effect(Value(if ContainsErrorKeyword(text) then 1 else 0), page.trace)
  }

  /** `run_flow`: open a driver; run the body; map an exception to its exit code;
      quit the driver when, and only when, it was opened. When the driver cannot
      be opened the code is that failure's exit code; otherwise it is the body's
      keyword verdict, or the exit code of the exception the body raised. */
  function LoginFlow(o: Oracle, t: Trace, c: LoginCase): (e: Effect<int>)
    ensures e.out.Value? && 0 <= e.out.value <= 4
    ensures var open := OpenDriver(c.headless, c.chromedriverPath);
      o(t, open).Raise? ==> e.trace == t + [open] && e.out.value == ExitCode(o(t, open).fault)
    ensures var open := OpenDriver(c.headless, c.chromedriverPath);
      var b := LoginBody(o, t + [open], c);
      o(t, open).Value? ==>
        e.trace == b.trace + [Quit] &&
        (b.out.Value? ==> e.out.value == b.out.value) &&
        (b.out.Raise? ==> e.out.value == ExitCode(b.out.fault))
  {
    var d := Ask(o, t, OpenDriver(c.headless, c.chromedriverPath));
    match d.out
    case Raise(f) => Effect(Value(ExitCode(f)), d.trace)
    case Value(_) =>
      var b := LoginBody(o, d.trace, c);
      Effect(Value(match b.out case Value(k) => k case Raise(f) => ExitCode(f)), b.trace + [Quit])
  }

  method RunFlow(env: Env, c: LoginCase) returns (code: int)
    modifies env
    ensures Effect(Value(code), env.trace) == LoginFlow(env.oracle, old(env.trace), c)
  {
    var d := env.Call(OpenDriver(c.headless, c.chromedriverPath));
    if d.Raise? {
      return ExitCode(d.fault);
    }
    var b := Login(env, c);
    code := if b.Value? then b.value else ExitCode(b.fault);
    var _ := env.Call(Quit);
  }

  method Login(env: Env, c: LoginCase) returns (r: Outcome<int>)
    modifies env
    ensures Effect(r, env.trace) == LoginBody(env.oracle, old(env.trace), c)
  {
    var nav := env.Call(Navigate(c.url));
    if nav.Raise? {
      return Raise(nav.fault);
    }
    var steps := LoginElementSteps(env, c);
    if steps.Raise? {
      return Raise(steps.fault);
    }
    var page := GetBodyText(env);
    if page.Raise? {
      return Raise(page.fault);
    }
    r := Value(if ContainsErrorKeyword(page.value) then 1 else 0);
  }

  method LoginElementSteps(env: Env, c: LoginCase) returns (r: Outcome<()>)
    modifies env
    ensures Effect(r, env.trace) == LoginSteps(env.oracle, old(env.trace), c)
  {
    ghost var o, t := env.oracle, env.trace;
    ghost var s1 := Then(o, Effect(Value(()), t), c.usernameSelector, TypeKeys(c.username), c.timeout);
    ghost var s2 := Then(o, s1, c.passwordSelector, TypeKeys(c.password), c.timeout);
    ghost var s3 := Then(o, s2, c.submitSelector, ClickOn, c.timeout);
    ghost var s4 := ThenIf(o, s3, c.afterLoginWaitSelector, WaitUntil(Presence), c.timeout);
    ghost var s5 := ThenIf(o, s4, c.featureSelector, ClickOn, c.timeout);
    var s := ElementCall(env, LocatorOf(c.usernameSelector), TypeKeys(c.username), c.timeout);
    if s.Raise? {
      return Raise(s.fault);
    }
    s := ElementCall(env, LocatorOf(c.passwordSelector), TypeKeys(c.password), c.timeout);
    if s.Raise? {
      return Raise(s.fault);
    }
    s := ElementCall(env, LocatorOf(c.submitSelector), ClickOn, c.timeout);
    if s.Raise? {
      return Raise(s.fault);
    }
    assert Effect(Value(()), env.trace) == s3;
    if Truthy(c.afterLoginWaitSelector) {
      s := ElementCall(env, LocatorOf(c.afterLoginWaitSelector), WaitUntil(Presence), c.timeout);
      if s.Raise? {
        return Raise(s.fault);
      }
    }
    assert Effect(Value(()), env.trace) == s4;
    if Truthy(c.featureSelector) {
      s := ElementCall(env, LocatorOf(c.featureSelector), ClickOn, c.timeout);
      if s.Raise? {
        return Raise(s.fault);
      }
    }
    assert Effect(Value(()), env.trace) == s5;
    if Truthy(c.postClickWaitSelector) {
      s := ElementCall(env, LocatorOf(c.postClickWaitSelector), WaitUntil(Presence), c.timeout);
      if s.Raise? {
        return Raise(s.fault);
      }
    }
    r := Value(());
  }

  /** The fixed order of `run_flow`: the driver is opened first, the login page
      visited, and once the driver exists the trace ends with the single quit. */
  lemma {:induction false} LoginOrder(o: Oracle, t: Trace, c: LoginCase)
    ensures var e := LoginFlow(o, t, c);
      |e.trace| > |t| && e.trace[|t|] == OpenDriver(c.headless, c.chromedriverPath)
    ensures o(t, OpenDriver(c.headless, c.chromedriverPath)).Value? ==>
      var e := LoginFlow(o, t, c);
      |e.trace| >= |t| + 2 && e.trace[|t| + 1] == Navigate(c.url) && e.trace[|e.trace| - 1] == Quit
  {
    var d := OpenDriver(c.headless, c.chromedriverPath);
    var e := LoginFlow(o, t, c);
    assert (t + [d])[|t|] == d;
    if o(t, d).Value? {
      var b := LoginBody(o, t + [d], c);
      var nav := Ask(o, t + [d], Navigate(c.url));
      assert b.trace[..|t| + 2] == nav.trace by {
        if nav.out.Value? {
          var steps := LoginSteps(o, nav.trace, c);
          var page := BodyText(o, steps.trace);
          ExtendsTrans(nav.trace, steps.trace, page.trace);
        }
      }
      assert e.trace == b.trace + [Quit];
      assert e.trace[|t| + 1] == b.trace[..|t| + 2][|t| + 1];
    }
  }

  /** `quit()` is requested exactly once when the driver was created and never
      otherwise; nothing in between opens another driver. */
  lemma QuitOnceIffCreated(o: Oracle, t: Trace, c: LoginCase)
    requires Quits(t) == 0
    ensures var e := LoginFlow(o, t, c);
      Quits(e.trace) == if o(t, OpenDriver(c.headless, c.chromedriverPath)).Value? then 1 else 0
  {
    var d := OpenDriver(c.headless, c.chromedriverPath);
    QuitsAppend(t, [d]);
    if o(t, d).Value? {
      var b := LoginBody(o, t + [d], c);
      ExtendsNoQuit(t + [d], b.trace);
      QuitsAppend(b.trace, [Quit]);
    }
  }

}
