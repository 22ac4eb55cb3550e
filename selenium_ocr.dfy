/** The captcha helpers: the clean-up of raw OCR output, `ocr_captcha`'s error
    policy, the bounded retry loop of `solve_simple_captcha`, and the guards of
    `CaptchaSolver`. The image work itself (fetching the image, OpenCV
    preprocessing, Tesseract) is one `Recognize` request answered by the oracle
    with the engine's raw text. Whether the OCR libraries imported is the
    parameter `available`. */
module SeleniumOcr {
  import opened Runtime
  import opened Session

  /** `re.sub(r'[^a-zA-Z0-9]', '', s)`: the ASCII letters and digits of `s`, in order. */
  function KeepAlnum(s: string): (r: string)
    ensures |r| <= |s|
    ensures forall k :: 0 <= k < |r| ==> IsAsciiAlnum(r[k])
    decreases |s|
  {
    if s == [] then []
    else (if IsAsciiAlnum(s[0]) then [s[0]] else []) + KeepAlnum(s[1..])
  }

  lemma {:induction false} KeepAlnumAppend(a: string, b: string)
    ensures KeepAlnum(a + b) == KeepAlnum(a) + KeepAlnum(b)
    decreases |a|
  {
    if a == [] {
      assert a + b == b;
    } else {
      assert (a + b)[1..] == a[1..] + b;
      KeepAlnumAppend(a[1..], b);
    }
  }

  lemma {:induction false} KeepAlnumOfSpaces(s: string)
    requires forall k :: 0 <= k < |s| ==> IsSpace(s[k])
    ensures KeepAlnum(s) == []
    decreases |s|
  {
    if s != [] {
      assert IsSpace(s[0]);
      KeepAlnumOfSpaces(s[1..]);
    }
  }

  /** A string made of letters and digits passes the filter unchanged. */
  lemma {:induction false} KeepAlnumIdle(s: string)
    requires forall k :: 0 <= k < |s| ==> IsAsciiAlnum(s[k])
    ensures KeepAlnum(s) == s
    decreases |s|
  {
    if s != [] {
      assert IsAsciiAlnum(s[0]);
      KeepAlnumIdle(s[1..]);
    }
  }

  /** The clean-up at the end of `ocr_recognize_text`: `strip()`, then the filter. */
  function CleanOcrText(raw: string): (r: string)
    ensures |r| <= |raw|
    ensures forall k :: 0 <= k < |r| ==> IsAsciiAlnum(r[k])
  {
    KeepAlnum(Strip(raw))
  }

  /** The `strip()` before the filter changes nothing: the text kept is exactly the
      letters and digits of the raw OCR output, in order, and nothing else; the
      filter is idempotent. */
  lemma CleanIsAlnumSubsequence(raw: string)
    ensures CleanOcrText(raw) == KeepAlnum(raw)
    ensures forall k :: 0 <= k < |CleanOcrText(raw)| ==> IsAsciiAlnum(CleanOcrText(raw)[k])
    ensures KeepAlnum(CleanOcrText(raw)) == CleanOcrText(raw)
  {
    DropLeadingSpaces(raw);
    DropTrailingSpaces(TrimLeft(raw));
    KeepAlnumIdle(CleanOcrText(raw));
  }

  lemma DropLeadingSpaces(s: string)
    ensures KeepAlnum(TrimLeft(s)) == KeepAlnum(s)
  {
    var l := TrimLeft(s);
    var spaces := s[..|s| - |l|];
    assert s == spaces + l;
    DropSpacesBefore(spaces, l);
  }

  lemma DropTrailingSpaces(s: string)
    ensures KeepAlnum(TrimRight(s)) == KeepAlnum(s)
  {
    var m := TrimRight(s);
    var spaces := s[|m|..];
    assert s == m + spaces;
    DropSpacesAfter(m, spaces);
  }

  lemma DropSpacesBefore(spaces: string, s: string)
    requires forall k :: 0 <= k < |spaces| ==> IsSpace(spaces[k])
    ensures KeepAlnum(spaces + s) == KeepAlnum(s)
  {
    KeepAlnumOfSpaces(spaces);
    KeepAlnumAppend(spaces, s);
  }

  lemma DropSpacesAfter(s: string, spaces: string)
    requires forall k :: 0 <= k < |spaces| ==> IsSpace(spaces[k])
    ensures KeepAlnum(s + spaces) == KeepAlnum(s)
  {
    KeepAlnumOfSpaces(spaces);
    KeepAlnumAppend(s, spaces);
  }

  /** `preprocess_image`'s choice of branch; any other name is the default. */
  function PreprocessingOf(name: Json): (m: Preprocessing)
    ensures m == Binary <==> name == JStr("binary")
    ensures m == Grayscale <==> name == JStr("grayscale")
    ensures m == Denoise <==> name == JStr("denoise")
  {
    if name == JStr("binary") then Binary
    else if name == JStr("grayscale") then Grayscale
    else if name == JStr("denoise") then Denoise
    else Default
  }

  /** The number of OCR recognitions in a trace. */
  function Recognitions(t: Trace): (n: nat)
    ensures n <= |t|
  {
    if t == [] then 0
    else Recognitions(t[..|t| - 1]) + (if Recognises(t[|t| - 1]) then 1 else 0)
  }

  lemma {:induction false} RecognitionsAppend(a: Trace, b: Trace)
    ensures Recognitions(a + b) == Recognitions(a) + Recognitions(b)
    decreases |b|
  {
    if b == [] {
      assert a + b == a;
    } else {
      assert (a + b)[..|a + b| - 1] == a + b[..|b| - 1];
      RecognitionsAppend(a, b[..|b| - 1]);
    }
  }

  lemma {:induction false} NoRecognitions(t: Trace)
    requires forall k :: 0 <= k < |t| ==> !Recognises(t[k])
    ensures Recognitions(t) == 0
    decreases |t|
  {
    if t != [] {
      NoRecognitions(t[..|t| - 1]);
    }
  }

  /** Requests that do not run the OCR engine leave the count as it was. */
  lemma QuietKeepsRecognitions(t: Trace, t2: Trace)
    requires Quiet(t, t2)
    ensures Recognitions(t2) == Recognitions(t)
  {
    var tail := t2[|t|..];
    assert t2 == t + tail;
    forall k | 0 <= k < |tail| ensures !Recognises(tail[k]) {
      assert tail[k] == t2[|t| + k];
    }
    NoRecognitions(tail);
    RecognitionsAppend(t, tail);
  }

  /** `ocr_captcha`: RuntimeError, before anything else, when OCR is unavailable;
      otherwise the cleaned text, with every failure (a selector that does not
      resolve, a missing element, a bad image) turned into "". */
  function OcrCaptcha(o: Oracle, t: Trace, available: bool, selector: Json, mode: Preprocessing, timeout: int): (e: Effect<string>)
    ensures e.out.Raise? <==> !available
    ensures !available ==> e == Effect(Raise(RuntimeError), t)
    ensures e.out.Value? ==> forall k :: 0 <= k < |e.out.value| ==> IsAsciiAlnum(e.out.value[k])
    ensures available && LocatorOf(selector).Raise? ==> e == Effect(Value(""), t)
    ensures Extends(t, e.trace) && |e.trace| <= |t| + 1
    ensures Recognitions(e.trace) <= Recognitions(t) + 1
  {
    if !available then Effect(Raise(RuntimeError), t)
    else
      var img := Element(o, t, LocatorOf(selector), Recognize(mode), timeout);
      assert img.trace == t + img.trace[|t|..];
      RecognitionsAppend(t, img.trace[|t|..]);
      match img.out
      case Value(raw) => Effect(Value(CleanOcrText(TextOf(raw))), img.trace)
      case Raise(_) => Effect(Value(""), img.trace)
  }

  method OcrCaptchaCall(env: Env, available: bool, selector: Json, mode: Preprocessing, timeout: int)
    returns (r: Outcome<string>)
    modifies env
    ensures Effect(r, env.trace) == OcrCaptcha(env.oracle, old(env.trace), available, selector, mode, timeout)
  {
    if !available {
      return Raise(RuntimeError);
    }
    var img := ElementCall(env, LocatorOf(selector), Recognize(mode), timeout);
    if img.Value? {
      r := Value(CleanOcrText(TextOf(img.value)));
    } else {
      r := Value("");
    }
  }

  /** Lower-casing keeps every "invalid" already written in lower case. */
  lemma LowerKeepsInvalid(page: string)
    ensures Contains(page, "invalid") ==> Contains(Lower(page), "invalid")
  {
    if Contains(page, "invalid") {
      var i :| OccursAt(page, "invalid", i);
      forall k | 0 <= k < 7 ensures Lower(page)[i + k] == "invalid"[k] {
        assert page[i + k] == page[i..i + 7][k];
      }
      assert Lower(page)[i..i + 7] == "invalid";
      assert OccursAt(Lower(page), "invalid", i);
    }
  }

  /** The page still complains about the captcha: it mentions "验证码" together
      with "错误" or, in any letter case, "invalid". */
  predicate CaptchaRejected(page: string)
    ensures CaptchaRejected(page) ==> Contains(page, "验证码")
    ensures Contains(page, "验证码") && (Contains(page, "错误") || Contains(page, "invalid")) ==> CaptchaRejected(page)
  {
    LowerKeepsInvalid(page);
    Contains(page, "验证码") && (Contains(page, "错误") || Contains(Lower(page), "invalid"))
  }

  /** How one attempt of the loop ends: `return True`, or on to the next attempt. */
  datatype Attempt = Solved | Retry

  /** The selectors and settings a `solve_simple_captcha` call is made with. */
  datatype CaptchaForm = CaptchaForm(captcha: Json, input: Json, submit: Json, mode: Preprocessing)

  /** No request of `t2` after `t` clicks an element. */
  predicate NoClick(t: Trace, t2: Trace) {
    forall k :: |t| <= k < |t2| ==> !(t2[k].OnElement? && t2[k].op.ClickOn?)
  }

  lemma NoClickTrans(t1: Trace, t2: Trace, t3: Trace)
    requires Extends(t1, t2) && Extends(t2, t3)
    requires NoClick(t1, t2) && NoClick(t2, t3)
    ensures NoClick(t1, t3)
  {
    forall k | |t1| <= k < |t2| ensures t3[k] == t2[k] {
      assert t3[..|t2|][k] == t2[k];
    }
  }

  /** The end of an attempt: the two-second pause, then the page check. */
  function CheckPage(o: Oracle, t: Trace): (e: Effect<Attempt>)
    ensures e.out.Value?
    ensures Quiet(t, e.trace) && NoClick(t, e.trace)
    ensures e.out.value == Solved <==>
      o(t, Pause(JNum(2))).Value? && BodyText(o, t + [Pause(JNum(2))]).out.Value? &&
      !CaptchaRejected(BodyText(o, t + [Pause(JNum(2))]).out.value)
  {
    var paused := Ask(o, t, Pause(JNum(2)));
    if paused.out.Raise? then Effect(Value(Retry), paused.trace)
    else
      var page := BodyText(o, paused.trace);
      assert page.trace == paused.trace + page.trace[|paused.trace|..];
      if page.out.Raise? || CaptchaRejected(page.out.value) then Effect(Value(Retry), page.trace)
      else Effect(Value(Solved), page.trace)
  }

  /** Some page check starting after `t` accepted the captcha, and the run ends
      with it: `end` is the trace that check leaves. */
  ghost predicate PageAccepted(o: Oracle, t: Trace, end: Trace) {
    exists t' :: Extends(t, t') && CheckPage(o, t').out.value == Solved && CheckPage(o, t').trace == end
  }

  lemma PageAcceptedFrom(o: Oracle, t: Trace, u: Trace, end: Trace)
    requires Extends(t, u) && PageAccepted(o, u, end)
    ensures PageAccepted(o, t, end)
  {
    var t' :| Extends(u, t') && CheckPage(o, t').out.value == Solved && CheckPage(o, t').trace == end;
    ExtendsTrans(t, u, t');
  }

  /** The part of an attempt after a non-empty recognition: type the text, click
      submit when there is one, then check the page. Any exception is a retry. */
  function AfterOcr(o: Oracle, t: Trace, f: CaptchaForm, text: string): (e: Effect<Attempt>)
    ensures e.out.Value?
    ensures Quiet(t, e.trace)
    ensures !Truthy(f.submit) ==> NoClick(t, e.trace)
  {
    var typed := Element(o, t, LocatorOf(f.input), TypeKeys(JStr(text)), 10);
    if typed.out.Raise? then Effect(Value(Retry), typed.trace)
    else if Truthy(f.submit) then
      var clicked := Element(o, typed.trace, LocatorOf(f.submit), ClickOn, 10);
      QuietTrans(t, typed.trace, clicked.trace);
      if clicked.out.Raise? then Effect(Value(Retry), clicked.trace)
      else
        var rest := CheckPage(o, clicked.trace);
        QuietTrans(t, clicked.trace, rest.trace);
        rest
    else
      var rest := CheckPage(o, typed.trace);
      QuietTrans(t, typed.trace, rest.trace);
      assert typed.trace == t + [typed.trace[|t|]] && typed.trace[|t|].op.TypeKeys?;
      NoClickTrans(t, typed.trace, rest.trace);
      rest
  }

  /** One pass of the loop body; any exception inside it is swallowed as a retry.
      An empty recognition goes on to the next attempt without typing or clicking. */
  function TryOnce(o: Oracle, t: Trace, available: bool, f: CaptchaForm): (e: Effect<Attempt>)
    ensures e.out.Value?
    ensures Extends(t, e.trace)
    ensures !available ==> e == Effect(Value(Retry), t)
    ensures var ocr := OcrCaptcha(o, t, available, f.captcha, f.mode, 10);
      ocr.out == Value("") ==> e == Effect(Value(Retry), ocr.trace)
    ensures Recognitions(e.trace) <= Recognitions(t) + 1
  {
    var ocr := OcrCaptcha(o, t, available, f.captcha, f.mode, 10);
    if ocr.out.Raise? || ocr.out.value == "" then Effect(Value(Retry), ocr.trace)
    else
      var rest := AfterOcr(o, ocr.trace, f, ocr.out.value);
      ExtendsTrans(t, ocr.trace, rest.trace);
      QuietKeepsRecognitions(ocr.trace, rest.trace);
      rest
  }

  /** The attempts left, `remaining` of them: true at the first solved one, false
      once they are used up. */
  function Attempts(o: Oracle, t: Trace, available: bool, f: CaptchaForm, remaining: int): (e: Effect<bool>)
    ensures e.out.Value?
    ensures Extends(t, e.trace)
    ensures remaining <= 0 ==> e == Effect(Value(false), t)
    ensures Recognitions(e.trace) <= Recognitions(t) + (if remaining > 0 then remaining else 0)
    decreases remaining
  {
    if remaining <= 0 then Effect(Value(false), t)
    else
      var a := TryOnce(o, t, available, f);
      if a.out.value == Solved then Effect(Value(true), a.trace)
      else
        var rest := Attempts(o, a.trace, available, f, remaining - 1);
        ExtendsTrans(t, a.trace, rest.trace);
        rest
  }

  /** `ts` runs from `t` to `end` through `n` attempts (none when `n` is not
      positive) that all retried, each one starting from the trace the previous
      one left. */
  ghost predicate RetriedThrough(o: Oracle, available: bool, f: CaptchaForm, ts: seq<Trace>, t: Trace, end: Trace, n: int)
    decreases |ts|
  {
    |ts| >= 1 && ts[0] == t &&
    if n <= 0 then |ts| == 1 && t == end
    else
      |ts| >= 2 && TryOnce(o, t, available, f) == Effect(Value(Retry), ts[1]) &&
      RetriedThrough(o, available, f, ts[1..], ts[1], end, n - 1)
  }

  /** `ts` runs from `t` through at most `bound - 1` attempts that retried to one
      that solved the captcha and left `end`. */
  ghost predicate SolvedAfter(o: Oracle, available: bool, f: CaptchaForm, ts: seq<Trace>, t: Trace, end: Trace, bound: int)
    decreases |ts|
  {
    1 <= |ts| <= bound && ts[0] == t &&
    if |ts| == 1 then TryOnce(o, t, available, f) == Effect(Value(Solved), end)
    else
      TryOnce(o, t, available, f) == Effect(Value(Retry), ts[1]) &&
      SolvedAfter(o, available, f, ts[1..], ts[1], end, bound - 1)
  }

  /** A false answer comes exactly after `remaining` attempts in a row that all
      retried, the last of them ending the run: `ts` is that chain of attempts. */
  lemma {:induction false} FailedAttemptsChain(o: Oracle, t: Trace, available: bool, f: CaptchaForm, remaining: int)
    returns (ts: seq<Trace>)
    ensures var e := Attempts(o, t, available, f, remaining);
      !e.out.value ==> RetriedThrough(o, available, f, ts, t, e.trace, remaining)
    decreases remaining
  {
    var e := Attempts(o, t, available, f, remaining);
    ts := [t];
    if remaining <= 0 {
      assert RetriedThrough(o, available, f, ts, t, e.trace, remaining);
    } else {
      var a := TryOnce(o, t, available, f);
      AttemptsStep(o, t, available, f, remaining);
      if a.out.value == Retry {
        var rest := FailedAttemptsChain(o, a.trace, available, f, remaining - 1);
        assert a == Effect(Value(Retry), a.trace);
        assert e == Attempts(o, a.trace, available, f, remaining - 1);
        if !e.out.value {
          RetriedCons(o, available, f, t, a.trace, rest, e.trace, remaining - 1);
          ts := [t] + rest;
        }
      }
    }
  }

  /** A true answer comes after fewer than `remaining` retries in a row, followed
      by one solved attempt that ends the run: `ts` is that chain of attempts. */
  lemma {:induction false} SolvedAttemptsChain(o: Oracle, t: Trace, available: bool, f: CaptchaForm, remaining: int)
    returns (ts: seq<Trace>)
    ensures var e := Attempts(o, t, available, f, remaining);
      e.out.value ==> SolvedAfter(o, available, f, ts, t, e.trace, remaining)
    decreases remaining
  {
    var e := Attempts(o, t, available, f, remaining);
    ts := [t];
    if remaining > 0 {
      var a := TryOnce(o, t, available, f);
      AttemptsStep(o, t, available, f, remaining);
      if a.out.value == Solved {
        SolvedFirst(o, available, f, t, e.trace, remaining);
      } else {
        var rest := SolvedAttemptsChain(o, a.trace, available, f, remaining - 1);
        assert a == Effect(Value(Retry), a.trace);
        assert e == Attempts(o, a.trace, available, f, remaining - 1);
        if e.out.value {
          SolvedCons(o, available, f, t, a.trace, rest, e.trace, remaining - 1);
          ts := [t] + rest;
        }
      }
    }
  }

  /** One turn of the attempts: a solved attempt answers true where it ends,
      a retry leaves the rest to the remaining attempts. */
  lemma AttemptsStep(o: Oracle, t: Trace, available: bool, f: CaptchaForm, remaining: int)
    requires remaining > 0
    ensures var a := TryOnce(o, t, available, f);
      a.out.value == Solved ==>
        a == Effect(Value(Solved), a.trace) &&
        Attempts(o, t, available, f, remaining) == Effect(Value(true), a.trace)
    ensures var a := TryOnce(o, t, available, f);
      a.out.value == Retry ==>
        a == Effect(Value(Retry), a.trace) &&
        Attempts(o, t, available, f, remaining) == Attempts(o, a.trace, available, f, remaining - 1)
  {
  }

  lemma RetriedCons(o: Oracle, available: bool, f: CaptchaForm, t: Trace, u: Trace, ts: seq<Trace>, end: Trace, n: int)
    requires n >= 0
    requires TryOnce(o, t, available, f) == Effect(Value(Retry), u)
    requires RetriedThrough(o, available, f, ts, u, end, n)
    ensures RetriedThrough(o, available, f, [t] + ts, t, end, n + 1)
  {
    assert ([t] + ts)[1..] == ts;
  }

  lemma SolvedFirst(o: Oracle, available: bool, f: CaptchaForm, t: Trace, end: Trace, bound: int)
    requires bound >= 1 && TryOnce(o, t, available, f) == Effect(Value(Solved), end)
    ensures SolvedAfter(o, available, f, [t], t, end, bound)
  {
  }

  lemma SolvedCons(o: Oracle, available: bool, f: CaptchaForm, t: Trace, u: Trace, ts: seq<Trace>, end: Trace, bound: int)
    requires TryOnce(o, t, available, f) == Effect(Value(Retry), u)
    requires SolvedAfter(o, available, f, ts, u, end, bound)
    ensures SolvedAfter(o, available, f, [t] + ts, t, end, bound + 1)
  {
    assert ([t] + ts)[1..] == ts;
  }

  /** A solved attempt ends with a page check that accepted the captcha, after
      the text was typed (and submit clicked). */
  lemma AfterOcrAccepted(o: Oracle, t: Trace, f: CaptchaForm, text: string)
    ensures var e := AfterOcr(o, t, f, text);
      e.out.value == Solved ==> PageAccepted(o, t, e.trace)
  {
    var typed := Element(o, t, LocatorOf(f.input), TypeKeys(JStr(text)), 10);
    if typed.out.Value? && Truthy(f.submit) {
      var clicked := Element(o, typed.trace, LocatorOf(f.submit), ClickOn, 10);
      ExtendsTrans(t, typed.trace, clicked.trace);
    }
  }

  lemma TryOnceAccepted(o: Oracle, t: Trace, available: bool, f: CaptchaForm)
    ensures var e := TryOnce(o, t, available, f);
      e.out.value == Solved ==> PageAccepted(o, t, e.trace)
  {
    var ocr := OcrCaptcha(o, t, available, f.captcha, f.mode, 10);
    if ocr.out.Value? && ocr.out.value != "" {
      AfterOcrAccepted(o, ocr.trace, f, ocr.out.value);
      var rest := AfterOcr(o, ocr.trace, f, ocr.out.value);
      if rest.out.value == Solved {
        PageAcceptedFrom(o, t, ocr.trace, rest.trace);
      }
    }
  }

  /** True is only answered after a page check that accepted the captcha, and the
      run of attempts ends with it. */
  lemma {:induction false} AttemptsAccepted(o: Oracle, t: Trace, available: bool, f: CaptchaForm, remaining: int)
    ensures var e := Attempts(o, t, available, f, remaining);
      e.out.value ==> PageAccepted(o, t, e.trace)
    decreases remaining
  {
    if remaining > 0 {
      var a := TryOnce(o, t, available, f);
      AttemptsStep(o, t, available, f, remaining);
      TryOnceAccepted(o, t, available, f);
      if a.out.value == Retry {
        AttemptsAccepted(o, a.trace, available, f, remaining - 1);
        var rest := Attempts(o, a.trace, available, f, remaining - 1);
        if rest.out.value {
          PageAcceptedFrom(o, t, a.trace, rest.trace);
        }
      }
    }
  }

  /** `solve_simple_captcha`: ValueError before any attempt when the helper
      functions were not handed over; otherwise `range(max_attempts)` attempts. */
  function SolveCaptcha(o: Oracle, t: Trace, available: bool, helpersGiven: bool, f: CaptchaForm, maxAttempts: int)
    : (e: Effect<bool>)
    ensures e.out.Raise? <==> !helpersGiven
    ensures !helpersGiven ==> e == Effect(Raise(ValueError), t)
    ensures Extends(t, e.trace)
  {
    if !helpersGiven then Effect(Raise(ValueError), t)
    else Attempts(o, t, available, f, maxAttempts)
  }

  /** What `solve_simple_captcha`'s answer means: True after at most
      `max_attempts - 1` failed attempts and then one whose page check accepted
      the captcha, ending the run; False only after exactly `max_attempts` failed
      attempts in a row (none when it is not positive). `ts` is the chain of
      attempts, each starting where the previous one left the trace. */
  lemma SolveCaptchaChain(o: Oracle, t: Trace, available: bool, helpersGiven: bool, f: CaptchaForm, maxAttempts: int)
    returns (ts: seq<Trace>)
    ensures var e := SolveCaptcha(o, t, available, helpersGiven, f, maxAttempts);
      e.out == Value(true) ==> SolvedAfter(o, available, f, ts, t, e.trace, maxAttempts) && PageAccepted(o, t, e.trace)
    ensures var e := SolveCaptcha(o, t, available, helpersGiven, f, maxAttempts);
      e.out == Value(false) ==> RetriedThrough(o, available, f, ts, t, e.trace, maxAttempts)
  {
    ts := [];
    if helpersGiven {
      if Attempts(o, t, available, f, maxAttempts).out.value {
        ts := SolvedAttemptsChain(o, t, available, f, maxAttempts);
        AttemptsAccepted(o, t, available, f, maxAttempts);
      } else {
        ts := FailedAttemptsChain(o, t, available, f, maxAttempts);
      }
    }
  }

  method TryOnceCall(env: Env, available: bool, f: CaptchaForm) returns (a: Attempt)
    modifies env
    ensures Effect(Value(a), env.trace) == TryOnce(env.oracle, old(env.trace), available, f)
  {
    var ocr := OcrCaptchaCall(env, available, f.captcha, f.mode, 10);
    if ocr.Raise? || ocr.value == "" {
      return Retry;
    }
    var typed := ElementCall(env, LocatorOf(f.input), TypeKeys(JStr(ocr.value)), 10);
    if typed.Raise? {
      return Retry;
    }
    if Truthy(f.submit) {
      var clicked := ElementCall(env, LocatorOf(f.submit), ClickOn, 10);
      if clicked.Raise? {
        return Retry;
      }
    }
    a := CheckPageCall(env);
  }

  method CheckPageCall(env: Env) returns (a: Attempt)
    modifies env
    ensures Effect(Value(a), env.trace) == CheckPage(env.oracle, old(env.trace))
  {
    var paused := env.Call(Pause(JNum(2)));
    if paused.Raise? {
      return Retry;
    }
    var page := GetBodyText(env);
    if page.Raise? || CaptchaRejected(page.value) {
      return Retry;
    }
    a := Solved;
  }

  method SolveSimpleCaptcha(env: Env, available: bool, helpersGiven: bool, f: CaptchaForm, maxAttempts: int)
    returns (r: Outcome<bool>)
    modifies env
    ensures Effect(r, env.trace) == SolveCaptcha(env.oracle, old(env.trace), available, helpersGiven, f, maxAttempts)
  {
    if !helpersGiven {
      return Raise(ValueError);
    }
    var attempt := 0;
    while attempt < maxAttempts
      invariant 0 <= attempt && (maxAttempts >= 0 ==> attempt <= maxAttempts)
      invariant Attempts(env.oracle, old(env.trace), available, f, maxAttempts)
             == Attempts(env.oracle, env.trace, available, f, maxAttempts - attempt)
      decreases maxAttempts - attempt
    {
      var a := TryOnceCall(env, available, f);
      if a == Solved {
        return Value(true);
      }
      attempt := attempt + 1;
    }
    r := Value(false);
  }

  // ---------------------------------------------------------------------------
  // Properties of the retry loop

  /** Without the OCR libraries every attempt fails inside the `try`: the loop
      answers false and never touches the page. */
  lemma {:induction false} UnavailableGivesFalse(o: Oracle, t: Trace, f: CaptchaForm, remaining: int)
    ensures Attempts(o, t, false, f, remaining) == Effect(Value(false), t)
    decreases remaining
  {
    if remaining > 0 {
      UnavailableGivesFalse(o, t, f, remaining - 1);
    }
  }

  /** The OCR engine is run at most `max_attempts` times, and not at all when
      `max_attempts <= 0`. */
  lemma AtMostMaxAttempts(o: Oracle, t: Trace, available: bool, helpersGiven: bool, f: CaptchaForm, maxAttempts: int)
    ensures var e := SolveCaptcha(o, t, available, helpersGiven, f, maxAttempts);
      Recognitions(e.trace) - Recognitions(t) <= (if maxAttempts > 0 then maxAttempts else 0)
    ensures maxAttempts <= 0 && helpersGiven ==> SolveCaptcha(o, t, available, helpersGiven, f, maxAttempts) == Effect(Value(false), t)
  {
  }

  /** A page that mentions the captcha and, in capitals, "INVALID" is a rejection;
      "invalid" without a mention of the captcha is not. */
  lemma RejectionNeedsCaptchaWord()
    ensures CaptchaRejected("验证码 INVALID")
    ensures !CaptchaRejected("invalid")
  {
    var p := "验证码 INVALID";
    assert OccursAt(p, "验证码", 0);
    var l := Lower(p);
    assert l[4..11] == "invalid";
    assert OccursAt(l, "invalid", 4);
    var q := "invalid";
    forall i | 0 <= i && i + 3 <= |q| ensures !OccursAt(q, "验证码", i) {
      assert q[i..i + 3][0] == q[i];
    }
  }

  // ---------------------------------------------------------------------------
  // CaptchaSolver

  /** `CaptchaSolver`: a driver and, possibly, the helper functions. An instance
      only exists when the OCR libraries imported, so its calls never see the
      RuntimeError of `ocr_captcha`. */
  class CaptchaSolver {
    const driver: Env
    const funcsGiven: bool

    constructor (driver: Env, funcsGiven: bool)
      ensures this.driver == driver && this.funcsGiven == funcsGiven
    {
      this.driver := driver;
      this.funcsGiven := funcsGiven;
    }

    /** `recognize`: `ocr_captcha` on this solver's driver. */
    method Recognize(selector: Json, mode: Preprocessing, timeout: int) returns (r: Outcome<string>)
      modifies driver
      ensures Effect(r, driver.trace) == OcrCaptcha(driver.oracle, old(driver.trace), true, selector, mode, timeout)
      ensures r.Value?
    {
      r := OcrCaptchaCall(driver, true, selector, mode, timeout);
    }

    /** `solve`: ValueError when the helper functions were not given, otherwise
        `solve_simple_captcha` with them. */
    method Solve(f: CaptchaForm, maxAttempts: int) returns (r: Outcome<bool>)
      modifies driver
      ensures Effect(r, driver.trace) == SolveCaptcha(driver.oracle, old(driver.trace), true, funcsGiven, f, maxAttempts)
      ensures r.Raise? <==> !funcsGiven
    {
      if !funcsGiven {
        return Raise(ValueError);
      }
      r := SolveSimpleCaptcha(driver, true, funcsGiven, f, maxAttempts);
    }
  }

  /** `CaptchaSolver(driver, funcs)`: raises RuntimeError when OCR is unavailable. */
  method NewCaptchaSolver(driver: Env, available: bool, funcsGiven: bool) returns (r: Outcome<CaptchaSolver>)
    ensures r.Raise? <==> !available
    ensures r.Raise? ==> r.fault == RuntimeError
    ensures r.Value? ==> fresh(r.value) && r.value.driver == driver && r.value.funcsGiven == funcsGiven
  {
    if !available {
      return Raise(RuntimeError);
    }
    var solver := new CaptchaSolver(driver, funcsGiven);
    r := Value(solver);
  }
}
