# Declarative Selenium flows, modelled in Dafny

This project models the logic of a small set of Python scripts that drive Chrome through Selenium for website checks:

- `xunjian/selenium_check.py` holds the locator resolver and the check for the word "error". Its `run_flow` logs in, optionally clicks through to a feature, and returns an exit code.
- `rm/selenium_flow_runner.py` holds the base interpreter of declarative JSON flows. Its `run_flow_steps` runs one step after another, checks each step's fields, interpolates `${name}` placeholders, updates the flow's variables, and maps exceptions to exit codes.
- `xunjian/selenium_flow_suite.py` holds the extended interpreter, which adds captcha, terminal, frame and cookie actions. Its `run_suite` runs many flows, then writes a JSON report and picks the process exit status.
- `rm/batch_selenium_check.py` holds `run_cases`, which runs `run_flow` over a JSON array of login cases and reports the same way.
- `xunjian/selenium_ocr.py` holds the OCR text filter, the error policy of `ocr_captcha`, the bounded retry loop of `solve_simple_captcha`, and the guards of `CaptchaSolver`.

Everything outside the scripts is an *oracle*. That covers the browser, the file system, the terminal and the OCR engine. Each request is appended to a trace, and the oracle answers it as a function of the trace before it. A run is therefore fully determined by the oracle and its inputs.

The imperative code is written as methods:

- `run_flow`;
- the step loop;
- the suite and batch loops;
- the captcha retry loop;
- the `main` functions.

These methods run against a `Session.Env` object, whose `trace` field each request updates in place. Each method is proved equal to a specification function of the oracle and the initial trace. The properties are proved about those functions.

Exceptions are the `Runtime.Fault` datatype. A computation that may raise returns `Outcome<T>`, and a computation that talks to the world returns `Effect<T>`, which is the outcome together with the trace it leaves.

The two interpreters are one interpreter, parametrised by the set of actions it has branches for:

- `FlowSteps.BaseActions` is the set for `rm/selenium_flow_runner.py`;
- `FlowSteps.SuiteActions` is the set for `xunjian/selenium_flow_suite.py`.

Each step is split in two:

- `FlowSteps.PlanStep` is the validation the source does before it touches the world: the action check, the step timeout, the five interpolations in source order, the dispatch, and the required fields;
- `FlowExec.Exec` is the requests the step then makes.

Two points of the code shape the model:

- `switch_to_frame` has no branch in either interpreter, so it is an unsupported action and raises ValueError (`xunjian/selenium_flow_suite.py:303-304`). `FlowRunner.SwitchToFrameUnsupported` states this.
- `xunjian/selenium_flow_suite.py:26-38` imports helpers such as `_interpolate`, `_type`, `_click` and `_get_body_text` from `selenium_check`. `xunjian/selenium_check.py` does not define them under those names. The model gives them the behaviour of the same helpers in `rm/selenium_flow_runner.py:21-79` and `xunjian/selenium_check.py:87-101`.

## Model

| member | source | states |
|---|---|---|
| Runtime.Truthy | rm/selenium_flow_runner.py:130 | a decoded value is falsy exactly when it is None, False, 0, "", an empty list or an empty object |
| Runtime.Get | rm/selenium_flow_runner.py:82-84 | the value under a key that is present, even a falsy one; the default when the key is absent |
| Runtime.LowerAscii | xunjian/selenium_check.py:50 | upper-case ASCII letters become lower-case; every other character is kept |
| Runtime.Strip | xunjian/selenium_check.py:49 | the result has no whitespace at either end, is no longer than the input, and is empty iff the input is all whitespace |
| Runtime.LeadingSpaces | xunjian/selenium_check.py:49 | the count of whitespace characters the text starts with: all of them are whitespace, and the next one is not |
| Runtime.StripSlice | xunjian/selenium_check.py:49 | what `strip()` keeps is the slice of the input that starts right after its leading whitespace |
| Runtime.StripTrailing | xunjian/selenium_check.py:49 | every character after that slice is whitespace |
| Runtime.StripIdle | xunjian/selenium_check.py:49 | a text with no whitespace at either end is its own `strip()` |
| Runtime.Lower | xunjian/selenium_check.py:50 | same length as the input, each character lower-cased |
| Runtime.FindFrom | rm/selenium_flow_runner.py:195 | the first position at or after `i` where the needle occurs, or none if it never occurs |
| Runtime.Contains | rm/selenium_flow_runner.py:195 | `needle in hay` holds iff the needle occurs at some position |
| Runtime.NatToString | xunjian/selenium_flow_suite.py:336 | a non-empty string of decimal digits without a leading zero |
| Runtime.ParseInt | rm/selenium_flow_runner.py:148 | `int(s)` raises only ValueError, and does so exactly when the stripped text is not an optional `+` or `-` followed by decimal digits; otherwise the value is that of the digits, negated after `-` |
| Runtime.ParseNegative | rm/selenium_flow_runner.py:148 | a `-` followed by digits reads as the negated value of the digits |
| Runtime.ParseIntOfIntToString | rm/selenium_flow_runner.py:75-76 | `int(str(n)) == n` for every integer, negative ones included |
| Runtime.Show | rm/selenium_flow_runner.py:75-76 | `str()` of a number is text that `int()` reads back as that number; `str()` of a string is the string itself |
| Runtime.ParseIntOfNatToString | xunjian/selenium_flow_suite.py:336 | `int(str(n)) == n` for every natural number |
| Runtime.ToInt | rm/selenium_flow_runner.py:148 | numbers are kept; booleans become 1/0; null, arrays and objects raise TypeError; strings are parsed; only TypeError or ValueError is raised |
| Locators.AfterFirst | xunjian/selenium_check.py:52 | no result iff the separator is absent; otherwise the text after its first occurrence |
| Locators.Classify | xunjian/selenium_check.py:50-57 | a case-insensitive `xpath=` prefix gives XPath with the rest; else a case-insensitive `css=` prefix gives CSS with the rest; else `//` or `.//` gives XPath with the whole string; else CSS with the whole string |
| Locators.ResolveLocator | xunjian/selenium_check.py:39-57 | ValueError iff the selector is None or empty; otherwise the stripped selector is classified; the copy in rm/selenium_flow_runner.py:21-33 is identical |
| Locators.WhitespaceSelector | xunjian/selenium_check.py:47-50 | a whitespace-only selector passes the emptiness check and resolves to CSS "" |
| Locators.XPathPrefix | xunjian/selenium_check.py:51-52 | `xpath=` in any letter case gives XPath, with the value in its original case |
| Locators.CssPrefix | xunjian/selenium_check.py:53-54 | `css=` in any letter case gives CSS even when the value looks like an XPath (the prefix checks come first) |
| Locators.SlashSelector | xunjian/selenium_check.py:55-56 | a selector starting with `//` or `.//` is an XPath, handed over whole |
| Locators.SurroundingSpaceIgnored | xunjian/selenium_check.py:49 | surrounding whitespace never changes how a selector resolves |
| Session.ExitCode | xunjian/selenium_check.py:145-153 | 2 iff Timeout or NoSuchElement (checked first); 3 iff another WebDriverException; 4 iff not a WebDriverException |
| Session.LocatorOf | rm/selenium_flow_runner.py:23-25 | a falsy value raises ValueError; a string resolves; any other value has no `strip` and raises TypeError |
| Session.Element | rm/selenium_flow_runner.py:36-66 | a selector that does not resolve raises and makes no request; otherwise exactly one element request |
| Session.Env.Call | rm/selenium_flow_runner.py:36-66 | one request to the world: it is appended to the trace, and the answer is the oracle's for the trace before it |
| Session.ElementCall | rm/selenium_flow_runner.py:36-66 | the method makes the requests `Element` specifies and returns its reply |
| Session.BodyText | xunjian/selenium_check.py:87-93 | the body text (or "") when reading it succeeds; otherwise the page source (or ""); a page-source failure propagates; the OCR engine is never run |
| Session.GetBodyText | xunjian/selenium_check.py:87-93 | the method makes the requests `BodyText` specifies and returns its result |
| Interpolation.Lookup | rm/selenium_flow_runner.py:75-77 | a bound name gives its text; an unbound name gives "" |
| Interpolation.MatchAtStart | rm/selenium_flow_runner.py:79 | a match is `${`, at least one character other than `}`, then the first `}`; when there is no match, no `}` stands right after a non-empty name |
| Interpolation.Interpolate | rm/selenium_flow_runner.py:71-72 | None comes back as None, and a string comes back as a string |
| Interpolation.NoMatchUnchanged | rm/selenium_flow_runner.py:79 | a template in which the pattern matches at no position is returned unchanged |
| Interpolation.NoCloseUnchanged | rm/selenium_flow_runner.py:79 | a template without `}` is returned unchanged |
| Interpolation.PlaceholderReplaced | rm/selenium_flow_runner.py:74-79 | `${k}`, with k non-empty and free of `}`, becomes k's text (or ""), and scanning resumes after it |
| Interpolation.UnboundShrinks | rm/selenium_flow_runner.py:74-79 | with no variables, every placeholder is replaced by "", so the result is never longer than the template |
| Interpolation.EmptyBracesStay | rm/selenium_flow_runner.py:79 | `${}` is left literal |
| Interpolation.TwoPlaceholders | rm/selenium_flow_runner.py:74-79 | `${a}-${b}` with only a bound to "1" gives "1-" |
| Interpolation.NotRescanned | rm/selenium_flow_runner.py:79 | substituted text is not scanned again: a value `${b}` stays `${b}` |
| Interpolation.HasMatch | rm/selenium_flow_runner.py:79 | true iff the pattern matches at some position |
| Interpolation.NoPlaceholderUnchanged | rm/selenium_flow_runner.py:79 | without a match, the template is returned unchanged whatever the variables |
| SeleniumCheck.FindError | xunjian/selenium_check.py:101 | the leftmost position of a whole-word, case-insensitive `error` at or after `i`, or none if there is none |
| SeleniumCheck.ContainsErrorKeyword | xunjian/selenium_check.py:96-101 | false on empty text; true iff `error` occurs in any case with no word character on either side |
| SeleniumCheck.KeywordBetweenSeparators | xunjian/selenium_check.py:101 | the keyword between non-word characters (or the string's ends) is always found |
| SeleniumCheck.UpperCaseWithColon | xunjian/selenium_check.py:101 | "ERROR:" matches |
| SeleniumCheck.GluedToWordCharacters | xunjian/selenium_check.py:101 | "errors", "terror" and "_error" do not match |
| SeleniumCheck.Then | xunjian/selenium_check.py:124-126 | a step after a raise is skipped; a successful step made exactly its one element request |
| SeleniumCheck.ThenIf | xunjian/selenium_check.py:128-135 | an optional step with a falsy selector does nothing |
| SeleniumCheck.LoginSteps | xunjian/selenium_check.py:124-135 | the element steps make body requests only (no driver opened or quit) |
| SeleniumCheck.Opt | xunjian/selenium_check.py:128-135 | an optional step asks for one request exactly when its selector is truthy and resolves, none otherwise |
| SeleniumCheck.ThenIfTrace | xunjian/selenium_check.py:128-135 | a successful optional step appends exactly its own request, on its own selector and operation, or nothing when the selector is falsy |
| SeleniumCheck.FixedSteps | xunjian/selenium_check.py:124-126 | when the three fixed steps succeed they made, in order, the user-name typing, the password typing and the submit click, each on its own selector |
| SeleniumCheck.LoginStepsOrder | xunjian/selenium_check.py:124-135 | when every element step succeeds, the trace is the user-name typing, the password typing and the submit click, then the wait after login, the feature click and the wait after the click, each exactly when its selector is truthy, each on its own selector |
| SeleniumCheck.OptionalStepsRunWhenTruthy | xunjian/selenium_check.py:124-135 | on success: three fixed element requests plus one per truthy optional selector, the first typing the user name |
| SeleniumCheck.LoginBody | xunjian/selenium_check.py:122-143 | a value comes only from a successful body-text read that ends the run, and it is 1 exactly when that text holds an error keyword, 0 otherwise |
| SeleniumCheck.LoginFlow | xunjian/selenium_check.py:104-159 | `run_flow` always returns a code in 0..4; a driver that cannot be opened gives that failure's exit code and nothing else is requested; once the driver is open, the code is the body's keyword verdict or the exit code of the exception the body raised, and the run ends with `quit()` |
| SeleniumCheck.RunFlow | xunjian/selenium_check.py:104-159 | the method's code and trace are those of `LoginFlow` |
| SeleniumCheck.Login | xunjian/selenium_check.py:122-143 | the method's result and trace are those of `LoginBody` |
| SeleniumCheck.LoginElementSteps | xunjian/selenium_check.py:124-135 | the method's result and trace are those of `LoginSteps` |
| SeleniumCheck.LoginOrder | xunjian/selenium_check.py:121-143 | the driver is opened first; once it exists, the login page is visited next and the run ends with `quit()` |
| SeleniumCheck.QuitOnceIffCreated | xunjian/selenium_check.py:154-159 | `quit()` is requested exactly once iff the driver was created |
| SeleniumOcr.KeepAlnum | xunjian/selenium_ocr.py:84 | only ASCII letters and digits remain, and the result is no longer than the input |
| SeleniumOcr.KeepAlnumIdle | xunjian/selenium_ocr.py:84 | text made of letters and digits passes unchanged |
| SeleniumOcr.CleanOcrText | xunjian/selenium_ocr.py:84 | only ASCII letters and digits are left, and the result is no longer than the raw text |
| SeleniumOcr.CleanIsAlnumSubsequence | xunjian/selenium_ocr.py:84 | `strip()` then the filter equals the filter alone: the in-order letters and digits of the raw text; idempotent |
| SeleniumOcr.PreprocessingOf | xunjian/selenium_ocr.py:52-66 | "binary", "grayscale" and "denoise" select their branch; anything else is the default |
| SeleniumOcr.QuietKeepsRecognitions | xunjian/selenium_ocr.py:189-206 | requests that do not run the OCR engine leave the recognition count unchanged |
| SeleniumOcr.OcrCaptcha | xunjian/selenium_ocr.py:118-156 | raises (RuntimeError, before any request) iff OCR is unavailable; otherwise alphanumeric text, with "" for every failure, including an unresolvable selector; at most one recognition |
| SeleniumOcr.OcrCaptchaCall | xunjian/selenium_ocr.py:118-156 | the method's result and trace are those of `OcrCaptcha` |
| SeleniumOcr.CheckPage | xunjian/selenium_ocr.py:196-206 | an attempt succeeds iff the pause and the page read succeed and the page does not show "验证码" with "错误" or a case-insensitive "invalid"; no click, no OCR |
| SeleniumOcr.AfterOcr | xunjian/selenium_ocr.py:189-206 | never raises; submit is clicked only if its selector is truthy; no OCR |
| SeleniumOcr.TryOnce | xunjian/selenium_ocr.py:182-210 | exceptions are swallowed as retries; unavailable OCR is a retry with no request; an empty recognition retries without typing or clicking; at most one recognition |
| SeleniumOcr.Attempts | xunjian/selenium_ocr.py:181-213 | never raises; no attempt left gives False with no request; the recognitions are bounded by the attempts left |
| SeleniumOcr.SolveCaptcha | xunjian/selenium_ocr.py:159-213 | raises (ValueError, before any request) iff the helper functions are missing |
| SeleniumOcr.AfterOcrAccepted | xunjian/selenium_ocr.py:189-206 | a solved attempt ends with a page check, after the typing (and the click), that accepted the captcha |
| SeleniumOcr.TryOnceAccepted | xunjian/selenium_ocr.py:182-206 | a solved attempt ends with a page check after its recognition that accepted the captcha; the attempt's trace ends there |
| SeleniumOcr.AttemptsAccepted | xunjian/selenium_ocr.py:181-210 | True is answered only after a page check that accepted the captcha, and nothing is requested after it |
| SeleniumOcr.FailedAttemptsChain | xunjian/selenium_ocr.py:181-213 | False comes only after exactly `remaining` attempts in a row, each starting where the previous one left the trace, that all retried; none when no attempt is left |
| SeleniumOcr.SolvedAttemptsChain | xunjian/selenium_ocr.py:181-210 | True comes after at most `remaining - 1` retrying attempts in a row and then one solved attempt, which ends the run |
| SeleniumOcr.SolveCaptchaChain | xunjian/selenium_ocr.py:159-213 | `solve_simple_captcha` returns True only after fewer than `max_attempts` failed attempts and one whose page check accepted the captcha, and returns False only after `max_attempts` failed attempts in a row |
| SeleniumOcr.TryOnceCall | xunjian/selenium_ocr.py:182-210 | the method's attempt and trace are those of `TryOnce` |
| SeleniumOcr.CheckPageCall | xunjian/selenium_ocr.py:196-206 | the method's attempt and trace are those of `CheckPage` |
| SeleniumOcr.SolveSimpleCaptcha | xunjian/selenium_ocr.py:176-213 | the `for attempt in range(max_attempts)` loop's result and trace are those of `SolveCaptcha` |
| SeleniumOcr.UnavailableGivesFalse | xunjian/selenium_ocr.py:208-210 | without OCR every attempt fails inside the `try`: False, and the page is never touched |
| SeleniumOcr.AtMostMaxAttempts | xunjian/selenium_ocr.py:181-213 | at most `max_attempts` recognitions; `max_attempts <= 0` gives False with no request |
| SeleniumOcr.CaptchaRejected | xunjian/selenium_ocr.py:201 | a rejection needs "验证码" on the page; "验证码" together with "错误" or a lower-case "invalid" is always a rejection |
| SeleniumOcr.LowerKeepsInvalid | xunjian/selenium_ocr.py:201 | a page holding "invalid" still holds it after `lower()` |
| SeleniumOcr.RejectionNeedsCaptchaWord | xunjian/selenium_ocr.py:201 | "验证码 INVALID" is a rejection; "invalid" alone is not |
| SeleniumOcr.CaptchaSolver.constructor | xunjian/selenium_ocr.py:219-227 | the solver keeps its driver and whether the helper functions were given |
| SeleniumOcr.CaptchaSolver.Recognize | xunjian/selenium_ocr.py:232-235 | `ocr_captcha` on the solver's driver, which never raises there |
| SeleniumOcr.CaptchaSolver.Solve | xunjian/selenium_ocr.py:237-247 | ValueError iff the helper functions are missing; otherwise `solve_simple_captcha` |
| SeleniumOcr.NewCaptchaSolver | xunjian/selenium_ocr.py:229-230 | construction raises RuntimeError iff OCR is unavailable |
| FlowSteps.ParseAction | rm/selenium_flow_runner.py:156-259 | a name dispatches to the action whose name it is |
| FlowSteps.ParseActionName | rm/selenium_flow_runner.py:156-259 | every action is found under its own name (inverse of `ActionName`) |
| FlowSteps.ParseActionKnown | rm/selenium_flow_runner.py:156-259 | the chain selects no action exactly for the names it does not test |
| FlowSteps.ActionNameListed | rm/selenium_flow_runner.py:156-259 | the name of every action is one of the names the chain tests |
| FlowSteps.InitialStore | rm/selenium_flow_runner.py:130 | falsy or missing `variables` gives an empty dictionary; an object gives a dictionary with the same keys, each holding `str()` of its value; a non-empty list gives a list of the same length; any other truthy value gives a store that is neither |
| FlowSteps.InterpolateIn | rm/selenium_flow_runner.py:150-154 | on a dictionary, the substitution pass; on anything else, TypeError iff the template has a placeholder to look up |
| FlowSteps.Assign | rm/selenium_flow_runner.py:256 | into a dictionary, a string name stores the text, and a number, boolean or None name leaves every name a placeholder can use unchanged; an array or object name raises TypeError; into a list, a number or boolean inside `-len..len-1` stores and keeps the length, one outside raises IndexError (OtherException), and any other name raises TypeError; a scalar store raises TypeError |
| FlowSteps.Field | rm/selenium_flow_runner.py:150-154 | an absent or falsy field is None before interpolation; a non-string truthy field raises TypeError; a string is interpolated |
| FlowSteps.FieldsOf | rm/selenium_flow_runner.py:150-154 | all five fields are interpolated, or the failure of one of them is raised |
| FlowSteps.Or | rm/selenium_flow_runner.py:191 | `a or b` is truthy iff either is, and is `a` when `a` is truthy |
| FlowSteps.OrText | rm/selenium_flow_runner.py:256 | `x or default` |
| FlowSteps.StepTimeout | rm/selenium_flow_runner.py:148 | the step's own `timeout` converted, else the default |
| FlowSteps.Locate | rm/selenium_flow_runner.py:214 | a non-empty selector resolves to the classification of its stripped text |
| FlowSteps.ElementStep | rm/selenium_flow_runner.py:161-184 | ValueError without a selector; otherwise the element request on the resolved locator |
| FlowSteps.ElementAssertion | rm/selenium_flow_runner.py:208-230 | ValueError without a selector or a `text or value` needle; otherwise a check of the element's text |
| FlowSteps.PageAssertion | rm/selenium_flow_runner.py:190-206 | ValueError without a `text or value` needle; otherwise a check of the page text |
| FlowSteps.PathStep | rm/selenium_flow_runner.py:238-249 | ValueError without a path |
| FlowSteps.BasePlan | rm/selenium_flow_runner.py:156-256 | the base branches raise only ValueError |
| FlowSteps.ExtendedPlan | xunjian/selenium_flow_suite.py:217-301 | the extra branches raise only ValueError, or TypeError from `int(max_attempts)` |
| FlowSteps.PlanStep | rm/selenium_flow_runner.py:143-259 | a non-object step raises TypeError; a falsy action raises ValueError; a bad step timeout raises first; a planned step's action is one the interpreter handles |
| FlowExec.Verdict | rm/selenium_flow_runner.py:195-197 | the step fails iff the needle's presence is not the expected one |
| FlowExec.PageCheck | rm/selenium_flow_runner.py:190-206 | page assertions make body requests only; they give a value iff the body text was read, and the step then fails exactly when the needle's presence in that text is not the one expected |
| FlowExec.ElementCheck | rm/selenium_flow_runner.py:214-218 | exactly one visibility-wait request that reads the element's text; its failure is re-raised; otherwise the step fails exactly when the needle's presence in that text is not the one expected |
| FlowExec.KeywordStep | rm/selenium_flow_runner.py:232-236 | the step fails iff the body text holds the keyword |
| FlowExec.ShootStep | rm/selenium_flow_runner.py:238-242 | `screenshot` never fails an assertion; it asks for the parent directories, and a failure there is raised with nothing else requested; otherwise it takes the screenshot, whose failure is raised, and the flow goes on with the variables unchanged |
| FlowExec.SourceStep | rm/selenium_flow_runner.py:244-249 | `save_source` never fails an assertion; it requests the parent directories, opens the file, reads the page source and writes it (`or ""`), in that order; the first failing request is the last one made and its exception is raised; on success the four requests are made and the written text is the page source read |
| FlowExec.AwaitStep | xunjian/selenium_flow_suite.py:253-260 | a line read continues the flow with only that request; any other failure than EOF is raised; EOF sleeps, and the sleep's failure is raised |
| FlowExec.QueryStep | xunjian/selenium_flow_suite.py:262-271 | the line read is stored under `name`; EOF stores "" |
| FlowExec.DumpCookiesStep | xunjian/selenium_flow_suite.py:279-285 | `save_cookies` never fails an assertion; it requests the parent directories, opens the file, reads the cookies and dumps them as JSON, in that order; the first failing request is the last one made and its exception is raised; on success the dumped value is the cookies read |
| FlowExec.WithoutSameSite | xunjian/selenium_flow_suite.py:298 | the cookie loses `sameSite` and keeps every other key |
| FlowExec.CookieAdds | xunjian/selenium_flow_suite.py:295-301 | at most one request per item, none at all iff no item is an object, and every request adds an object cookie without `sameSite` |
| FlowExec.AddFrom | xunjian/selenium_flow_suite.py:295-301 | the remaining items make exactly the `add_cookie` requests `CookieAdds` lists, whatever the answers: failures are skipped |
| FlowExec.AddCookies | xunjian/selenium_flow_suite.py:294-301 | raises TypeError (no request) iff the value is not iterable; a list makes the `CookieAdds` requests of its items; a string or an object makes none |
| FlowExec.RestoreCookiesStep | xunjian/selenium_flow_suite.py:287-301 | a missing path raises FileNotFoundError after the existence check, and a failing check is raised; otherwise the JSON is read, its failure raised, and the cookies are added as `AddCookies` says, whose TypeError is raised; the flow then goes on with the variables unchanged |
| FlowExec.RecogniseStep | xunjian/selenium_flow_suite.py:217-227 | the OCR text is stored under `name`; only unavailable OCR raises RuntimeError |
| FlowExec.Exec | rm/selenium_flow_runner.py:156-259 | only assertions can fail the flow; only `set_var`, `prompt` and `ocr_captcha` change the variables; `solve_captcha` always continues |
| FlowExec.ExecCall | rm/selenium_flow_runner.py:156-259 | the method's result and trace are those of `Exec` |
| FlowExec.ShootCall | rm/selenium_flow_runner.py:238-242 | the method's result and trace are those of `ShootStep` |
| FlowExec.SourceCall | rm/selenium_flow_runner.py:244-249 | the method's result and trace are those of `SourceStep` |
| FlowExec.AwaitCall | xunjian/selenium_flow_suite.py:253-260 | the method's result and trace are those of `AwaitStep` |
| FlowExec.DumpCookiesCall | xunjian/selenium_flow_suite.py:279-285 | the method's result and trace are those of `DumpCookiesStep` |
| FlowExec.AddCookiesCall | xunjian/selenium_flow_suite.py:295-301 | the method's result and trace are those of `AddCookies` |
| FlowExec.RestoreCookiesCall | xunjian/selenium_flow_suite.py:287-301 | the method's result and trace are those of `RestoreCookiesStep` |
| FlowRunner.Code | rm/selenium_flow_runner.py:261-272 | 0 iff every step completed; 1 iff an assertion failed; otherwise the exception's code in 2..4 |
| FlowRunner.Step | rm/selenium_flow_runner.py:143-259 | a step that fails validation raises with no request |
| FlowRunner.RunFrom | rm/selenium_flow_runner.py:143-262 | the loop never raises; it stops at a step index inside the list |
| FlowRunner.RunExtends | rm/selenium_flow_runner.py:143-259 | the steps make body requests only |
| FlowRunner.ItemsOf | xunjian/selenium_flow_suite.py:103 | KeyError iff `steps` is missing; a list gives its items; only KeyError or TypeError is raised |
| FlowRunner.DefaultTimeout | rm/selenium_flow_runner.py:131-133 | the caller's timeout when given; else the flow's converted; else 20 |
| FlowRunner.HeadlessOf | rm/selenium_flow_runner.py:134 | headless iff the caller says so or the flow's `headless` is truthy |
| FlowRunner.DriverPathOf | rm/selenium_flow_runner.py:135-137 | the caller's path when truthy, else the flow's (or none) |
| FlowRunner.FlowBody | rm/selenium_flow_runner.py:140-262 | the body never raises; when `steps` cannot be iterated it fails before any step with that error; otherwise it is the loop over the items |
| FlowRunner.RunFlowSteps | rm/selenium_flow_runner.py:128-278 | raises iff the default-timeout conversion raises, before any request; otherwise a code in 0..4, with the driver opened first |
| FlowRunner.RunFlowStepsCode | rm/selenium_flow_runner.py:138-278 | once the timeout converted: a driver that cannot be opened gives its exception's code and nothing else is requested; otherwise the code is that of how the loop over the steps ended, and `quit()` is the last request |
| FlowRunner.LoadFlow | rm/selenium_flow_runner.py:115-125 | accepts exactly an object with a list `steps`, and returns it unchanged; otherwise FileNotFoundError, the decoding error, or ValueError |
| FlowRunner.RunnerMain | rm/selenium_flow_runner.py:281-286 | a missing flow file raises FileNotFoundError; a flow that `load_flow` rejects raises its error after the file is read; an accepted flow is run by `run_flow_steps` with the base actions; the exit code is in 0..4 |
| FlowRunner.StepCall | rm/selenium_flow_runner.py:143-259 | the method's result and trace are those of `Step` |
| FlowRunner.RunSteps | rm/selenium_flow_runner.py:143-262 | the `for` loop over the steps, with the variables threaded through, ends as `RunFrom` does |
| FlowRunner.RunFlowStepsCall | rm/selenium_flow_runner.py:128-278 | the method's result and trace are those of `RunFlowSteps` |
| FlowRunner.RunnerMainCall | rm/selenium_flow_runner.py:281-286 | the method's result and trace are those of `RunnerMain` |
| FlowRunner.Compose | rm/selenium_flow_runner.py:143-262 | running a list is running a prefix, then, if the prefix completes, the rest; otherwise the rest never runs |
| FlowRunner.MismatchStops | rm/selenium_flow_runner.py:190-236 | after a failed assertion the later steps never run, and the code is 1 |
| FlowRunner.InvalidStepStops | rm/selenium_flow_runner.py:258-272 | a step that fails validation after completed steps ends the run there with code 4; the earlier steps' requests stand |
| FlowRunner.MissingActionGivesFour | rm/selenium_flow_runner.py:144-146 | a step without an action fails with ValueError at its index; nothing after the earlier steps runs |
| FlowRunner.CompletedPrefixes | rm/selenium_flow_runner.py:261-262 | code 0 only when every prefix of the steps completed |
| FlowRunner.QuitOnceIffCreated | rm/selenium_flow_runner.py:273-278 | exactly one `quit()` iff the driver was created, and then as the last request |
| FlowRunner.TimeoutPrecedence | rm/selenium_flow_runner.py:131-148 | a step's timeout is its own, else the caller's, else the flow's, else 20 |
| FlowRunner.SuiteExtendsBase | xunjian/selenium_flow_suite.py:103-215 | a step the base interpreter accepts is planned identically by the suite's |
| FlowRunner.UnhandledActionRejected | rm/selenium_flow_runner.py:258-259 | an action without a branch raises, and its code is 4 |
| FlowRunner.BaseRejectsExtended | rm/selenium_flow_runner.py:258-259 | the suite-only actions are unsupported in the base interpreter (code 4) |
| FlowRunner.SwitchToFrameUnsupported | xunjian/selenium_flow_suite.py:303-304 | `switch_to_frame` raises in both interpreters, with code 4 |
| FlowRunner.SetVarPlan | rm/selenium_flow_runner.py:251-256 | `set_var` plans to store its text under its name |
| FlowRunner.GotoPlaceholderPlan | rm/selenium_flow_runner.py:150-159 | `goto` to `${k}` visits k's current value |
| FlowRunner.TwoSteps | rm/selenium_flow_runner.py:143 | a two-step run whose first step continues leaves the second step's trace |
| FlowRunner.SetVarThenGoto | rm/selenium_flow_runner.py:251-256 | a later step interpolates against the updated variables: `goto ${k}` after `set_var k=v` visits v |
| Report.StatusLabel | xunjian/selenium_flow_suite.py:41-47 | "UNKNOWN" iff the code is outside 0..4 |
| Report.StatusLabelsDistinct | xunjian/selenium_flow_suite.py:41-47 | codes 0..4 have pairwise distinct labels |
| Report.Entry | xunjian/selenium_flow_suite.py:347-355 | the entry carries the name, url, code, the code's label, timeout and headless |
| Report.Summarise | xunjian/selenium_flow_suite.py:366-371 | the counts sum to the total; pass equals the total iff all codes are 0; failures is 0 iff all codes are 0 or 1 |
| Report.SummariseAppend | xunjian/selenium_flow_suite.py:366-371 | the counts of a concatenation are the sums of the counts |
| Report.SummariseOne | xunjian/selenium_flow_suite.py:366-371 | each result lands in exactly one bucket, chosen by its code |
| Report.AnyNonZero | xunjian/selenium_flow_suite.py:384 | true iff some result has a non-zero code |
| Report.ExitStatus | xunjian/selenium_flow_suite.py:384-386 | 0 or 1, and 1 iff some code is non-zero |
| Report.ExitStatusAgreesWithSummary | xunjian/selenium_flow_suite.py:366-386 | exit 0 iff every result is counted as a pass |
| Report.ResultJson | xunjian/selenium_flow_suite.py:347-355 | the entry object has exactly the keys name, exit_code, status, timeout and headless, plus `url` iff the entry has one, each holding the entry's value; the batch checker writes the same keys at rm/batch_selenium_check.py:126-133 |
| Report.ResultsJson | xunjian/selenium_flow_suite.py:372 | one object per result, in order |
| Report.ReportJson | xunjian/selenium_flow_suite.py:364-373 | exactly the keys generated_at, total, summary and results; total is the number of results |
| Report.WriteReport | xunjian/selenium_flow_suite.py:363-375 | the file is opened, then the report is dumped into that file; a failing open raises |
| Report.WriteReportCall | xunjian/selenium_flow_suite.py:363-375 | the method's result and trace are those of `WriteReport` |
| Report.RunItems | xunjian/selenium_flow_suite.py:334-360 | no more entries than items; exactly one per item without `stop_on_fail` |
| Report.RunItemsRecords | xunjian/selenium_flow_suite.py:347-355 | the k-th entry is the one recorded for the k-th item |
| Report.StopOnFailStopsAtFirstFailure | xunjian/selenium_flow_suite.py:357-358 | under `stop_on_fail`, every entry but the last passed, and an early stop ends with a non-zero entry |
| Report.NameOr | xunjian/selenium_flow_suite.py:336 | the entry's `name` if truthy, else the prefix followed by `index+1`; the suite uses prefix `flow_` here and the batch checker `case_` at rm/batch_selenium_check.py:95 |
| FlowSuite.LoadSuite | xunjian/selenium_flow_suite.py:71-85 | a list becomes `{"flows": list}`; an object with a list `flows` is returned as it is; everything else raises ValueError |
| FlowSuite.SuiteDefaults | xunjian/selenium_flow_suite.py:328-332 | default headless is the command line's or the suite's; the suite's timeout and driver path win over the command line's |
| FlowSuite.FlowOverrides | xunjian/selenium_flow_suite.py:339-343 | the flow's timeout, headless and driver path win over the suite defaults |
| FlowSuite.RunEntry | xunjian/selenium_flow_suite.py:335-355 | a non-object flow raises; otherwise the flow runs with the suite's actions, and its entry records the name, code and label |
| FlowSuite.SuiteEntryRecords | xunjian/selenium_flow_suite.py:336-355 | every entry describes its flow |
| FlowSuite.RunSuite | xunjian/selenium_flow_suite.py:326-360 | a bad suite timeout raises before any flow runs; otherwise the loop runs over the flows |
| FlowSuite.SuiteMain | xunjian/selenium_flow_suite.py:378-386 | a missing suite file raises FileNotFoundError; a normal exit is 0 or 1, and the last request writes to the output path the report of some results whose exit status it is |
| FlowSuite.RunEntryCall | xunjian/selenium_flow_suite.py:335-355 | the method's result and trace are those of `RunEntry` |
| FlowSuite.RunSuiteCall | xunjian/selenium_flow_suite.py:326-360 | the method's result and trace are those of `RunSuite` |
| FlowSuite.RunFlowsCall | xunjian/selenium_flow_suite.py:334-360 | the loop that appends to `results` and breaks under `stop_on_fail` ends as `RunItems` over the suite's entries does |
| FlowSuite.SuiteMainCall | xunjian/selenium_flow_suite.py:378-386 | the method's result and trace are those of `SuiteMain` |
| FlowSuite.EffectiveHeadless | xunjian/selenium_flow_suite.py:328-343 | a flow's driver is headless by the flow's own flag, else by the command line's or the suite's |
| FlowSuite.EffectiveDriverPath | xunjian/selenium_flow_suite.py:328-343 | the flow's own path, else the suite's, else the command line's; a falsy inherited one means none |
| FlowSuite.EffectiveTimeout | xunjian/selenium_flow_suite.py:328-343 | a flow's default step timeout is its own, else the suite's, else the command line's |
| FlowSuite.SuiteResults | xunjian/selenium_flow_suite.py:334-360 | one entry per flow run, in input order, named and labelled; under `stop_on_fail`, the entries end at the first non-zero code, which is included; without it, their number equals the number of flows |
| FlowSuite.SuiteReportConsistent | xunjian/selenium_flow_suite.py:363-386 | the summary buckets partition the results, and the exit status is 0 iff all of them passed |
| BatchCheck.LoadConfig | rm/batch_selenium_check.py:20-27 | accepts exactly an array; otherwise FileNotFoundError, the decoding error, or ValueError |
| BatchCheck.CaseOf | rm/batch_selenium_check.py:97-123 | KeyError if a required field is missing; the call arguments hold the required fields unchanged; `feature_selector or ""`; the case's knobs win over the batch defaults |
| BatchCheck.RunCase | rm/batch_selenium_check.py:94-134 | a non-object case, or a broken one, raises with no request; otherwise `run_flow` runs, and the entry records the name, url, code and label |
| BatchCheck.RunCases | rm/batch_selenium_check.py:85-139 | no more entries than cases, and exactly one per case without `stop_on_fail` |
| BatchCheck.BatchEntryRecords | rm/batch_selenium_check.py:95-134 | every entry describes its case |
| BatchCheck.BatchMain | rm/batch_selenium_check.py:157-171 | a missing config file raises FileNotFoundError; a normal exit is 0 or 1, and the last request writes to the output path the report of some results whose exit status it is |
| BatchCheck.RunCaseCall | rm/batch_selenium_check.py:94-134 | the method's result and trace are those of `RunCase` |
| BatchCheck.RunCasesCall | rm/batch_selenium_check.py:85-139 | the loop that appends to `results` and breaks under `stop_on_fail` ends as `RunItems` with the batch entries does |
| BatchCheck.BatchMainCall | rm/batch_selenium_check.py:157-171 | the method's result and trace are those of `BatchMain` |
| BatchCheck.MissingFieldAborts | rm/batch_selenium_check.py:97-102 | a case that lacks a required field raises KeyError and makes no request |
| BatchCheck.BatchResults | rm/batch_selenium_check.py:93-139 | one entry per case run, in input order, named with its url and label; under `stop_on_fail`, the entries end at the first non-zero code, which is included; without it, their number equals the number of cases |

## Left out

- Browser work is one oracle request per primitive, answered with a JSON value or an exception. `create_webdriver` and its options, the page-load timeout, `WebDriverWait` polling, clear/send_keys/click, `switch_to` and cookie get/add are not modelled further.
- File work is oracle requests too: existence checks, `json.load`, `open(..., "w")`, writes, `json.dump` and `os.makedirs`. Only the shape checks on the decoded JSON are modelled.
- JSON numbers are integers. Floats are not modelled.
- Key order in the written JSON is not modelled.
- Image work is one `Recognize` request, whose answer is the engine's raw text. That covers `preprocess_image`, `extract_captcha_image`, base64 decoding and `image_to_string`.
- `CaptchaSolver.extract_image` and `CaptchaSolver.preprocess` are left out, because they only forward to that library code.
- `is_ocr_available`, and the import-time `OCR_AVAILABLE` flag, become the boolean parameter `available`.
- `time.sleep` is a `Pause` request whose answer only matters when it raises. The `float(seconds)` conversion is not modelled.
- `datetime.utcnow().isoformat()` is the parameter `generatedAt`.
- `input()` is a `ReadLine` request that carries the message shown; EOF arrives as EOFError. In the message of a `prompt` step, an array or object `name` is rendered "" by `Show`, where the f-string prints its repr.
- `argparse` parsing, `print` logging and `sys.exit` are not modelled. The `main` functions return the exit status instead.
- The hard-coded demo `main` of `xunjian/selenium_check.py` is not modelled.
- test.py and rm/test_pytesseract.py are not part of this model. They are ad-hoc scripts with no contract.
- SeleniumOcr.Attempts: its own contract gives only the bounds. What a True or False answer means is stated by `SeleniumOcr.FailedAttemptsChain`, `SeleniumOcr.SolvedAttemptsChain` and `SeleniumOcr.AttemptsAccepted`.
- SeleniumOcr.SolveCaptcha: its own contract gives only the ValueError guard and the extension of the trace. What its True and False mean is stated by `SeleniumOcr.SolveCaptchaChain`.
- Runtime.LowerAscii: only ASCII letters are lowered, not all of Unicode. The results of `lower()` are compared only against the ASCII strings `xpath=`, `css=` and `invalid`. Some non-ASCII characters lower to ASCII letters, for example 'İ' lowers to 'i' followed by a combining dot, and 'K' (the Kelvin sign) lowers to 'k'. The model does not lower them.
- SeleniumCheck.ContainsErrorKeyword: word characters for `\b` are ASCII letters, digits and `_`. Python's regular expressions also count other Unicode letters and digits as word characters. The case folding of `IGNORECASE` is exact here, because the non-ASCII characters it matches to ASCII letters ('İ' and 'ı' to 'i', 'ſ' to 's', the Kelvin sign to 'k') match no letter of "error".
- Runtime.ParseInt: accepts an optional sign and ASCII digits. Python's `int()` also accepts `_` separators and other Unicode digits.
- Runtime.Show: `str()` of an array or object flow variable is rendered as "". Only scalars are reproduced as Python prints them.
- `AttributeError` (a method called on a value of the wrong JSON kind) is modelled as TypeError. Both reach the same `except Exception` clause, or propagate the same way.
- FlowSteps.InitialStore: a non-empty list `variables` is kept only as its length. Its lookups fail (a list has no `get`, AttributeError, modelled as TypeError). A store at an index inside the list succeeds, and one outside raises IndexError, modelled as OtherException; the stored value is not kept, since no placeholder can read it. A truthy string, number or boolean fails at every lookup and every store. Python raises TypeError or AttributeError there, depending on the kind of value.
- FlowSteps.Assign: a number or boolean `name` leaves the looked-up variables as they were. Python stores it under a key that no `${...}` can name.
- FlowRunner.RunFlowSteps: its own contract gives the raise condition, the range of the code and the driver opened first. Which code comes back, and that `quit()` ends the run, is stated by `FlowRunner.RunFlowStepsCode`.
- Runtime.Strip: its own contract gives the ends and the length. That the result is the middle slice of the input is stated by `Runtime.StripSlice` and `Runtime.StripTrailing`.
- Interpolation.Substitute: the pass is specified by its lemmas (`PlaceholderReplaced`, `EmptyBracesStay`, `NoMatchUnchanged`, `UnboundShrinks` and the examples), not by a contract of its own.
