/** `_interpolate`: one left-to-right pass of `re.sub(r"\$\{([^}]+)\}", repl, text)`
    where `repl` looks the captured name up in the flow's variables. */
module Interpolation {
  import opened Runtime

  /** The flow variables, each already rendered as `str(value)`. */
  type Vars = map<string, string>

  /** `str(variables.get(key, ""))`. */
  function Lookup(vars: Vars, key: string): (v: string)
    ensures key in vars ==> v == vars[key]
    ensures key !in vars ==> v == ""
  {
    if key in vars then vars[key] else ""
  }

  /** The first `}` at or after position `j`. */
  function FirstClose(s: string, j: nat): (r: Option<nat>)
    ensures r.Some? ==> j <= r.value < |s| && s[r.value] == '}'
    ensures r.Some? ==> forall k :: j <= k < r.value ==> s[k] != '}'
    ensures r.None? ==> forall k :: j <= k < |s| ==> s[k] != '}'
    decreases |s| - j
  {
    if j >= |s| then None
    else if s[j] == '}' then Some(j)
    else FirstClose(s, j + 1)
  }

  /** Whether the pattern matches at the start of `s`: `${`, then at least one
      character up to the first `}`. The result is the position of that `}`. */
  function MatchAtStart(s: string): (r: Option<nat>)
    ensures r.Some? ==>
      2 < r.value < |s| && s[0] == '$' && s[1] == '{' && s[r.value] == '}'
      && forall k :: 2 <= k < r.value ==> s[k] != '}'
    ensures r.None? && |s| >= 2 && s[0] == '$' && s[1] == '{' ==>
      forall k :: 2 < k < |s| ==> s[k] == '}' ==> exists j :: 2 <= j < k && s[j] == '}'
  {
    if |s| >= 2 && s[0] == '$' && s[1] == '{' then
      match FirstClose(s, 2)
      case None => None
      case Some(k) => if k > 2 then Some(k) else (assert s[2] == '}'; None)
    else None
  }

  /** The substitution pass: a match is replaced by its variable's text and
      scanning resumes after it; any other character is copied. */
  function Substitute(s: string, vars: Vars): string
    decreases |s|
  {
    if s == [] then []
    else
      match MatchAtStart(s)
      case Some(k) => Lookup(vars, s[2..k]) + Substitute(s[k + 1..], vars)
      case None => [s[0]] + Substitute(s[1..], vars)
  }

  /** With no variables every placeholder is dropped, so the text can only get shorter. */
  lemma {:induction false} UnboundShrinks(s: string)
    ensures |Substitute(s, map[])| <= |s|
    decreases |s|
  {
    if s != [] {
      match MatchAtStart(s)
      case Some(k) => UnboundShrinks(s[k + 1..]);
      case None => UnboundShrinks(s[1..]);
    }
  }

  /** `_interpolate(text, variables)`: `None` is handed back untouched. */
  function Interpolate(text: Option<string>, vars: Vars): (r: Option<string>)
    ensures text.None? <==> r.None?
  {
    match text
    case None => None
    case Some(s) => Some(Substitute(s, vars))
  }

  /** A template in which the pattern matches nowhere is returned unchanged. */
  lemma {:induction false} NoMatchUnchanged(s: string, vars: Vars)
    requires forall i :: 0 <= i <= |s| ==> MatchAtStart(s[i..]).None?
    ensures Substitute(s, vars) == s
    decreases |s|
  {
    if s != [] {
      assert MatchAtStart(s[0..]).None? && s[0..] == s;
      forall i | 0 <= i <= |s[1..]| ensures MatchAtStart(s[1..][i..]).None? {
        assert s[1..][i..] == s[i + 1..];
      }
      NoMatchUnchanged(s[1..], vars);
    }
  }

  /** A template without any `}` cannot contain a placeholder. */
  lemma NoCloseUnchanged(s: string, vars: Vars)
    requires forall i :: 0 <= i < |s| ==> s[i] != '}'
    ensures Interpolate(Some(s), vars) == Some(s)
  {
    forall i | 0 <= i <= |s| ensures MatchAtStart(s[i..]).None? {
      assert forall k :: 0 <= k < |s[i..]| ==> s[i..][k] == s[i + k];
    }
    NoMatchUnchanged(s, vars);
  }

  /** `${key}` with a non-empty key and no `}` in it becomes the key's text (or "");
      that text is copied as it is, never scanned again, and scanning resumes right
      after the `}`. */
  lemma PlaceholderReplaced(key: string, rest: string, vars: Vars)
    requires key != [] && forall k :: 0 <= k < |key| ==> key[k] != '}'
    ensures Substitute("${" + key + "}" + rest, vars) == Lookup(vars, key) + Substitute(rest, vars)
  {
    var s := "${" + key + "}" + rest;
    var close := |key| + 2;
    assert s[close] == '}';
    forall k | 2 <= k < close ensures s[k] != '}' {
      assert s[k] == key[k - 2];
    }
    var m := MatchAtStart(s);
    assert m == Some(close) by {
      var f := FirstClose(s, 2);
      assert f.Some? && f.value <= close;
    }
    assert s[2..close] == key;
    assert s[close + 1..] == rest;
  }

  /** `${}` has no name to capture and stays as written. */
  lemma EmptyBracesStay(rest: string, vars: Vars)
    ensures Substitute("${}" + rest, vars) == "${}" + Substitute(rest, vars)
  {
    var s, s1, s2 := "${}" + rest, "{}" + rest, "}" + rest;
    assert s[0] == '$' && s[1] == '{' && s[2] == '}';
    assert FirstClose(s, 2) == Some(2);
    assert MatchAtStart(s) == None;
    assert s1[0] == '{' && s2[0] == '}';
    assert MatchAtStart(s1) == None && MatchAtStart(s2) == None;
    assert s[1..] == s1 && s1[1..] == s2 && s2[1..] == rest;
    calc {
      Substitute(s, vars);
      [s[0]] + Substitute(s1, vars);
      [s[0]] + ([s1[0]] + Substitute(s2, vars));
      [s[0]] + ([s1[0]] + ([s2[0]] + Substitute(rest, vars)));
      "${}" + Substitute(rest, vars);
    }
  }

  /** `"${a}-${b}"` with `a` bound to "1" and `b` unbound gives "1-". */
  lemma TwoPlaceholders()
    ensures Interpolate(Some("${a}-${b}"), map["a" := "1"]) == Some("1-")
  {
    var vars := map["a" := "1"];
    var b, tail := "${b}", "-${b}";
    PlaceholderReplaced("b", "", vars);
    assert "${" + "b" + "}" + "" == b;
    assert Substitute(b, vars) == "";
    assert MatchAtStart(tail) == None;
    assert tail[1..] == b;
    assert Substitute(tail, vars) == "-";
    PlaceholderReplaced("a", tail, vars);
    assert "${" + "a" + "}" + tail == "${a}-${b}";
    assert Substitute("${a}-${b}", vars) == "1-";
    assert Interpolate(Some("${a}-${b}"), vars) == Some(Substitute("${a}-${b}", vars));
  }

  /** Substituted text is not rescanned: a variable whose value is itself a
      placeholder puts that placeholder into the result. */
  lemma NotRescanned()
    ensures Interpolate(Some("${a}"), map["a" := "${b}", "b" := "x"]) == Some("${b}")
  {
    var vars := map["a" := "${b}", "b" := "x"];
    PlaceholderReplaced("a", "", vars);
    assert "${" + "a" + "}" + "" == "${a}";
    assert Lookup(vars, "a") == "${b}";
    assert Substitute("", vars) == "";
    assert Substitute("${a}", vars) == "${b}";
    assert Interpolate(Some("${a}"), vars) == Some(Substitute("${a}", vars));
  }

  /** Whether the pattern matches anywhere in `s`, i.e. whether `re.sub` calls
      its replacement function at all. */
  function HasMatch(s: string): (b: bool)
    ensures b <==> exists i :: 0 <= i <= |s| && MatchAtStart(s[i..]).Some?
    decreases |s|
  {
    if s == [] then (assert forall i :: 0 <= i <= |s| ==> s[i..] == []; false)
    else if MatchAtStart(s).Some? then (assert s[0..] == s; true)
    else
      var r := HasMatch(s[1..]);
      assert forall i :: 1 <= i <= |s| ==> s[i..] == s[1..][i - 1..];
      r
  }

  /** Without a match the pass has nothing to look up: the template comes back as
      it is, whatever the variables. */
  lemma NoPlaceholderUnchanged(s: string, vars: Vars)
    requires !HasMatch(s)
    ensures Substitute(s, vars) == s
  {
    NoMatchUnchanged(s, vars);
  }
}
