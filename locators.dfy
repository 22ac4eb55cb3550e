/** `_resolve_locator`: the classification of a selector string into a Selenium
    locator strategy and the value handed to that strategy. The function exists
    twice in the scripts with the same body; this module models both copies. */
module Locators {
  import opened Runtime

  datatype Strategy = XPath | CssSelector

  datatype Locator = Locator(strategy: Strategy, value: string)

  /** `s.split(sep, 1)[1]`: the text after the first `sep`, when there is one. */
  function AfterFirst(s: string, sep: char): (r: Option<string>)
    ensures r.None? <==> sep !in s
    ensures r.Some? ==> exists i :: FirstAt(s, sep, i) && r.value == s[i + 1..]
  {
    if s == [] then None
    else if s[0] == sep then (assert FirstAt(s, sep, 0); Some(s[1..]))
    else
      match AfterFirst(s[1..], sep)
      case None => None
      case Some(rest) =>
        ghost var i :| FirstAt(s[1..], sep, i) && rest == s[1..][i + 1..];
        assert FirstAt(s, sep, i + 1);
        Some(rest)
  }

  /** `i` is the position of the first `sep` in `s`. */
  predicate FirstAt(s: string, sep: char, i: int) {
    0 <= i < |s| && s[i] == sep && forall j :: 0 <= j < i ==> s[j] != sep
  }

  /** When a string starts with `prefix` folded to lower case and the prefix
      ends with its only `=`, the text after the first `=` is what follows the prefix. */
  lemma AfterFirstEquals(s: string, prefix: string)
    requires StartsWith(Lower(s), prefix)
    requires |prefix| > 0 && prefix[|prefix| - 1] == '=' && forall k :: 0 <= k < |prefix| - 1 ==> prefix[k] != '='
    ensures AfterFirst(s, '=') == Some(s[|prefix|..])
  {
    var n := |prefix| - 1;
    assert Lower(s)[n] == prefix[n];
    assert s[n] == '=';
    forall k | 0 <= k < n ensures s[k] != '=' {
      assert Lower(s)[k] == prefix[k];
    }
    var r := AfterFirst(s, '=');
    var i :| FirstAt(s, '=', i) && r.value == s[i + 1..];
    assert i >= n;
    assert i <= n;
  }

  /** The strategy decision `_resolve_locator` makes on an already stripped selector:
      prefixes tried in order `xpath=`, `css=` (both in any letter case, the value
      after them kept as written), then `//` or `.//` for a whole XPath, else CSS. */
  function Classify(sel: string): (l: Locator)
    ensures StartsWith(Lower(sel), "xpath=") ==> l == Locator(XPath, sel[6..])
    ensures !StartsWith(Lower(sel), "xpath=") && StartsWith(Lower(sel), "css=") ==>
      l == Locator(CssSelector, sel[4..])
    ensures !StartsWith(Lower(sel), "xpath=") && !StartsWith(Lower(sel), "css=") ==>
      l == Locator(if StartsWith(sel, "//") || StartsWith(sel, ".//") then XPath else CssSelector, sel)
  {
    var lower := Lower(sel);
    if StartsWith(lower, "xpath=") then
      AfterFirstEquals(sel, "xpath=");
      Locator(XPath, AfterFirst(sel, '=').value)
    else if StartsWith(lower, "css=") then
      AfterFirstEquals(sel, "css=");
      Locator(CssSelector, AfterFirst(sel, '=').value)
    else if StartsWith(sel, "//") || StartsWith(sel, ".//") then Locator(XPath, sel)
    else Locator(CssSelector, sel)
  }

  /** `_resolve_locator(selector)`; `None` stands for Python's `None`. An empty or
      missing selector raises ValueError before stripping; anything else is
      stripped and classified. */
  function ResolveLocator(selector: Option<string>): (r: Outcome<Locator>)
    ensures r.Raise? <==> selector.None? || selector.value == ""
    ensures r.Raise? ==> r.fault == ValueError
    ensures r.Value? ==> selector.Some? && r.value == Classify(Strip(selector.value))
  {
    if selector.None? || selector.value == "" then Raise(ValueError)
    else Value(Classify(Strip(selector.value)))
  }

  /** A selector made only of whitespace passes the emptiness check and resolves to an empty CSS selector. */
  lemma WhitespaceSelector(s: string)
    requires s != [] && forall k :: 0 <= k < |s| ==> IsSpace(s[k])
    ensures ResolveLocator(Some(s)) == Value(Locator(CssSelector, ""))
  {
  }

  /** `p + v` where `p` is `xpath=` in any letter case: the value after the prefix
      is taken as an XPath with its own letter case kept. */
  lemma XPathPrefix(p: string, v: string)
    requires |p| == 6 && Lower(p) == "xpath="
    requires v == [] || !IsSpace(v[|v| - 1])
    ensures ResolveLocator(Some(p + v)) == Value(Locator(XPath, v))
  {
    var s := p + v;
    assert Lower(p)[0] == 'x' && Lower(p)[5] == '=';
    assert !IsSpace(s[0]) && !IsSpace(s[|s| - 1]);
    StripIdle(s);
    assert Lower(s)[..6] == Lower(p);
    assert s[6..] == v;
    assert Classify(s) == Locator(XPath, v);
  }

  /** `p + v` where `p` is `css=` in any letter case: the value is CSS even when it
      looks like an XPath, because the `css=` check comes before the `//` check. */
  lemma CssPrefix(p: string, v: string)
    requires |p| == 4 && Lower(p) == "css="
    requires v == [] || !IsSpace(v[|v| - 1])
    ensures ResolveLocator(Some(p + v)) == Value(Locator(CssSelector, v))
  {
    var s := p + v;
    assert Lower(p)[0] == 'c' && Lower(p)[3] == '=';
    assert !IsSpace(s[0]) && !IsSpace(s[|s| - 1]);
    StripIdle(s);
    assert Lower(s)[..4] == Lower(p);
    FirstCharDiffers(Lower(s), "xpath=");
    assert s[4..] == v;
    assert Classify(s) == Locator(CssSelector, v);
  }

  /** A selector starting with `//` or `.//` is an XPath, handed over whole. */
  lemma SlashSelector(s: string)
    requires StartsWith(s, "//") || StartsWith(s, ".//")
    requires !IsSpace(s[|s| - 1])
    ensures ResolveLocator(Some(s)) == Value(Locator(XPath, s))
  {
    assert s[0] == '/' || s[0] == '.';
    StripIdle(s);
    assert Lower(s)[0] == s[0];
    FirstCharDiffers(Lower(s), "xpath=");
    FirstCharDiffers(Lower(s), "css=");
    assert Classify(s) == Locator(XPath, s);
  }

  lemma FirstCharDiffers(s: string, prefix: string)
    requires s != [] && prefix != [] && s[0] != prefix[0]
    ensures !StartsWith(s, prefix)
  {
  }

  /** Whitespace around a selector never changes how it resolves. */
  lemma SurroundingSpaceIgnored(s: string)
    requires Strip(s) != []
    ensures ResolveLocator(Some(s)) == ResolveLocator(Some(Strip(s)))
  {
    StripIdle(Strip(s));
  }
}
