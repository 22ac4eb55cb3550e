/** Values and exceptions of the host language that the flow scripts are written
    against: decoded JSON documents, the exception classes the scripts catch,
    and the few `str` operations they rely on (`strip`, `lower`, `in`, `int`, `str`). */
module Runtime {

  datatype Option<+T> = None | Some(value: T)

  /** The exception classes that reach an `except` clause of the scripts.
      The first three are Selenium's, all of them subclasses of `WebDriverException`;
      `WebDriverException` here stands for every other subclass. `TypeError` also
      stands for `AttributeError` (a method called on a JSON value of the wrong kind). */
  datatype Fault =
    | TimeoutException
    | NoSuchElementException
    | WebDriverException
    | ValueError
    | KeyError
    | TypeError
    | FileNotFoundError
    | RuntimeError
    | EOFError
    | OtherException     // any other `Exception`, such as an `IndexError`

  predicate IsWebDriverException(f: Fault) {
    f.TimeoutException? || f.NoSuchElementException? || f.WebDriverException?
  }

  /** A computation that either returns a value or raises. */
  datatype Outcome<+T> = Value(value: T) | Raise(fault: Fault)

  /** A document as `json.load` returns it (numbers restricted to integers). */
  datatype Json =
    | JNull
    | JBool(b: bool)
    | JNum(n: int)
    | JStr(s: string)
    | JArr(items: seq<Json>)
    | JObj(fields: map<string, Json>)

  /** Python truthiness of a decoded JSON value (`if x:`, `x or y`): only `None`,
      `False`, zero and the empty containers are false. */
  predicate Truthy(j: Json)
    ensures !Truthy(j) <==> j in {JNull, JBool(false), JNum(0), JStr(""), JArr([]), JObj(map[])}
  {
    match j
    case JNull => false
    case JBool(b) => b
    case JNum(n) => n != 0
    case JStr(s) => s != ""
    case JArr(xs) => xs != []
    case JObj(m) => m != map[]
  }

  /** `d.get(key, default)` on a JSON object; `_get_case_field` is the same function. */
  function Get(d: map<string, Json>, key: string, default: Json): (r: Json)
    ensures key in d ==> r == d[key]
    ensures key !in d ==> r == default
  {
    if key in d then d[key] else default
  }

  /** A text-valued reply guarded by `or ""`: anything that is not a string reads as "". */
  function TextOf(j: Json): string {
    if j.JStr? then j.s else ""
  }

  // ---------------------------------------------------------------------------
  // Characters and strings

  /** The characters `str.isspace` accepts. */
  predicate IsSpace(c: char) {
    c == ' ' || ('\t' <= c <= '\r') || ('\U{1C}' <= c <= '\U{1F}') || c == '\U{85}' || c == '\U{A0}'
    || c == '\U{1680}' || ('\U{2000}' <= c <= '\U{200A}') || c == '\U{2028}' || c == '\U{2029}'
    || c == '\U{202F}' || c == '\U{205F}' || c == '\U{3000}'
  }

  predicate IsAsciiDigit(c: char) { '0' <= c <= '9' }

  predicate IsAsciiAlnum(c: char) {
    ('a' <= c <= 'z') || ('A' <= c <= 'Z') || IsAsciiDigit(c)
  }

  /** Lower-casing of ASCII letters; every other character is kept. */
  function LowerAscii(c: char): (l: char)
    ensures 'A' <= c <= 'Z' ==> l as int == c as int + 32
    ensures !('A' <= c <= 'Z') ==> l == c
  {
    if 'A' <= c <= 'Z' then (c as int + 32) as char else c
  }

  function TrimLeft(s: string): (r: string)
    ensures |r| <= |s| && r == s[|s| - |r|..]
    ensures r == [] || !IsSpace(r[0])
    ensures forall k :: 0 <= k < |s| - |r| ==> IsSpace(s[k])
  {
    if s != [] && IsSpace(s[0]) then TrimLeft(s[1..]) else s
  }

  function TrimRight(s: string): (r: string)
    ensures |r| <= |s| && r == s[..|r|]
    ensures r == [] || !IsSpace(r[|r| - 1])
    ensures forall k :: |r| <= k < |s| ==> IsSpace(s[k])
  {
    if s != [] && IsSpace(s[|s| - 1]) then TrimRight(s[..|s| - 1]) else s
  }

  /** The number of whitespace characters `s` starts with. */
  function LeadingSpaces(s: string): (n: nat)
    ensures n <= |s|
    ensures forall k :: 0 <= k < n ==> IsSpace(s[k])
    ensures n < |s| ==> !IsSpace(s[n])
  {
    var l := TrimLeft(s);
    assert l == [] || l[0] == s[|s| - |l|];
    |s| - |l|
  }

  /** `str.strip()`: the string without its leading and trailing whitespace. */
  function Strip(s: string): (r: string)
    ensures r == [] || (!IsSpace(r[0]) && !IsSpace(r[|r| - 1]))
    ensures |r| <= |s|
    ensures (forall k :: 0 <= k < |s| ==> IsSpace(s[k])) <==> r == []
  {
    TrimRight(TrimLeft(s))
  }

  /** What `strip()` keeps is the slice of `s` right after its leading whitespace. */
  lemma StripSlice(s: string)
    ensures LeadingSpaces(s) + |Strip(s)| <= |s|
    ensures Strip(s) == s[LeadingSpaces(s)..LeadingSpaces(s) + |Strip(s)|]
  {
    var l := TrimLeft(s);
    var n := |s| - |l|;
    var r := TrimRight(l);
    assert l == s[n..];
    assert r == s[n..n + |r|];
  }

  /** Everything `strip()` drops behind the slice is whitespace. */
  lemma StripTrailing(s: string, k: nat)
    requires LeadingSpaces(s) + |Strip(s)| <= k < |s|
    ensures IsSpace(s[k])
  {
    var l := TrimLeft(s);
    var n := |s| - |l|;
    assert s[k] == l[k - n];
  }

  /** A string with no whitespace at either end is its own `strip()`. */
  lemma {:induction false} StripIdle(s: string)
    requires s == [] || (!IsSpace(s[0]) && !IsSpace(s[|s| - 1]))
    ensures Strip(s) == s
  {
  }

  predicate StartsWith(s: string, prefix: string) {
    |prefix| <= |s| && s[..|prefix|] == prefix
  }

  /** `s.lower()`, on the ASCII letters (see `LowerAscii`). */
  function Lower(s: string): (r: string)
    ensures |r| == |s| && forall k :: 0 <= k < |s| ==> r[k] == LowerAscii(s[k])
  {
    seq(|s|, k requires 0 <= k < |s| => LowerAscii(s[k]))
  }

  predicate OccursAt(hay: string, needle: string, i: int) {
    0 <= i && i + |needle| <= |hay| && hay[i..i + |needle|] == needle
  }

  /** First position at or after `i` where `needle` occurs. */
  function FindFrom(hay: string, needle: string, i: nat): (r: Option<nat>)
    ensures r.Some? ==> i <= r.value && OccursAt(hay, needle, r.value)
    ensures r.Some? ==> forall k :: i <= k < r.value ==> !OccursAt(hay, needle, k)
    ensures r.None? ==> forall k :: i <= k ==> !OccursAt(hay, needle, k)
    decreases |hay| - i
  {
    if i + |needle| > |hay| then None
    else if hay[i..i + |needle|] == needle then Some(i)
    else FindFrom(hay, needle, i + 1)
  }

  /** `needle in hay`. */
  predicate Contains(hay: string, needle: string)
    ensures Contains(hay, needle) <==> exists i :: OccursAt(hay, needle, i)
  {
    FindFrom(hay, needle, 0).Some?
  }

  /** Decimal digits of a natural number, as `str(n)` writes them. */
  function NatToString(n: nat): (s: string)
    ensures s != [] && forall k :: 0 <= k < |s| ==> IsAsciiDigit(s[k])
    ensures |s| > 1 ==> s[0] != '0'
    decreases n
  {
    if n < 10 then [(n + '0' as int) as char]
    else NatToString(n / 10) + [(n % 10 + '0' as int) as char]
  }

  function DigitsValue(s: string): nat
    requires forall k :: 0 <= k < |s| ==> IsAsciiDigit(s[k])
    decreases |s|
  {
    if s == [] then 0
    else
      var last := s[|s| - 1];
      assert IsAsciiDigit(last);
      DigitsValue(s[..|s| - 1]) * 10 + (last as int - '0' as int)
  }

  predicate AllDigits(s: string) {
    forall k :: 0 <= k < |s| ==> IsAsciiDigit(s[k])
  }

  /** What `int()` accepts once the surrounding whitespace is stripped: an
      optional sign, then at least one decimal digit. */
  predicate SignedDigits(u: string) {
    (u != [] && AllDigits(u)) || (|u| >= 2 && (u[0] == '+' || u[0] == '-') && AllDigits(u[1..]))
  }

  /** `int(s)` for a string: surrounding whitespace, an optional sign, decimal
      digits. Anything else is a ValueError. */
  function ParseInt(s: string): (r: Outcome<int>)
    ensures r.Raise? ==> r.fault == ValueError
    ensures r.Value? <==> SignedDigits(Strip(s))
    ensures var u := Strip(s);
      r.Value? ==>
        (AllDigits(u) ==> r.value == DigitsValue(u)) &&
        (u[0] == '+' ==> r.value == DigitsValue(u[1..])) &&
        (u[0] == '-' ==> r.value == -(DigitsValue(u[1..]) as int))
  {
    var u := Strip(s);
    if u != [] && (u[0] == '+' || u[0] == '-') then
      var d := u[1..];
      var n: int := if d != [] && AllDigits(d) then DigitsValue(d) else 0;
      if d != [] && AllDigits(d) then Value(if u[0] == '-' then -n else n)
      else Raise(ValueError)
    else if u != [] && AllDigits(u) then Value(DigitsValue(u))
    else Raise(ValueError)
  }

  lemma {:induction false} DigitsOfNat(n: nat)
    ensures DigitsValue(NatToString(n)) == n
    decreases n
  {
    var s := NatToString(n);
    if n >= 10 {
      DigitsOfNat(n / 10);
      assert s[..|s| - 1] == NatToString(n / 10);
    }
  }

  /** `int(str(n)) == n`: the two conversions are inverse on natural numbers. */
  lemma ParseIntOfNatToString(n: nat)
    ensures ParseInt(NatToString(n)) == Value(n)
  {
    var s := NatToString(n);
    assert !IsSpace(s[0]) && !IsSpace(s[|s| - 1]);
    StripIdle(s);
    DigitsOfNat(n);
  }

  /** `int(x)` for a decoded JSON value. */
  function ToInt(j: Json): (r: Outcome<int>)
    ensures j.JNum? ==> r == Value(j.n)
    ensures j.JBool? ==> r == Value(if j.b then 1 else 0)
    ensures (j.JNull? || j.JArr? || j.JObj?) ==> r == Raise(TypeError)
    ensures r.Raise? ==> r.fault == TypeError || r.fault == ValueError
  {
    match j
    case JNum(n) => Value(n)
    case JBool(b) => Value(if b then 1 else 0)
    case JStr(s) => ParseInt(s)
    case _ => Raise(TypeError)
  }

  function IntToString(n: int): string {
    if n < 0 then "-" + NatToString(-n) else NatToString(n)
  }

  /** `int(str(n)) == n` for every integer, negative ones included. */
  lemma ParseIntOfIntToString(n: int)
    ensures ParseInt(IntToString(n)) == Value(n)
  {
    if n < 0 {
      var d := NatToString(-n);
      assert !IsSpace(d[|d| - 1]);
      DigitsOfNat(-n);
      assert DigitsValue(d) == -n;
      ParseNegative(d);
      assert IntToString(n) == "-" + d;
    } else {
      ParseIntOfNatToString(n);
      assert IntToString(n) == NatToString(n);
    }
  }

  /** A minus sign before digits, with no whitespace around, reads as the negated value. */
  lemma ParseNegative(d: string)
    requires d != [] && AllDigits(d) && !IsSpace(d[|d| - 1])
    ensures ParseInt("-" + d) == Value(-(DigitsValue(d) as int))
  {
    var s := "-" + d;
    assert s[0] == '-' && s[1..] == d;
    assert !IsSpace(s[0]) && s[|s| - 1] == d[|d| - 1];
    StripIdle(s);
    assert Strip(s) == s;
  }

  /** `str(x)` for a scalar JSON value; arrays and objects are outside the model
      and read as "". A number is rendered so that `int()` reads it back, and a
      string is itself. */
  function Show(j: Json): (s: string)
    ensures j.JNum? ==> ParseInt(s) == Value(j.n)
    ensures j.JStr? ==> s == j.s
  {
    match j
    case JNull => "None"
    case JBool(b) => if b then "True" else "False"
    case JNum(n) => ParseIntOfIntToString(n); IntToString(n)
    case JStr(s) => s
    case _ => ""
  }
}
