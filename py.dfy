/** Python semantics the backend relies on: optional values and results,
    slicing with negative and out-of-range bounds, `str.strip`,
    `str.splitlines`, ASCII lower-casing, decimal rendering of integers, and
    the JSON values a request body decodes to, with their truthiness and
    their `str()` text. */
module Py {

  datatype Option<+T> = None | Some(value: T)

  datatype Result<+T, +E> = Ok(value: T) | Err(error: E)

  // ---------------------------------------------------------------- slicing

  /** Python's normalisation of one slice bound against a length `n`:
      negative bounds count from the end, and every bound is clamped. */
  function SliceBound(i: int, n: nat): nat
  {
    if i < 0 then (if i + n < 0 then 0 else i + n) else if i > n then n else i
  }

  /** `s[start:stop]` */
  function Slice<T>(s: seq<T>, start: int, stop: int): seq<T>
  {
    var a := SliceBound(start, |s|);
    var b := SliceBound(stop, |s|);
    if a <= b then s[a..b] else []
  }

  /** `s[:stop]` */
  function Take<T>(s: seq<T>, stop: int): seq<T>
  {
    Slice(s, 0, stop)
  }

  /** `s[start:]` */
  function Drop<T>(s: seq<T>, start: int): seq<T>
  {
    Slice(s, start, |s|)
  }

  function Min(a: int, b: int): int { if a <= b then a else b }

  /** A non-negative `stop` keeps the first `stop` elements, or all of them. */
  lemma TakeFirst<T>(s: seq<T>, k: int)
    requires k >= 0
    ensures Take(s, k) == s[..Min(k, |s|)]
    ensures |Take(s, k)| == Min(k, |s|)
  {
  }

  /** A negative `stop` drops that many elements from the end. */
  lemma TakeNegative<T>(s: seq<T>, k: int)
    requires k < 0
    ensures Take(s, k) == if |s| + k <= 0 then [] else s[..|s| + k]
  {
  }

  /** `s[-k:]` for `k > 0` keeps the last `min(k, len(s))` elements. */
  lemma DropLast<T>(s: seq<T>, k: int)
    requires k > 0
    ensures Drop(s, -k) == s[|s| - Min(k, |s|)..]
  {
  }

  // ---------------------------------------------------------------- strings

  predicate StartsWith(s: string, prefix: string)
  {
    |prefix| <= |s| && s[..|prefix|] == prefix
  }

  predicate EndsWith(s: string, suffix: string)
  {
    |suffix| <= |s| && s[|s| - |suffix|..] == suffix
  }

  /** `str.lower()` restricted to ASCII letters; every other character is
      kept as it is. */
  function LowerChar(c: char): char
  {
    if 'A' <= c <= 'Z' then (c as int + 32) as char else c
  }

  function Lower(s: string): (r: string)
    ensures |r| == |s|
    ensures forall i :: 0 <= i < |s| ==> r[i] == LowerChar(s[i])
  {
    if s == [] then [] else [LowerChar(s[0])] + Lower(s[1..])
  }

  /** The characters `str.isspace()` accepts, which `str.strip()` with no
      argument removes. */
  const Whitespace: set<char> := {
    ' ', '\t', '\n', '\r', '\U{000B}', '\U{000C}', '\U{001C}', '\U{001D}',
    '\U{001E}', '\U{001F}', '\U{0085}', '\U{00A0}', '\U{1680}', '\U{2000}',
    '\U{2001}', '\U{2002}', '\U{2003}', '\U{2004}', '\U{2005}', '\U{2006}',
    '\U{2007}', '\U{2008}', '\U{2009}', '\U{200A}', '\U{2028}', '\U{2029}',
    '\U{202F}', '\U{205F}', '\U{3000}'
  }

  /** The line boundaries `str.splitlines()` recognises (`\r\n` counts as
      one boundary). */
  const LineBreaks: set<char> := {
    '\n', '\r', '\U{000B}', '\U{000C}', '\U{001C}', '\U{001D}', '\U{001E}',
    '\U{0085}', '\U{2028}', '\U{2029}'
  }

  function StripLeft(s: string, cs: set<char>): string
  {
    if |s| > 0 && s[0] in cs then StripLeft(s[1..], cs) else s
  }

  function StripRight(s: string, cs: set<char>): string
  {
    if |s| > 0 && s[|s| - 1] in cs then StripRight(s[..|s| - 1], cs) else s
  }

  /** `s.strip(chars)`: removes leading and trailing characters of `cs`. */
  function Strip(s: string, cs: set<char>): string
  {
    StripRight(StripLeft(s, cs), cs)
  }

  lemma {:induction false} StripLeftIsSuffix(s: string, cs: set<char>)
    ensures var r := StripLeft(s, cs);
      |r| <= |s| && r == s[|s| - |r|..]
      && (r == [] || r[0] !in cs)
      && forall i :: 0 <= i < |s| - |r| ==> s[i] in cs
    decreases |s|
  {
    if |s| > 0 && s[0] in cs {
      StripLeftIsSuffix(s[1..], cs);
    }
  }

  lemma {:induction false} StripRightIsPrefix(s: string, cs: set<char>)
    ensures var r := StripRight(s, cs);
      |r| <= |s| && r == s[..|r|]
      && (r == [] || r[|r| - 1] !in cs)
      && forall i :: |r| <= i < |s| ==> s[i] in cs
    decreases |s|
  {
    if |s| > 0 && s[|s| - 1] in cs {
      StripRightIsPrefix(s[..|s| - 1], cs);
    }
  }

  /** `strip` keeps a contiguous middle part of `s` that neither starts nor
      ends with a stripped character, and everything it removes is one. */
  lemma StripIsTrimmedMiddle(s: string, cs: set<char>)
    ensures exists i, j :: (0 <= i <= j <= |s| && Strip(s, cs) == s[i..j]
      && (forall k :: 0 <= k < i ==> s[k] in cs)
      && (forall k :: j <= k < |s| ==> s[k] in cs))
    ensures var r := Strip(s, cs); r == [] || (r[0] !in cs && r[|r| - 1] !in cs)
  {
    var l := StripLeft(s, cs);
    StripLeftIsSuffix(s, cs);
    StripRightIsPrefix(l, cs);
    var r := Strip(s, cs);
    var i := |s| - |l|;
    var j := i + |r|;
    assert l == s[i..];
    assert r == l[..|r|] == s[i..j];
    forall k | j <= k < |s| ensures s[k] in cs {
      assert s[k] == l[k - i];
    }
    if r != [] {
      assert r[0] == l[0];
    }
  }

  // ------------------------------------------------------------- splitlines

  function SplitLinesFrom(s: string, current: string): seq<string>
    decreases |s|
  {
    if s == [] then (if current == [] then [] else [current])
    else if s[0] in LineBreaks then
      var rest := if s[0] == '\r' && |s| > 1 && s[1] == '\n' then s[2..] else s[1..];
      [current] + SplitLinesFrom(rest, [])
    else SplitLinesFrom(s[1..], current + [s[0]])
  }

  /** `s.splitlines()`: the lines of `s` without their terminators; a final
      terminator does not start an extra empty line. */
  function SplitLines(s: string): seq<string>
  {
    SplitLinesFrom(s, [])
  }

  predicate NoLineBreak(s: string)
  {
    forall i :: 0 <= i < |s| ==> s[i] !in LineBreaks
  }

  lemma {:induction false} SplitLinesFromHasNoBreaks(s: string, current: string)
    requires NoLineBreak(current)
    ensures forall k :: 0 <= k < |SplitLinesFrom(s, current)| ==> NoLineBreak(SplitLinesFrom(s, current)[k])
    decreases |s|
  {
    if s == [] {
    } else if s[0] in LineBreaks {
      var rest := if s[0] == '\r' && |s| > 1 && s[1] == '\n' then s[2..] else s[1..];
      SplitLinesFromHasNoBreaks(rest, []);
    } else {
      SplitLinesFromHasNoBreaks(s[1..], current + [s[0]]);
    }
  }

  /** No line that `splitlines` returns contains a line boundary. */
  lemma SplitLinesHaveNoBreaks(s: string)
    ensures forall k :: 0 <= k < |SplitLines(s)| ==> NoLineBreak(SplitLines(s)[k])
  {
    SplitLinesFromHasNoBreaks(s, []);
  }

  /** Each line followed by a newline. */
  function Terminated(lines: seq<string>): string
  {
    if lines == [] then [] else lines[0] + "\n" + Terminated(lines[1..])
  }

  lemma {:induction false} SplitLinesFromSkipsLine(line: string, rest: string, current: string)
    requires NoLineBreak(line)
    ensures SplitLinesFrom(line + rest, current) == SplitLinesFrom(rest, current + line)
    decreases |line|
  {
    if line == [] {
      assert line + rest == rest;
      assert current + line == current;
    } else {
      assert (line + rest)[0] == line[0];
      assert (line + rest)[1..] == line[1..] + rest;
      assert current + [line[0]] + line[1..] == current + line;
      SplitLinesFromSkipsLine(line[1..], rest, current + [line[0]]);
    }
  }

  /** Splitting newline-terminated lines gives the lines back. */
  lemma {:induction false} SplitLinesOfTerminated(lines: seq<string>)
    requires forall k :: 0 <= k < |lines| ==> NoLineBreak(lines[k])
    ensures SplitLines(Terminated(lines)) == lines
  {
    if lines != [] {
      var rest := Terminated(lines[1..]);
      assert Terminated(lines) == lines[0] + ("\n" + rest);
      SplitLinesFromSkipsLine(lines[0], "\n" + rest, []);
      assert [] + lines[0] == lines[0];
      var t := "\n" + rest;
      assert t[0] == '\n' && t[1..] == rest;
      SplitLinesOfTerminated(lines[1..]);
    }
  }

  // ---------------------------------------------------------- number text

  function DigitChar(d: nat): char
    requires d < 10
  {
    "0123456789"[d]
  }

  /** `str(n)` for a non-negative integer. */
  function NatToString(n: nat): string
    decreases n
  {
    if n < 10 then [DigitChar(n)] else NatToString(n / 10) + [DigitChar(n % 10)]
  }

  /** `str(i)` for an integer. */
  function IntToString(i: int): string
  {
    if i < 0 then "-" + NatToString(-i) else NatToString(i)
  }

  // ------------------------------------------------------------ JSON values

  /** A JSON value as `json.loads` returns it (objects keep their key order;
      numbers are integers in this model). */
  datatype Json =
    | JNull
    | JBool(b: bool)
    | JInt(i: int)
    | JStr(s: string)
    | JArr(items: seq<Json>)
    | JObj(fields: seq<(string, Json)>)

  /** Python truthiness. */
  predicate Truthy(j: Json)
  {
    match j
    case JNull => false
    case JBool(b) => b
    case JInt(i) => i != 0
    case JStr(s) => s != []
    case JArr(items) => items != []
    case JObj(fields) => fields != []
  }

  /** `d.get(key)`: the last binding of `key` (as `json.loads` keeps the last
      duplicate), or None when there is none. */
  function Get(fields: seq<(string, Json)>, key: string): Json
  {
    if fields == [] then JNull
    else if fields[|fields| - 1].0 == key then fields[|fields| - 1].1
    else Get(fields[..|fields| - 1], key)
  }

  /** `a or b` */
  function Or(a: Json, b: Json): Json
  {
    if Truthy(a) then a else b
  }

  function Join(sep: string, parts: seq<string>): string
  {
    if parts == [] then [] else if |parts| == 1 then parts[0] else parts[0] + sep + Join(sep, parts[1..])
  }

  /** `repr(j)`, with strings always in single quotes and no escaping. */
  function Repr(j: Json): string
  {
    match j
    case JNull => "None"
    case JBool(b) => if b then "True" else "False"
    case JInt(i) => IntToString(i)
    case JStr(s) => "'" + s + "'"
    case JArr(items) =>
      "[" + Join(", ", seq(|items|, k requires 0 <= k < |items| => Repr(items[k]))) + "]"
    case JObj(fields) =>
      "{" + Join(", ", seq(|fields|, k requires 0 <= k < |fields| => "'" + fields[k].0 + "': " + Repr(fields[k].1))) + "}"
  }

  /** `str(j)`: a string is its own text, anything else its repr. */
  function Str(j: Json): string
  {
    if j.JStr? then j.s else Repr(j)
  }

  /** The text of a dict is never empty, so `... or str(d)` always yields a
      truthy string. */
  lemma DictTextIsBraced(fields: seq<(string, Json)>)
    ensures var t := Str(JObj(fields)); |t| >= 2 && t[0] == '{' && t[|t| - 1] == '}'
  {
  }

  /** Python's type name, as it appears in a `TypeError` message. */
  function TypeName(j: Json): string
  {
    match j
    case JNull => "NoneType"
    case JBool(_) => "bool"
    case JInt(_) => "int"
    case JStr(_) => "str"
    case JArr(_) => "list"
    case JObj(_) => "dict"
  }
}
