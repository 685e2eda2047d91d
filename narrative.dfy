/** The executive-summary bullets (`ai_insights`): the reply of the text
    generator, its JSON parse, the line-split rescue, the heuristic fallback
    bullets and the final trim, in the three places the code base does it:
    backend/main.py, backend/repositories/upload.py and
    backend/utils/gemini.py. The generator itself and `json.loads` are
    inputs. */
module Narrative {
  import opened Py
  import opened Ranking

  /** What `json.loads(text)` gives: a value, or the exception's text. */
  datatype Parsed = JsonValue(value: Json) | ParseError(message: string)

  /** The text generator as the pipelines see it: the `GEMINI_API_KEY`
      setting, whether importing the SDK, configuring it or building the
      `GenerativeModel` raised, what the generation call gave (the reply
      text or the exception's text), and how `json.loads` reads a text. */
  datatype GenAi = GenAi(
    apiKey: Option<string>,
    importError: Option<string>,
    configureError: Option<string>,
    modelError: Option<string>,
    reply: Result<string, string>,
    parse: string -> Parsed)

  /** Building the model and generating, as one step: both pipelines do
      the two inside the same `try`, so a failure to build the model is
      handled as a failed generation. */
  function Generated(ai: GenAi): Result<string, string>
  {
    if ai.modelError.Some? then Err(ai.modelError.value) else ai.reply
  }

  predicate HasKey(ai: GenAi)
  {
    ai.apiKey.Some? && ai.apiKey.value != []
  }

  const MaxBulletLength := 220
  const ModelName := "gemini-1.5-flash"
  const EmptyReplyError := "AI returned non-JSON or empty"
  const ParseErrorPrefix := "JSON parse error: "

  // ------------------------------------------------------------ line split

  /** `line.strip("-• ").strip()` */
  function CleanLine(line: string): string
  {
    Strip(Strip(line, {'-', '\U{2022}', ' '}), Whitespace)
  }

  /** The cleaned non-empty lines, all of them. */
  function Cleaned(lines: seq<string>): (r: seq<string>)
    ensures forall k :: 0 <= k < |r| ==> r[k] != []
  {
    if lines == [] then []
    else (if CleanLine(lines[0]) != [] then [CleanLine(lines[0])] else []) + Cleaned(lines[1..])
  }

  /** The line loop with its early `break`: each cleaned non-empty line is
      appended to `acc`, and the loop stops once `acc` holds `limit`. */
  function LineFallback(lines: seq<string>, limit: int, acc: seq<string>): seq<string>
  {
    if lines == [] then acc
    else
      var line := CleanLine(lines[0]);
      var next := if line != [] then acc + [line] else acc;
      if |next| >= limit then next else LineFallback(lines[1..], limit, next)
  }

  /** `for line in text.splitlines(): ... if len(acc) >= limit: break` */
  method CollectLines(text: string, limit: int) returns (bullets: seq<string>)
    ensures bullets == LineFallback(SplitLines(text), limit, [])
  {
    var lines := SplitLines(text);
    bullets := [];
    var i := 0;
    while i < |lines|
      invariant 0 <= i <= |lines|
      invariant LineFallback(lines[i..], limit, bullets) == LineFallback(lines, limit, [])
    {
      assert lines[i..][0] == lines[i] && lines[i..][1..] == lines[i + 1..];
      var line := CleanLine(lines[i]);
      if line != [] {
        bullets := bullets + [line];
      }
      if |bullets| >= limit {
        break;
      }
      i := i + 1;
    }
  }

  /** With a positive limit the loop keeps the first cleaned non-empty
      lines, up to the limit. */
  lemma {:induction false} LineFallbackTakesFirst(lines: seq<string>, limit: int, acc: seq<string>)
    requires |acc| < limit
    ensures LineFallback(lines, limit, acc) == acc + Take(Cleaned(lines), limit - |acc|)
  {
    TakeFirst(Cleaned(lines), limit - |acc|);
    if lines != [] {
      var line := CleanLine(lines[0]);
      var next := if line != [] then acc + [line] else acc;
      var rest := Cleaned(lines[1..]);
      if |next| < limit {
        LineFallbackTakesFirst(lines[1..], limit, next);
        TakeFirst(rest, limit - |next|);
        if line != [] {
          assert Cleaned(lines) == [line] + rest;
          assert ([line] + rest)[..Min(limit - |acc|, 1 + |rest|)] == [line] + rest[..Min(limit - |next|, |rest|)];
        }
      } else {
        assert line != [] && |next| == limit;
        assert Cleaned(lines) == [line] + rest;
      }
    }
  }

  /** With a limit of zero or less the loop still reads one line. */
  lemma LineFallbackNoLimit(lines: seq<string>, limit: int)
    requires limit <= 0
    ensures LineFallback(lines, limit, []) == if lines == [] then [] else Cleaned([lines[0]])
  {
    if lines != [] {
      assert [lines[0]][1..] == [];
    }
  }

  /** Every rescued bullet is non-empty, has no surrounding whitespace and
      lies on one line. */
  lemma CleanedBullets(text: string, limit: int)
    requires limit >= 1
    ensures var r := LineFallback(SplitLines(text), limit, []);
      && |r| <= limit
      && forall k :: 0 <= k < |r| ==> r[k] != [] && r[k][0] !in Whitespace && r[k][|r[k]| - 1] !in Whitespace
  {
    var lines := SplitLines(text);
    LineFallbackTakesFirst(lines, limit, []);
    TakeFirst(Cleaned(lines), limit);
    CleanedTrimmed(lines);
  }

  lemma {:induction false} CleanedTrimmed(lines: seq<string>)
    ensures forall k :: 0 <= k < |Cleaned(lines)| ==>
      Cleaned(lines)[k][0] !in Whitespace && Cleaned(lines)[k][|Cleaned(lines)[k]| - 1] !in Whitespace
  {
    if lines != [] {
      CleanedTrimmed(lines[1..]);
      StripIsTrimmedMiddle(Strip(lines[0], {'-', '\U{2022}', ' '}), Whitespace);
    }
  }

  // -------------------------------------------------------------- trimming

  /** `[s[:220] for s in xs][:n]` */
  function Trim(xs: seq<string>, n: int): (r: seq<string>)
    ensures forall k :: 0 <= k < |r| ==> |r[k]| <= MaxBulletLength
  {
    Take(seq(|xs|, i requires 0 <= i < |xs| => Take(xs[i], MaxBulletLength)), n)
  }

  /** Trimming keeps min(n, |xs|) entries, each the first 220 characters of
      the corresponding one. */
  lemma TrimKeeps(xs: seq<string>, n: int)
    requires n >= 0
    ensures |Trim(xs, n)| == Min(n, |xs|)
    ensures forall k :: 0 <= k < |Trim(xs, n)| ==> Trim(xs, n)[k] == xs[k][..Min(MaxBulletLength, |xs[k]|)]
  {
    var t := seq(|xs|, i requires 0 <= i < |xs| => Take(xs[i], MaxBulletLength));
    TakeFirst(t, n);
    forall k | 0 <= k < Min(n, |xs|) ensures t[k] == xs[k][..Min(MaxBulletLength, |xs[k]|)] {
      TakeFirst(xs[k], MaxBulletLength);
    }
  }

  /** `[str(x) for x in parsed]` */
  function StrList(items: seq<Json>): seq<string>
  {
    seq(|items|, k requires 0 <= k < |items| => Str(items[k]))
  }

  // ------------------------------------------------------- fallback bullets

  /** The generic bullet each fallback closes with. */
  const MainClosing := "Concentrate testing on top drivers; validate causality before scaling investment."
  const LegacyClosing := "Correlations hint at underlying behavioral or process drivers worth exploring via regression or segmentation."

  /** `_fallback_points()` in backend/main.py. */
  function MainFallback(target: string, numericTop: seq<Driver>, catTop: seq<Driver>): seq<string>
  {
    var first := if numericTop == [] then [] else
      [numericTop[0].feature + " strongly " + (if numericTop[0].corr > 0.0 then "lifts" else "suppresses") + " "
       + target + "; prioritize levers here to move topline."];
    var second := if catTop == [] then [] else
      ["Segments by '" + catTop[0].feature + "' show performance spread\U{2014}target interventions at underperforming levels."];
    var pts := first + second;
    var pts' := if |pts| < 3 then pts + [MainClosing] else pts;
    Take(pts', 3)
  }

  /** `_fallback_points()` in backend/repositories/upload.py; `fmt` is
      Python's `format(x, ".2f")`. */
  function LegacyFallback(target: string, numericTop: seq<Driver>, catTop: seq<Driver>, fmt: real -> string): seq<string>
  {
    var first := if numericTop == [] then [] else
      [numericTop[0].feature + " shows a " + (if numericTop[0].corr > 0.0 then "positive" else "negative") + " impact on "
       + target + " (|corr|=" + fmt(Abs(numericTop[0].corr)) + "); may drive key outcomes."];
    var second := if catTop == [] then [] else
      ["Category '" + catTop[0].feature + "' has a " + (if Abs(catTop[0].corr) > 0.5 then "strong" else "moderate")
       + " link with " + target + "; investigate level differences."];
    var pts := first + second;
    var pts' := if |pts| < 3 then pts + [LegacyClosing] else pts;
    Take(pts', 3)
  }

  /** The fallback has one bullet per non-empty driver list plus the
      generic closing bullet. */
  lemma MainFallbackShape(target: string, numericTop: seq<Driver>, catTop: seq<Driver>)
    ensures var r := MainFallback(target, numericTop, catTop);
      && |r| == 1 + (if numericTop == [] then 0 else 1) + (if catTop == [] then 0 else 1)
      && r[|r| - 1] == MainClosing
  {
  }

  /** The first bullet says "lifts" exactly for a positive score. */
  lemma MainFallbackLifts(target: string, numericTop: seq<Driver>, catTop: seq<Driver>)
    requires numericTop != []
    ensures var r := MainFallback(target, numericTop, catTop);
      |r| > 0 && (StartsWith(r[0], numericTop[0].feature + " strongly lifts ") <==> numericTop[0].corr > 0.0)
  {
    var r := MainFallback(target, numericTop, catTop);
    var f := numericTop[0].feature;
    var w := if numericTop[0].corr > 0.0 then "lifts" else "suppresses";
    var tail := " " + target + "; prioritize levers here to move topline.";
    var r0 := f + " strongly " + w + tail;
    assert r[0] == r0;
    var p := f + " strongly lifts ";
    assert r0[|f| + 10] == w[0];
    assert p[|f| + 10] == 'l';
    if numericTop[0].corr > 0.0 {
      assert r0[..|p|] == p;
    }
  }

  /** The older fallback has the same shape, with its own closing bullet. */
  lemma LegacyFallbackShape(target: string, numericTop: seq<Driver>, catTop: seq<Driver>, fmt: real -> string)
    ensures var r := LegacyFallback(target, numericTop, catTop, fmt);
      && |r| == 1 + (if numericTop == [] then 0 else 1) + (if catTop == [] then 0 else 1)
      && r[|r| - 1] == LegacyClosing
  {
  }

  /** At a score of exactly 0.5 the older fallback calls a categorical link
      "moderate" while `_top_k` labels the same score "strong". */
  lemma StrongBoundaryDrift(target: string, feature: string, fmt: real -> string)
    ensures var d := Driver(feature, 0.5, Positive, StrengthOf(0.5));
      && d.strength == Strong
      && LegacyFallback(target, [], [d], fmt)[0]
         == "Category '" + feature + "' has a " + "moderate" + " link with " + target + "; investigate level differences."
  {
    var d := Driver(feature, 0.5, Positive, StrengthOf(0.5));
    var second := "Category '" + feature + "' has a " + "moderate" + " link with " + target + "; investigate level differences.";
    var generic := LegacyClosing;
    assert !(Abs(d.corr) > 0.5);
    assert LegacyFallback(target, [], [d], fmt) == Take([second, generic], 3);
  }

  // --------------------------------------------------------- main pipeline

  /** The narrative part of the response: `ai_insights`, `ai_model` and, in
      the current pipeline, `ai_error`. */
  datatype Narration = Narration(insights: seq<string>, model: Option<string>, error: Option<string>)

  /** backend/main.py: no key, a failed import and a failed configuration go
      straight to the fallback; a generated reply is parsed, rescued by the
      line split on a parse error, and trimmed. */
  function MainNarrative(ai: GenAi, fallback: seq<string>): Narration
  {
    if !HasKey(ai) then Narration(fallback, None, Some("GEMINI_API_KEY not set"))
    else if ai.importError.Some? then
      Narration(fallback, None, Some("google-generativeai not installed: " + ai.importError.value))
    else if ai.configureError.Some? then
      Narration(fallback, None, Some("Unexpected AI block error: " + ai.configureError.value))
    else match Generated(ai)
      case Err(e) => Narration(fallback, None, Some("Generation error: " + e))
      case Ok(raw) =>
        var text := Strip(raw, Whitespace);
        var (picked, error) := match ai.parse(text)
          case JsonValue(JArr(items)) =>
            if items != [] then (Take(StrList(items), 3), None)
            else (fallback, Some(EmptyReplyError))
          case JsonValue(_) => (fallback, Some(EmptyReplyError))
          case ParseError(m) =>
            var lines := LineFallback(SplitLines(text), 3, []);
            (if lines != [] then lines else fallback, Some(ParseErrorPrefix + m));
        Narration(Trim(picked, 3), Some(ModelName), error)
  }

  /** Given a fallback of one to three bullets, the current pipeline always
      returns one to three bullets; it names the model exactly when a reply
      was generated, and only then are the bullets cut to 220 characters. */
  lemma MainNarrativeBounds(ai: GenAi, fallback: seq<string>)
    requires 1 <= |fallback| <= 3
    ensures var r := MainNarrative(ai, fallback);
      && 1 <= |r.insights| <= 3
      && (r.model.Some? <==> HasKey(ai) && ai.importError.None? && ai.configureError.None? && Generated(ai).Ok?)
      && (r.model.Some? ==> r.model == Some(ModelName) && forall k :: 0 <= k < |r.insights| ==> |r.insights[k]| <= MaxBulletLength)
      && (!HasKey(ai) ==> r.error == Some("GEMINI_API_KEY not set") && r.insights == fallback)
  {
    if HasKey(ai) && ai.importError.None? && ai.configureError.None? && Generated(ai).Ok? {
      var text := Strip(Generated(ai).value, Whitespace);
      match ai.parse(text)
      case JsonValue(JArr(items)) =>
        TakeFirst(StrList(items), 3);
        TrimKeeps(if items != [] then Take(StrList(items), 3) else fallback, 3);
      case JsonValue(_) =>
        TrimKeeps(fallback, 3);
      case ParseError(m) =>
        var lines := LineFallback(SplitLines(text), 3, []);
        LineFallbackTakesFirst(SplitLines(text), 3, []);
        TakeFirst(Cleaned(SplitLines(text)), 3);
        TrimKeeps(if lines != [] then lines else fallback, 3);
    }
  }

  /** Without a key the fallback bullets are returned untrimmed, so a long
      feature name yields a bullet over 220 characters. */
  lemma MainFallbackCanExceedLimit(ai: GenAi)
    requires ai.apiKey.None?
    ensures var feature := seq(220, _ => 'x');
      var r := MainNarrative(ai, MainFallback("y", [Driver(feature, 0.9, Positive, Strong)], []));
      |r.insights[0]| > MaxBulletLength
  {
  }

  /** `r` is a reply's JSON list as text, `[str(x) for x in parsed]`, cut to
      three entries of at most 220 characters each. */
  predicate TrimmedFrom(r: seq<string>, items: seq<Json>)
  {
    && |r| == Min(3, |items|)
    && forall k :: 0 <= k < |r| ==> r[k] == Str(items[k])[..Min(MaxBulletLength, |Str(items[k])|)]
  }

  lemma ListBullets(items: seq<Json>)
    ensures TrimmedFrom(Trim(Take(StrList(items), 3), 3), items)
  {
    TakeFirst(StrList(items), 3);
    TrimKeeps(Take(StrList(items), 3), 3);
  }

  /** What the line-split rescue keeps of a reply: its first three cleaned
      non-empty lines, or the fallback when there are none. */
  function Rescued(text: string, fallback: seq<string>): seq<string>
  {
    var lines := Cleaned(SplitLines(text));
    if lines == [] then fallback else Take(lines, 3)
  }

  lemma RescuedIsLineFallback(text: string, fallback: seq<string>)
    ensures (if LineFallback(SplitLines(text), 3, []) != [] then LineFallback(SplitLines(text), 3, []) else fallback) == Rescued(text, fallback)
  {
    LineFallbackTakesFirst(SplitLines(text), 3, []);
    TakeFirst(Cleaned(SplitLines(text)), 3);
  }

  /** With a generated reply, the current pipeline: a non-empty JSON list
      gives its first three entries as text with no error; any other JSON
      value, the empty list included, gives the fallback and the
      "non-JSON or empty" error; a reply that does not parse gives the
      rescued lines and the parser's message. Every path trims. */
  lemma {:induction false} MainNarrativeCases(ai: GenAi, fallback: seq<string>)
    requires HasKey(ai) && ai.importError.None? && ai.configureError.None? && Generated(ai).Ok?
    ensures var text := Strip(Generated(ai).value, Whitespace);
      var p := ai.parse(text);
      var r := MainNarrative(ai, fallback);
      && r.model == Some(ModelName)
      && (p.JsonValue? && p.value.JArr? && p.value.items != [] ==> TrimmedFrom(r.insights, p.value.items) && r.error == None)
      && (p.JsonValue? && (!p.value.JArr? || p.value.items == []) ==> r.insights == Trim(fallback, 3) && r.error == Some(EmptyReplyError))
      && (p.ParseError? ==> r.insights == Trim(Rescued(text, fallback), 3) && r.error == Some(ParseErrorPrefix + p.message))
  {
    var text := Strip(Generated(ai).value, Whitespace);
    match ai.parse(text)
    case JsonValue(JArr(items)) =>
      if items != [] {
        ListBullets(items);
      }
    case JsonValue(_) =>
    case ParseError(_) =>
      RescuedIsLineFallback(text, fallback);
  }

  // ------------------------------------------------------- older pipeline

  /** backend/repositories/upload.py: any exception before the model name is
      set, and a missing key, give the untrimmed fallback with no model
      name; a generation failure gives the untrimmed fallback but keeps the
      model name; any JSON list is accepted, a non-list JSON value collects
      nothing, and an empty collection falls back before the trim. */
  function LegacyNarrative(ai: GenAi, fallback: seq<string>): Narration
  {
    if !HasKey(ai) then Narration(fallback, None, None)
    else if ai.importError.Some? || ai.configureError.Some? then Narration(fallback, None, None)
    else match Generated(ai)
      case Err(_) => Narration(fallback, Some(ModelName), None)
      case Ok(raw) =>
        var text := Strip(raw, Whitespace);
        var collected := match ai.parse(text)
          case JsonValue(JArr(items)) => Take(StrList(items), 3)
          case JsonValue(_) => []
          case ParseError(_) => LineFallback(SplitLines(text), 3, []);
        Narration(Trim(if collected == [] then fallback else collected, 3), Some(ModelName), None)
  }

  /** On a generated reply both pipelines pick the same bullets from the
      same fallback; on a generation failure the current one drops the model
      name and the older one keeps it. */
  lemma NarrativeDrift(ai: GenAi, fallback: seq<string>)
    requires HasKey(ai) && ai.importError.None? && ai.configureError.None?
    ensures Generated(ai).Ok? ==> LegacyNarrative(ai, fallback).insights == MainNarrative(ai, fallback).insights
    ensures Generated(ai).Err? ==>
      && MainNarrative(ai, fallback).model == None
      && LegacyNarrative(ai, fallback).model == Some(ModelName)
  {
    if Generated(ai).Ok? {
      var text := Strip(Generated(ai).value, Whitespace);
      match ai.parse(text)
      case JsonValue(JArr(items)) =>
        TakeFirst(StrList(items), 3);
      case JsonValue(_) =>
      case ParseError(_) =>
    }
  }

  /** The older pipeline returns one to three bullets on every path, given a
      non-empty fallback of at most three. */
  lemma LegacyNarrativeBounds(ai: GenAi, fallback: seq<string>)
    requires 1 <= |fallback| <= 3
    ensures var r := LegacyNarrative(ai, fallback);
      && 1 <= |r.insights| <= 3
      && (r.model.Some? <==> HasKey(ai) && ai.importError.None? && ai.configureError.None?)
  {
    if HasKey(ai) && ai.importError.None? && ai.configureError.None? && Generated(ai).Ok? {
      var text := Strip(Generated(ai).value, Whitespace);
      var collected := match ai.parse(text)
        case JsonValue(JArr(items)) => Take(StrList(items), 3)
        case JsonValue(_) => []
        case ParseError(_) => LineFallback(SplitLines(text), 3, []);
      match ai.parse(text)
      case JsonValue(JArr(items)) => TakeFirst(StrList(items), 3);
      case JsonValue(_) =>
      case ParseError(_) =>
        LineFallbackTakesFirst(SplitLines(text), 3, []);
        TakeFirst(Cleaned(SplitLines(text)), 3);
      TrimKeeps(if collected == [] then fallback else collected, 3);
    }
  }

  /** With a generated reply, the older pipeline: any JSON list is taken,
      an empty one falling back; any other JSON value gives the fallback; a
      reply that does not parse gives the rescued lines. The model is named,
      no error is reported, and every bullet is cut to 220 characters. */
  lemma {:induction false} LegacyNarrativeCases(ai: GenAi, fallback: seq<string>)
    requires HasKey(ai) && ai.importError.None? && ai.configureError.None? && Generated(ai).Ok?
    ensures var text := Strip(Generated(ai).value, Whitespace);
      var p := ai.parse(text);
      var r := LegacyNarrative(ai, fallback);
      && r.model == Some(ModelName) && r.error == None
      && (forall k :: 0 <= k < |r.insights| ==> |r.insights[k]| <= MaxBulletLength)
      && (p.JsonValue? && p.value.JArr? && p.value.items != [] ==> TrimmedFrom(r.insights, p.value.items))
      && (p.JsonValue? && (!p.value.JArr? || p.value.items == []) ==> r.insights == Trim(fallback, 3))
      && (p.ParseError? ==> r.insights == Trim(Rescued(text, fallback), 3))
  {
    var text := Strip(Generated(ai).value, Whitespace);
    match ai.parse(text)
    case JsonValue(JArr(items)) =>
      if items != [] {
        ListBullets(items);
        TakeFirst(StrList(items), 3);
      }
    case JsonValue(_) =>
    case ParseError(_) =>
      RescuedIsLineFallback(text, fallback);
  }

  /** Without a key, or when importing or configuring the SDK fails, the
      older pipeline returns the fallback untouched and names no model. */
  lemma LegacyNarrativeNoReply(ai: GenAi, fallback: seq<string>)
    requires !HasKey(ai) || ai.importError.Some? || ai.configureError.Some?
    ensures LegacyNarrative(ai, fallback) == Narration(fallback, None, None)
  {
  }

  // -------------------------------------------------------- gemini helper

  /** `_summarize_for_prompt(d, top_k)`; `None` stands for an argument that
      is not a dict. */
  function SummarizeForPrompt(d: Option<Scores>, topK: int): Scores
  {
    match d
    case None => []
    case Some(scores) => Take(SortByAbs(scores), topK)
  }

  /** A non-dict gives nothing; a dict gives its `top_k` strongest entries,
      ordered by magnitude: every entry left out is no stronger than any
      entry kept. */
  lemma SummarizeCorrect(d: Option<Scores>, topK: int)
    requires topK >= 0
    ensures d.None? ==> SummarizeForPrompt(d, topK) == []
    ensures d.Some? ==> var r := SummarizeForPrompt(d, topK);
      && |r| == Min(topK, |d.value|)
      && Descending(r)
      && (forall e :: e in r ==> e in d.value)
      && forall e, i :: e in d.value && e !in r && 0 <= i < |r| ==> Abs(r[i].1) >= Abs(e.1)
  {
    if d.Some? {
      var s := SortByAbs(d.value);
      SortKeepsKeys(d.value);
      SortByAbsCorrect(d.value, 0.0);
      TakeFirst(s, topK);
      var r := s[..Min(topK, |s|)];
      forall e, i | e in d.value && e !in r && 0 <= i < |r| ensures Abs(r[i].1) >= Abs(e.1) {
        var j :| 0 <= j < |s| && s[j] == e;
      }
    }
  }

  /** `get_gemini_insights(..., max_points)`: no key gives nothing; a failing
      configuration or a failure to build the model raises to the caller
      (`Err`), both being outside the helper's `try`; a failing generation
      gives nothing; otherwise the parsed list, nothing for another JSON
      value, or the rescued lines, trimmed. */
  function GeminiInsights(ai: GenAi, maxPoints: int): Result<seq<string>, string>
  {
    if !HasKey(ai) then Ok([])
    else if ai.configureError.Some? then Err(ai.configureError.value)
    else if ai.modelError.Some? then Err(ai.modelError.value)
    else match ai.reply
      case Err(_) => Ok([])
      case Ok(raw) =>
        var text := Strip(raw, Whitespace);
        var insights := match ai.parse(text)
          case JsonValue(JArr(items)) => Take(StrList(items), maxPoints)
          case JsonValue(_) => []
          case ParseError(_) => LineFallback(SplitLines(text), maxPoints, []);
        Ok(Trim(insights, maxPoints))
  }

  /** The helper never returns more than `max_points` bullets nor a bullet
      over 220 characters, returns nothing without a key, and raises
      exactly when, with a key, configuring or building the model fails. */
  lemma GeminiInsightsBounds(ai: GenAi, maxPoints: int)
    requires maxPoints >= 0
    ensures GeminiInsights(ai, maxPoints).Ok? ==>
      && |GeminiInsights(ai, maxPoints).value| <= maxPoints
      && forall k :: 0 <= k < |GeminiInsights(ai, maxPoints).value| ==> |GeminiInsights(ai, maxPoints).value[k]| <= MaxBulletLength
    ensures !HasKey(ai) ==> GeminiInsights(ai, maxPoints) == Ok([])
    ensures GeminiInsights(ai, maxPoints).Err? <==> HasKey(ai) && (ai.configureError.Some? || ai.modelError.Some?)
  {
    if HasKey(ai) && ai.configureError.None? && ai.modelError.None? && ai.reply.Ok? {
      var text := Strip(ai.reply.value, Whitespace);
      var insights := match ai.parse(text)
        case JsonValue(JArr(items)) => Take(StrList(items), maxPoints)
        case JsonValue(_) => []
        case ParseError(_) => LineFallback(SplitLines(text), maxPoints, []);
      TrimKeeps(insights, maxPoints);
    }
  }

  /** Unlike the pipelines, the helper returns an empty list for a reply
      that is valid JSON but not a list. */
  lemma GeminiNonListIsEmpty(ai: GenAi, maxPoints: int)
    requires HasKey(ai) && ai.configureError.None? && ai.modelError.None? && ai.reply.Ok?
    requires var p := ai.parse(Strip(ai.reply.value, Whitespace)); p.JsonValue? && !p.value.JArr?
    ensures GeminiInsights(ai, maxPoints) == Ok([])
  {
  }
}
