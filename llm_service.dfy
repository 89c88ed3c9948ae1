/**
 * The response generator and the batch sampler: how one completion's text
 * becomes a preference record with safe defaults, and how a batch of draws,
 * each retried a bounded number of times, always yields one record per draw.
 * The completion call itself is an oracle that returns text or fails.
 */
module LlmService {
  import opened Text
  import opened Js

  // ---------------------------------------------------------------------------
  // clamp

  function Min(a: real, b: real): real { if a <= b then a else b }
  function Max(a: real, b: real): real { if a >= b then a else b }

  /** `Math.max(lo, Math.min(hi, n))` */
  function Clamp(n: real, lo: real, hi: real): (r: real)
    ensures lo <= r
    ensures lo <= hi ==> r <= hi
    ensures lo <= n <= hi ==> r == n
    ensures n < lo ==> r == lo
    ensures lo <= hi < n ==> r == hi
  {
    Max(lo, Min(hi, n))
  }

  // ---------------------------------------------------------------------------
  // The persona paragraph of the system prompt

  datatype Persona = Persona(
    id: int,
    name: string,
    role: Option<string>,
    description: Option<string>,
    traits: Option<JsValue>)

  /** `persona.traits ? JSON.stringify(persona.traits) : ""`, with JSON.stringify given. */
  function TraitsText(p: Persona, stringify: JsValue -> string): string {
    if Truthy(p.traits) then stringify(p.traits.value) else ""
  }

  /** Whether some line of the list starts with the tag. */
  predicate HasLine(lines: seq<string>, tag: string) {
    exists l :: l in lines && StartsWith(l, tag)
  }

  /** The four candidate lines, empty where the field is not truthy. */
  function PersonaParts(p: Persona, stringify: JsValue -> string): seq<string> {
    var traits := TraitsText(p, stringify);
    [ "Name: " + p.name,
      if TruthyText(p.role) then "Role: " + p.role.value else "",
      if TruthyText(p.description) then "Description: " + p.description.value else "",
      if traits != "" then "Traits (JSON): " + traits else "" ]
  }

  /**
   * The lines of the persona paragraph: the name line first, then a Role,
   * Description and Traits line for each field that is truthy; empty lines
   * are dropped.
   */
  function PersonaLines(p: Persona, stringify: JsValue -> string): (lines: seq<string>)
    ensures |lines| > 0 && lines[0] == "Name: " + p.name
    ensures forall i :: 0 <= i < |lines| ==> lines[i] != ""
    ensures HasLine(lines, "Role: ") <==> TruthyText(p.role)
    ensures TruthyText(p.role) ==> "Role: " + p.role.value in lines
    ensures HasLine(lines, "Description: ") <==> TruthyText(p.description)
    ensures TruthyText(p.description) ==> "Description: " + p.description.value in lines
    ensures HasLine(lines, "Traits (JSON): ") <==> TraitsText(p, stringify) != ""
    ensures TraitsText(p, stringify) != "" ==> "Traits (JSON): " + TraitsText(p, stringify) in lines
    ensures lines == ["Name: " + p.name] + OptionalLine("Role: ", p.role) + OptionalLine("Description: ", p.description)
      + OptionalLine("Traits (JSON): ", Some(TraitsText(p, stringify)))
  {
    var parts := PersonaParts(p, stringify);
    var lines := NonEmpty(parts);
    PersonaLinesFacts(p, stringify, parts, lines);
    PersonaLinesInOrder(p, stringify);
    lines
  }

  /** The line for an optional field: one tagged line when the field is truthy, none otherwise. */
  function OptionalLine(tag: string, field: Option<string>): seq<string> {
    if TruthyText(field) then [tag + field.value] else []
  }

  /** Filtering the four candidate lines keeps the name line and the tagged line of each truthy field, in order. */
  lemma PersonaLinesInOrder(p: Persona, stringify: JsValue -> string)
    ensures NonEmpty(PersonaParts(p, stringify)) ==
      ["Name: " + p.name] + OptionalLine("Role: ", p.role) + OptionalLine("Description: ", p.description)
      + OptionalLine("Traits (JSON): ", Some(TraitsText(p, stringify)))
  {
    var parts := PersonaParts(p, stringify);
    assert parts == [parts[0]] + [parts[1]] + [parts[2]] + [parts[3]];
    NonEmptyAppend([parts[0]] + [parts[1]] + [parts[2]], [parts[3]]);
    NonEmptyAppend([parts[0]] + [parts[1]], [parts[2]]);
    NonEmptyAppend([parts[0]], [parts[1]]);
    assert |parts[0]| >= 6;
    NonEmptySingle(parts[0]);
    NonEmptySingle(parts[1]);
    NonEmptySingle(parts[2]);
    NonEmptySingle(parts[3]);
  }

  lemma PersonaLinesFacts(p: Persona, stringify: JsValue -> string, parts: seq<string>, lines: seq<string>)
    requires parts == PersonaParts(p, stringify) && lines == NonEmpty(parts)
    ensures |lines| > 0 && lines[0] == "Name: " + p.name
    ensures forall i :: 0 <= i < |lines| ==> lines[i] != ""
    ensures HasLine(lines, "Role: ") <==> TruthyText(p.role)
    ensures TruthyText(p.role) ==> "Role: " + p.role.value in lines
    ensures HasLine(lines, "Description: ") <==> TruthyText(p.description)
    ensures TruthyText(p.description) ==> "Description: " + p.description.value in lines
    ensures HasLine(lines, "Traits (JSON): ") <==> TraitsText(p, stringify) != ""
    ensures TraitsText(p, stringify) != "" ==> "Traits (JSON): " + TraitsText(p, stringify) in lines
  {
    assert |parts[0]| >= 6;
    forall i | 0 <= i < |lines| ensures lines[i] != "" {
      assert lines[i] in lines;
    }
    if TruthyText(p.role) { assert parts[1] in parts; }
    if TruthyText(p.description) { assert parts[2] in parts; }
    if TraitsText(p, stringify) != "" { assert parts[3] in parts; }
    LabelsDistinct(p.name, "Role: ");
    LabelsDistinct(p.name, "Description: ");
    LabelsDistinct(p.name, "Traits (JSON): ");
    LineLabel(parts, lines, "Role: ", 1);
    LineLabel(parts, lines, "Description: ", 2);
    LineLabel(parts, lines, "Traits (JSON): ", 3);
  }

  lemma LabelsDistinct(name: string, tag: string)
    requires |tag| > 0 && tag[0] != 'N'
    ensures !StartsWith("Name: " + name, tag)
  {
    assert ("Name: " + name)[0] == 'N';
  }

  /** In the filtered list, a tag occurs exactly when the one part that may carry it is non-empty. */
  lemma LineLabel(parts: seq<string>, lines: seq<string>, tag: string, k: nat)
    requires k < |parts| && tag != ""
    requires forall x :: x in lines <==> x in parts && x != ""
    requires forall j :: 0 <= j < |parts| && j != k ==> !StartsWith(parts[j], tag)
    requires parts[k] == "" || StartsWith(parts[k], tag)
    ensures HasLine(lines, tag) <==> parts[k] != ""
  {
    if parts[k] != "" {
      assert parts[k] in lines;
    }
    if HasLine(lines, tag) {
      var l :| l in lines && StartsWith(l, tag);
      var j :| 0 <= j < |parts| && parts[j] == l;
      assert j == k;
    }
  }

  /** No field value contains a line break (the JSON text of the traits never does). */
  predicate SingleLineFields(p: Persona, stringify: JsValue -> string) {
    '\n' !in p.name
    && (p.role.Some? ==> '\n' !in p.role.value)
    && (p.description.Some? ==> '\n' !in p.description.value)
    && '\n' !in TraitsText(p, stringify)
  }

  /** Whether a text has an empty line: a leading or trailing line break, or two in a row. */
  predicate HasBlankLine(t: string) {
    (|t| > 0 && (t[0] == '\n' || t[|t| - 1] == '\n'))
    || exists i :: 0 <= i < |t| - 1 && t[i] == '\n' && t[i + 1] == '\n'
  }

  /** `personaToText`: the lines joined by "\n". */
  function PersonaToText(p: Persona, stringify: JsValue -> string): (t: string)
    ensures StartsWith(t, "Name: " + p.name)
    ensures SingleLineFields(p, stringify) ==> !HasBlankLine(t)
  {
    var lines := PersonaLines(p, stringify);
    JoinStartsWithFirst(lines, "\n");
    if SingleLineFields(p, stringify) then
      PersonaLinesSingle(p, stringify);
      JoinLinesNoBlank(lines);
      Join(lines, "\n")
    else
      Join(lines, "\n")
  }

  lemma PersonaLinesSingle(p: Persona, stringify: JsValue -> string)
    requires SingleLineFields(p, stringify)
    ensures var lines := PersonaLines(p, stringify);
      forall i :: 0 <= i < |lines| ==> lines[i] != "" && '\n' !in lines[i]
  {
    var parts := PersonaParts(p, stringify);
    var lines := PersonaLines(p, stringify);
    PersonaPartsSingle(p, stringify);
    forall i | 0 <= i < |lines| ensures '\n' !in lines[i] {
      assert lines[i] in parts;
    }
  }

  lemma PersonaPartsSingle(p: Persona, stringify: JsValue -> string)
    requires SingleLineFields(p, stringify)
    ensures forall x :: x in PersonaParts(p, stringify) ==> '\n' !in x
  {
    var traits := TraitsText(p, stringify);
    NoBreakConcat("Name: ", p.name);
    if TruthyText(p.role) { NoBreakConcat("Role: ", p.role.value); }
    if TruthyText(p.description) { NoBreakConcat("Description: ", p.description.value); }
    if traits != "" { NoBreakConcat("Traits (JSON): ", traits); }
  }

  lemma NoBreakConcat(a: string, b: string)
    requires '\n' !in a && '\n' !in b
    ensures '\n' !in a + b
  {
  }

  // ---------------------------------------------------------------------------
  // Normalising the completion into a response record

  datatype Preference = A | B

  datatype LlmResponse = LlmResponse(
    preference: Preference,
    rationale: string,
    confidence: real,
    raw: Option<string>)

  const MaxRationale: nat := 1000

  /** The record a draw contributes once all its attempts have failed. */
  const Fallback: LlmResponse := LlmResponse(A, "Fallback due to error", 0.5, None)

  /** `String(x || "")` */
  function FieldText(x: Option<JsValue>, c: Coercions): (s: string)
    ensures !Truthy(x) ==> s == ""
  {
    if Truthy(x) then ToJsString(x.value, c) else ""
  }

  /**
   * The preference: B exactly when the trimmed text of the field is "b" or
   * "B"; anything else, a missing field included, is the safe default A.
   */
  function PreferenceOf(x: Option<JsValue>, c: Coercions): (p: Preference)
    ensures p == B <==> Trim(FieldText(x, c)) == "B" || Trim(FieldText(x, c)) == "b"
    ensures !Truthy(x) ==> p == A
  {
    var t := Trim(FieldText(x, c));
    var upper := Upper(t);
    UpperMatches(t, "A");
    UpperMatches(t, "B");
    assert LowerChar('B') == 'b' && LowerChar('A') == 'a';
    if upper == "A" then A else if upper == "B" then B else A
  }

  /** The rationale: the trimmed text of the field cut to its first 1000 characters. */
  function RationaleOf(x: Option<JsValue>, c: Coercions): (r: string)
    ensures |r| <= MaxRationale
    ensures var t := Trim(FieldText(x, c));
      |r| == (if |t| <= MaxRationale then |t| else MaxRationale) && r == t[..|r|]
    ensures !Truthy(x) ==> r == ""
  {
    var t := Trim(FieldText(x, c));
    if |t| <= MaxRationale then t else t[..MaxRationale]
  }

  /**
   * The confidence as the code computes it, `clamp(Number(x ?? 0.5), 0, 1)`:
   * NaN passes through the clamp, so a field Number cannot read gives NaN.
   */
  function ConfidenceAsWritten(x: Option<JsValue>, c: Coercions): (r: Numeric)
    ensures r.Finite? ==> 0.0 <= r.r <= 1.0
    ensures x.None? || x == Some(JsNull) ==> r == Finite(0.5)
  {
    var n := if x.None? || x.value.JsNull? then Finite(0.5) else ToNumber(x.value, c);
    match n
    case NaN => NaN
    case Finite(v) => Finite(Clamp(v, 0.0, 1.0))
  }

  /** A confidence such as "high" comes out as NaN, outside [0, 1] and not the default 0.5. */
  lemma ConfidenceNaNForText(s: string, c: Coercions)
    requires c.stringNumber(s).None?
    ensures ConfidenceAsWritten(Some(JsString(s)), c) == NaN
  {
  }

  /**
   * The confidence the model uses: a number is clamped into [0, 1]; a
   * missing or null field, or one Number cannot read, gives 0.5.
   */
  function Confidence(x: Option<JsValue>, c: Coercions): (r: real)
    ensures 0.0 <= r <= 1.0
    ensures x.None? || x == Some(JsNull) ==> r == 0.5
    ensures x.Some? && ToNumber(x.value, c).NaN? ==> r == 0.5
    ensures x.Some? && x.value.JsNumber? ==> r == Clamp(x.value.n, 0.0, 1.0)
  {
    match ConfidenceAsWritten(x, c)
    case Finite(v) => v
    case NaN => 0.5
  }

  /** Wherever the code yields a number, the corrected confidence is that number. */
  lemma ConfidenceAgrees(x: Option<JsValue>, c: Coercions)
    ensures ConfidenceAsWritten(x, c).Finite? ==> Confidence(x, c) == ConfidenceAsWritten(x, c).r
    ensures ConfidenceAsWritten(x, c).NaN? <==> x.Some? && x.value != JsNull && ToNumber(x.value, c).NaN?
  {
  }

  /** `completion.choices?.[0]?.message?.content || "{}"` */
  function EffectiveContent(content: Option<string>): (s: string)
    ensures s != ""
    ensures TruthyText(content) ==> s == content.value
  {
    if TruthyText(content) then content.value else "{}"
  }

  /** Index of the first occurrence of ch, or |s| when there is none. */
  function IndexOf(s: string, ch: char): (i: nat)
    ensures i <= |s|
    ensures ch !in s[..i]
    ensures i < |s| ==> s[i] == ch
  {
    if |s| == 0 then 0
    else if s[0] == ch then 0
    else
      var j := IndexOf(s[1..], ch);
      assert s[..j + 1] == [s[0]] + s[1..][..j];
      j + 1
  }

  /**
   * `content.match(/\{[\s\S]*\}$/)?.[0]`: the leftmost match starts at the
   * first "{" and runs to the end, provided the text ends with "}".
   */
  function BraceTail(s: string): (r: Option<string>)
    ensures r.Some? <==> |s| > 0 && s[|s| - 1] == '}' && '{' in s
    ensures r.Some? ==>
      EndsWith(s, r.value) && |r.value| >= 2 && r.value[0] == '{'
      && r.value[|r.value| - 1] == '}' && '{' !in s[..|s| - |r.value|]
  {
    var i := IndexOf(s, '{');
    assert i < |s| <==> '{' in s by {
      if i == |s| { assert s[..i] == s; } else { assert s[i] == '{'; }
    }
    if |s| > 0 && s[|s| - 1] == '}' && i < |s| then
      var t := s[i..];
      assert s[..|s| - |t|] == s[..i];
      Some(t)
    else
      None
  }

  /** What parsing the content yields: a JSON value, or a SyntaxError. */
  datatype Parsed = Document(doc: JsValue) | Unparseable

  /**
   * `JSON.parse(content)`, falling back to parsing the brace tail when there
   * is one and to `{}` when there is none.
   */
  function ParseContent(s: string, parse: string -> Option<JsValue>): (r: Parsed)
    ensures parse(s).Some? ==> r == Document(parse(s).value)
    ensures r.Unparseable? <==> parse(s).None? && BraceTail(s).Some? && parse(BraceTail(s).value).None?
    ensures parse(s).None? && BraceTail(s).None? ==> r == Document(JsObject(map[]))
    ensures parse(s).None? && r.Document? && BraceTail(s).Some? ==>
      r.doc == parse(BraceTail(s).value).value
  {
    match parse(s)
    case Some(v) => Document(v)
    case None =>
      match BraceTail(s)
      case None => Document(JsObject(map[]))
      case Some(tail) =>
        match parse(tail)
        case Some(v) => Document(v)
        case None => Unparseable
  }

  /**
   * The tail of `generateSingleResponse` after the completion call: parse,
   * normalise each field, and attach the raw text when asked. It throws a
   * SyntaxError when the brace tail does not parse, and a TypeError when the
   * content is the JSON literal null.
   */
  function GenerateSingle(content: Option<string>, enableRaw: bool, parse: string -> Option<JsValue>, c: Coercions)
    : (r: Outcome<LlmResponse>)
    ensures var text := EffectiveContent(content);
      r.Threw? <==> ParseContent(text, parse) == Unparseable || ParseContent(text, parse) == Document(JsNull)
    ensures r.Threw? ==> r.error in {SyntaxError, TypeError}
    ensures r.Returned? ==>
      |r.value.rationale| <= MaxRationale && 0.0 <= r.value.confidence <= 1.0
    ensures r.Returned? ==> (r.value.raw.Some? <==> enableRaw)
    ensures r.Returned? && enableRaw ==> r.value.raw == Some(EffectiveContent(content))
    ensures r.Returned? ==>
      var doc := ParseContent(EffectiveContent(content), parse).doc;
      (r.value.preference == B <==>
        Trim(FieldText(Get(doc, "preference"), c)) in {"B", "b"})
  {
    var text := EffectiveContent(content);
    match ParseContent(text, parse)
    case Unparseable => Threw(SyntaxError)
    case Document(doc) =>
      if doc == JsNull then Threw(TypeError)
      else
        Returned(LlmResponse(
          PreferenceOf(Get(doc, "preference"), c),
          RationaleOf(Get(doc, "rationale"), c),
          Confidence(Get(doc, "confidence"), c),
          if enableRaw then Some(text) else None))
  }

  /**
   * Text that is not JSON and has no trailing `{...}` does not throw: every
   * field takes its default (A, "", 0.5).
   */
  lemma MalformedOutputDefaults(content: Option<string>, enableRaw: bool, parse: string -> Option<JsValue>, c: Coercions)
    requires parse(EffectiveContent(content)).None?
    requires BraceTail(EffectiveContent(content)).None?
    ensures GenerateSingle(content, enableRaw, parse, c) ==
      Returned(LlmResponse(A, "", 0.5, if enableRaw then Some(EffectiveContent(content)) else None))
  {
    var doc := JsObject(map[]);
    assert Get(doc, "preference") == None && Get(doc, "rationale") == None;
  }

  /** Missing or empty content is read as `{}`, so a parser that reads `{}` gives the defaults. */
  lemma EmptyContentDefaults(content: Option<string>, enableRaw: bool, parse: string -> Option<JsValue>, c: Coercions)
    requires !TruthyText(content)
    requires parse("{}") == Some(JsObject(map[]))
    ensures GenerateSingle(content, enableRaw, parse, c) ==
      Returned(LlmResponse(A, "", 0.5, if enableRaw then Some("{}") else None))
  {
    var doc := JsObject(map[]);
    assert Get(doc, "preference") == None && Get(doc, "rationale") == None;
  }

  // ---------------------------------------------------------------------------
  // The batch sampler

  /** What one completion call produced: a failure, or the message content (None when absent). */
  datatype Completion = CallFailed | Content(text: Option<string>)

  /**
   * What every draw of a batch shares: the completion call as an oracle
   * indexed by (draw, attempt), the JSON parser, the coercions and the
   * raw-output flag.
   */
  datatype Generator = Generator(
    complete: (nat, nat) -> Completion,
    parse: string -> Option<JsValue>,
    coerce: Coercions,
    enableRaw: bool)

  const DefaultRetries: int := 2

  /** One attempt: the completion call followed by GenerateSingle; either may throw. */
  function AttemptOutcome(g: Generator, draw: nat, attempt: nat): Outcome<LlmResponse> {
    match g.complete(draw, attempt)
    case CallFailed => Threw(ServiceError)
    case Content(text) => GenerateSingle(text, g.enableRaw, g.parse, g.coerce)
  }

  /** The number of attempts a draw may make: one, plus `retries` when that is positive. */
  function MaxAttempts(retries: int): nat {
    if retries > 0 then retries + 1 else 1
  }

  /**
   * The retry rule of a draw, from attempt `attempt` on, given the outcome of
   * each attempt: its record and the number of attempts it made. Every
   * attempt before the last failed; the last either returned the record or
   * failed with no retry left, giving the fallback.
   */
  function Retry(outcome: nat -> Outcome<LlmResponse>, attempt: nat, retries: int): (r: (LlmResponse, nat))
    ensures 1 <= r.1 <= (if attempt < retries then retries - attempt else 0) + 1
    ensures forall k :: attempt <= k < attempt + r.1 - 1 ==> outcome(k).Threw?
    ensures outcome(attempt + r.1 - 1).Returned? ==> r.0 == outcome(attempt + r.1 - 1).value
    ensures outcome(attempt + r.1 - 1).Threw? ==> r.0 == Fallback && attempt + r.1 - 1 >= retries
    decreases if attempt < retries then retries - attempt else 0
  {
    match outcome(attempt)
    case Returned(resp) => (resp, 1)
    case Threw(_) =>
      if attempt < retries then
        var rest := Retry(outcome, attempt + 1, retries);
        (rest.0, rest.1 + 1)
      else
        (Fallback, 1)
  }

  /** The outcome of each attempt of draw number `draw`. */
  function Attempts(g: Generator, draw: nat): nat -> Outcome<LlmResponse> {
    (k: nat) => AttemptOutcome(g, draw, k)
  }

  /** Draw number `draw` of a batch: the retry rule over that draw's attempts. */
  function DrawFrom(g: Generator, draw: nat, attempt: nat, retries: int): (LlmResponse, nat) {
    Retry(Attempts(g, draw), attempt, retries)
  }

  /**
   * `runOne(attempt)` for one draw, whose attempts have the given outcomes:
   * try once, and on failure wait and retry while attempts remain.
   */
  method RunOne(outcome: nat -> Outcome<LlmResponse>, retries: int, attempt: nat)
    returns (r: LlmResponse, attempts: nat)
    ensures (r, attempts) == Retry(outcome, attempt, retries)
    decreases if attempt < retries then retries - attempt else 0
  {
    var result := outcome(attempt);
    if result.Returned? {
      r, attempts := result.value, 1;
    } else if attempt < retries {
      r, attempts := RunOne(outcome, retries, attempt + 1);
      attempts := attempts + 1;
    } else {
      r, attempts := Fallback, 1;
    }
  }

  /**
   * `batchGenerateResponses`, with the draws run one after another: one
   * record per draw, `sampleSize` of them, each from at most `retries + 1`
   * attempts. The attempts made by each draw are returned beside the records.
   */
  method BatchGenerate(g: Generator, sampleSize: int, retries: Option<int>)
    returns (results: seq<LlmResponse>, attempts: seq<nat>)
    ensures |results| == |attempts| == (if sampleSize > 0 then sampleSize else 0)
    ensures forall i :: 0 <= i < |results| ==>
      (results[i], attempts[i]) == DrawFrom(g, i, 0, retries.GetOr(DefaultRetries))
    ensures forall i :: 0 <= i < |attempts| ==>
      1 <= attempts[i] <= MaxAttempts(retries.GetOr(DefaultRetries))
  {
    var budget := retries.GetOr(DefaultRetries);
    results, attempts := [], [];
    var i := 0;
    while i < sampleSize
      invariant 0 <= i <= (if sampleSize > 0 then sampleSize else 0)
      invariant |results| == |attempts| == i
      invariant DrawsMatch(g, budget, results, attempts)
      decreases sampleSize - i
    {
      var r, n := RunOne(Attempts(g, i), budget, 0);
      DrawsExtend(g, budget, results, attempts, r, n);
      results, attempts := results + [r], attempts + [n];
      i := i + 1;
    }
  }

  /** Record j and attempt count j are those of draw j, for every draw so far. */
  predicate DrawsMatch(g: Generator, budget: int, results: seq<LlmResponse>, attempts: seq<nat>) {
    |results| == |attempts|
    && (forall j :: 0 <= j < |results| ==> (results[j], attempts[j]) == DrawFrom(g, j, 0, budget))
    && (forall j :: 0 <= j < |attempts| ==> 1 <= attempts[j] <= MaxAttempts(budget))
  }

  lemma DrawsExtend(g: Generator, budget: int, results: seq<LlmResponse>, attempts: seq<nat>, r: LlmResponse, n: nat)
    requires DrawsMatch(g, budget, results, attempts)
    requires (r, n) == DrawFrom(g, |results|, 0, budget)
    ensures DrawsMatch(g, budget, results + [r], attempts + [n])
  {
    var results', attempts' := results + [r], attempts + [n];
    var k := |results|;
    assert results'[k] == r && attempts'[k] == n;
    assert 1 <= n <= MaxAttempts(budget);
    forall j | 0 <= j < |results'|
      ensures (results'[j], attempts'[j]) == DrawFrom(g, j, 0, budget)
      ensures 1 <= attempts'[j] <= MaxAttempts(budget)
    {
      if j < |results| {
        assert results'[j] == results[j] && attempts'[j] == attempts[j];
      }
    }
  }

  /**
   * A draw whose every attempt fails contributes exactly the fallback record,
   * after the full `retries + 1` attempts.
   */
  lemma AllAttemptsFail(g: Generator, draw: nat, retries: int)
    requires forall k :: 0 <= k < MaxAttempts(retries) ==> g.complete(draw, k) == CallFailed
    ensures DrawFrom(g, draw, 0, retries) == (Fallback, MaxAttempts(retries))
  {
    var outcome := Attempts(g, draw);
    var r := Retry(outcome, 0, retries);
    assert outcome(r.1 - 1).Threw?;
  }

  /** A draw whose first attempt succeeds makes one attempt and keeps that record. */
  lemma FirstAttemptSucceeds(g: Generator, draw: nat, retries: int)
    requires AttemptOutcome(g, draw, 0).Returned?
    ensures DrawFrom(g, draw, 0, retries) == (AttemptOutcome(g, draw, 0).value, 1)
  {
  }
}
