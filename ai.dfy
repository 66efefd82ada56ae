/**
  The regulation-analysis pipeline: a research stage answered by the
  Perplexity search model, then one analysis call to the OpenAI model, each
  stage turning free-form model output into a validated value and every
  failure into an `Error` whose message names the stage.

  The providers, `JSON.parse` and the research schema are not modelled: they
  are the inputs gathered in `Services`. Exceptions are `Err` values; a
  `try`/`catch` is a match on the `Result` of its block.
 */
module Ai {
  import opened Wrappers
  import opened Json
  import opened Schema
  import opened Extraction

  /** What a `catch` clause receives: an `Error` (with its message) or any other thrown value. */
  datatype Thrown = Error(message: string) | NonError

  /**
    Why the inner `try` block of a stage failed. The matching `catch` discards
    the reason and throws one fixed message instead.
   */
  datatype ParseFailure =
    | NoJsonSpan(message: string)   // the regular expression found no match
    | SyntaxError(message: string)  // `JSON.parse` threw
    | SchemaRejected                // the zod schema threw
    | NullAccess                    // `result.analysis` on a parsed `null`

  /**
    The outcome of one research request: the fetch (or reading its body, or
    reaching `choices[0].message.content`) threw, the server answered with a
    non-OK status and this body text, or the message content (`None` when it
    is `null` or absent).
   */
  datatype PerplexityReply =
    | FetchFailed(thrown: Thrown)
    | HttpError(body: string)
    | Answered(content: Option<string>)

  /** The outcome of one chat-completion call: the SDK threw, or the message content. */
  datatype OpenAIReply =
    | RequestFailed(thrown: Thrown)
    | Completed(content: Option<string>)

  /**
    Everything outside the pipeline: the research provider (asked about the
    user's text), the analysis provider (asked about the research and the
    text), `JSON.parse` (the error is the SyntaxError's message) and
    `researchResponseSchema.parse`.
   */
  datatype Services = Services(
    research: string -> PerplexityReply,
    analysis: (Json, string) -> OpenAIReply,
    parse: string -> Result<Json, string>,
    researchSchema: Json -> Option<Json>)

  const OuterPrefix := "Failed to analyze text: "
  const ResearchPrefix := "Research gathering failed: "
  const AnalysisPrefix := "Analysis failed: "
  const UnknownError := "Unknown error"
  const PerplexityErrorPrefix := "Perplexity API error: "
  const NoPerplexityContent := "No response content from Perplexity"
  const NoOpenAIContent := "No response content from OpenAI"
  const ResearchParseFailed := "Failed to parse research response"
  const FormatFailed := "Failed to format AI response"
  const NoJsonFound := "No valid JSON found in response"
  const InvalidOpenAIFormat := "Invalid response format from OpenAI"

  /** `!content` for a message content that is a string or `null`. */
  predicate HasContent(content: Option<string>) {
    content.Some? && content.value != ""
  }

  /**
    A `catch (error)` that rethrows `new Error(prefix + error.message)` for an
    `Error` and `new Error(prefix + "Unknown error")` otherwise: whatever was
    caught, an `Error` carrying the prefix comes out.
   */
  function Rethrow(prefix: string, t: Thrown): (r: Thrown)
    ensures r.Error? && prefix <= r.message
    ensures r.message == prefix + (if t.Error? then t.message else UnknownError)
  {
    match t
    case Error(m) => Error(prefix + m)
    case NonError => Error(prefix + UnknownError)
  }

  /**
    `perplexityRequest`: a non-OK status becomes an `Error` quoting the body;
    an answered request hands back its message content.
   */
  function PerplexityRequest(reply: PerplexityReply): (r: Result<Option<string>, Thrown>)
    ensures r.Ok? <==> reply.Answered?
    ensures r.Ok? ==> r.value == reply.content
    ensures reply.HttpError? ==>
      && r.error.Error?
      && PerplexityErrorPrefix <= r.error.message
      && r.error.message[|PerplexityErrorPrefix|..] == reply.body
    ensures reply.FetchFailed? ==> r.error == reply.thrown
  {
    match reply
    case FetchFailed(t) => Err(t)
    case HttpError(body) => Err(Error(PerplexityErrorPrefix + body))
    case Answered(content) => Ok(content)
  }

  /**
    The inner `try` of `gatherResearch`: match, trim, `JSON.parse`, research
    schema. Trimming the match removes nothing, so `JSON.parse` sees the
    matched object itself.
   */
  function ParseResearch(content: string, parse: string -> Result<Json, string>, researchSchema: Json -> Option<Json>)
    : (r: Result<Json, ParseFailure>)
    ensures MatchBraces(content).None? ==> r == Err(NoJsonSpan(NoJsonFound))
    ensures r.Ok? <==>
      && MatchBraces(content).Some?
      && parse(MatchBraces(content).value).Ok?
      && researchSchema(parse(MatchBraces(content).value).value).Some?
    ensures r.Ok? ==> r.value == researchSchema(parse(MatchBraces(content).value).value).value
  {
    match MatchBraces(content)
    case None => Err(NoJsonSpan(NoJsonFound))
    case Some(span) =>
      var json := Trim(span);
      TrimKeepsBracedText(span);
      assert json == MatchBraces(content).value;
      match parse(json)
      case Err(m) => Err(SyntaxError(m))
      case Ok(result) =>
        match researchSchema(result)
        case None => Err(SchemaRejected)
        case Some(research) => Ok(research)
  }

  /** The outer `try` block of `gatherResearch`, before its `catch`. */
  function ResearchAttempt(reply: PerplexityReply, parse: string -> Result<Json, string>, researchSchema: Json -> Option<Json>)
    : Result<Json, Thrown>
  {
    match PerplexityRequest(reply)
    case Err(t) => Err(t)
    case Ok(content) =>
      if !HasContent(content) then Err(Error(NoPerplexityContent))
      else
        match ParseResearch(content.value, parse, researchSchema)
        case Err(_) => Err(Error(ResearchParseFailed))
        case Ok(research) => Ok(research)
  }

  /**
    `gatherResearch`: one request to the research provider; its result is
    what the research schema returned for the parsed match, and every failure
    is an `Error` tagged with the research stage.
   */
  function GatherResearch(text: string, s: Services): (r: Result<Json, Thrown>)
    ensures r.Err? ==> r.error.Error? && ResearchPrefix <= r.error.message
    ensures r.Ok? <==>
      && s.research(text).Answered?
      && HasContent(s.research(text).content)
      && ParseResearch(s.research(text).content.value, s.parse, s.researchSchema).Ok?
    ensures r.Ok? ==> Ok(r.value) == ParseResearch(s.research(text).content.value, s.parse, s.researchSchema)
  {
    match ResearchAttempt(s.research(text), s.parse, s.researchSchema)
    case Err(t) => Err(Rethrow(ResearchPrefix, t))
    case Ok(research) => Ok(research)
  }

  /** `x || ""`: a falsy or missing value becomes the empty string, any other value is kept as it is. */
  function OrEmptyString(v: Option<Json>): Json {
    if Truthy(v) then v.value else JStr("")
  }

  /** `Array.isArray(x) ? x : []`. */
  function ArrayOrEmpty(v: Option<Json>): Json {
    if IsArray(v) then v.value else JArr([])
  }

  /** How a text field of the model's answer is normalised: `""` in place of a falsy value, otherwise unchanged. */
  predicate TextFieldNormalised(result: Json, normalised: Json, key: string)
    requires !result.JNull?
  {
    && (Truthy(Get(result, key)) ==> normalised == Get(result, key).value)
    && (!Truthy(Get(result, key)) ==> normalised == JStr(""))
  }

  /** How a list field is normalised: an array is kept as it is (whatever it holds), anything else becomes `[]`. */
  predicate ListFieldNormalised(result: Json, normalised: Json, key: string)
    requires !result.JNull?
  {
    && (IsArray(Get(result, key)) ==> normalised == Get(result, key).value)
    && (!IsArray(Get(result, key)) ==> normalised == JArr([]))
  }

  /**
    The object literal built from the parsed answer: the four declared fields
    normalised, and `research` set to the research-stage value.
   */
  function Normalise(result: Json, research: Json): (r: Json)
    requires !result.JNull?
    ensures r.JObj? && r.fields.Keys == AIResponseKeys + {"research"}
    ensures TextFieldNormalised(result, r.fields["analysis"], "analysis")
    ensures TextFieldNormalised(result, r.fields["recommendation"], "recommendation")
    ensures ListFieldNormalised(result, r.fields["pancasilaPrinciples"], "pancasilaPrinciples")
    ensures ListFieldNormalised(result, r.fields["constitutionalReferences"], "constitutionalReferences")
    ensures r.fields["research"] == research
  {
    JObj(map[
      "analysis" := OrEmptyString(Get(result, "analysis")),
      "pancasilaPrinciples" := ArrayOrEmpty(Get(result, "pancasilaPrinciples")),
      "constitutionalReferences" := ArrayOrEmpty(Get(result, "constitutionalReferences")),
      "recommendation" := OrEmptyString(Get(result, "recommendation")),
      "research" := research])
  }

  /** The inner `try` of `openAIAnalysis`: match, `JSON.parse`, normalise, `aiResponseSchema.parse`. */
  function FormatAIResponse(content: string, research: Json, parse: string -> Result<Json, string>)
    : Result<AIResponse, ParseFailure>
  {
    match MatchBraces(content)
    case None => Err(NoJsonSpan(InvalidOpenAIFormat))
    case Some(span) =>
      match parse(span)
      case Err(m) => Err(SyntaxError(m))
      case Ok(result) =>
        if result.JNull? then Err(NullAccess)
        else
          match ValidateAIResponse(Normalise(result, research))
          case None => Err(SchemaRejected)
          case Some(a) => Ok(a)
  }

  /** The outer `try` block of `openAIAnalysis`, before its `catch`. */
  function AnalysisAttempt(reply: OpenAIReply, research: Json, parse: string -> Result<Json, string>)
    : Result<AIResponse, Thrown>
  {
    match reply
    case RequestFailed(t) => Err(t)
    case Completed(content) =>
      if !HasContent(content) then Err(Error(NoOpenAIContent))
      else
        match FormatAIResponse(content.value, research, parse)
        case Err(_) => Err(Error(FormatFailed))
        case Ok(a) => Ok(a)
  }

  /**
    `openAIAnalysis`: one call to the analysis provider about the research
    and the original text; every failure is an `Error` tagged with the
    analysis stage.
   */
  function OpenAIAnalysis(research: Json, text: string, s: Services): (r: Result<AIResponse, Thrown>)
    ensures r.Err? ==> r.error.Error? && AnalysisPrefix <= r.error.message
    ensures r.Ok? <==>
      && s.analysis(research, text).Completed?
      && HasContent(s.analysis(research, text).content)
      && FormatAIResponse(s.analysis(research, text).content.value, research, s.parse).Ok?
    ensures r.Ok? ==> Ok(r.value) == FormatAIResponse(s.analysis(research, text).content.value, research, s.parse)
  {
    match AnalysisAttempt(s.analysis(research, text), research, s.parse)
    case Err(t) => Err(Rethrow(AnalysisPrefix, t))
    case Ok(a) => Ok(a)
  }

  /**
    `analyzeRegulation`, the entry point: research first, then exactly one
    analysis call; the caller sees either the validated analysis or one
    `Error` naming the stage that failed.
   */
  function AnalyzeRegulation(text: string, s: Services): (r: Result<AIResponse, Thrown>)
    ensures r.Err? ==> r.error.Error?
    ensures r.Err? ==>
      || OuterPrefix + ResearchPrefix <= r.error.message
      || OuterPrefix + AnalysisPrefix <= r.error.message
    ensures r.Ok? ==> GatherResearch(text, s).Ok?
    ensures GatherResearch(text, s).Ok? ==>
      var stage := OpenAIAnalysis(GatherResearch(text, s).value, text, s);
      && (stage.Ok? ==> r == stage)
      && (stage.Err? ==> r == Err(Rethrow(OuterPrefix, stage.error)))
  {
    match GatherResearch(text, s)
    case Err(t) =>
      PrefixExtends(OuterPrefix, ResearchPrefix, t.message);
      Err(Rethrow(OuterPrefix, t))
    case Ok(research) =>
      match OpenAIAnalysis(research, text, s)
      case Err(t) =>
        PrefixExtends(OuterPrefix, AnalysisPrefix, t.message);
        Err(Rethrow(OuterPrefix, t))
      case Ok(a) => Ok(a)
  }

  /** A prefix of a message stays a prefix once both get the same prefix in front. */
  lemma PrefixExtends(p: string, q: string, m: string)
    requires q <= m
    ensures p + q <= p + m
  {
  }
}
