/**
  What the analysis pipeline guarantees to its caller: which stage an error
  names and with which message, that a failed research stage never reaches
  the analysis provider, that only one analysis reply is ever used, and what
  normalisation followed by validation accepts and returns.
 */
module AiProperties {
  import opened Wrappers
  import opened Json
  import opened Schema
  import opened Extraction
  import opened Ai

  /** `x || ""` followed by `z.string()` succeeds: the value is falsy or already a string. */
  predicate AcceptableText(v: Option<Json>) {
    !Truthy(v) || v.value.JStr?
  }

  /** `Array.isArray(x) ? x : []` followed by `z.array(z.string())` succeeds: not an array, or an array of strings. */
  predicate AcceptableList(v: Option<Json>) {
    !IsArray(v) || AllStrings(v.value.items)
  }

  /** The text a text field ends up as, once accepted. */
  function TextOf(v: Option<Json>): string
    requires AcceptableText(v)
  {
    if Truthy(v) then v.value.s else ""
  }

  /**
    Normalising a parsed answer and validating it succeeds exactly when each
    text field is falsy or a string and each list field is not an array or is
    an array of strings; the analysis then holds the model's strings, `""`
    for a falsy text field and no element for a list field that was not an
    array.
   */
  lemma NormalisedAnswerAccepted(result: Json, research: Json)
    requires !result.JNull?
    ensures ValidateAIResponse(Normalise(result, research)).Some? <==>
      && AcceptableText(Get(result, "analysis"))
      && AcceptableList(Get(result, "pancasilaPrinciples"))
      && AcceptableList(Get(result, "constitutionalReferences"))
      && AcceptableText(Get(result, "recommendation"))
    ensures ValidateAIResponse(Normalise(result, research)).Some? ==>
      var a := ValidateAIResponse(Normalise(result, research)).value;
      && a.analysis == TextOf(Get(result, "analysis"))
      && a.recommendation == TextOf(Get(result, "recommendation"))
      && (IsArray(Get(result, "pancasilaPrinciples")) ==>
            JArr(StringsToJson(a.pancasilaPrinciples)) == Get(result, "pancasilaPrinciples").value)
      && (!IsArray(Get(result, "pancasilaPrinciples")) ==> a.pancasilaPrinciples == [])
      && (IsArray(Get(result, "constitutionalReferences")) ==>
            JArr(StringsToJson(a.constitutionalReferences)) == Get(result, "constitutionalReferences").value)
      && (!IsArray(Get(result, "constitutionalReferences")) ==> a.constitutionalReferences == [])
  {
  }

  /** An answer that already has the declared shape passes normalisation and validation unchanged. */
  lemma ConformingAnswerUnchanged(result: Json, research: Json)
    requires ConformsToAIResponse(result)
    ensures ValidateAIResponse(Normalise(result, research)) == ValidateAIResponse(result)
  {
  }

  /**
    Nothing the model returned under `research` survives: the normalised
    object holds the research-stage value there, whatever the answer held.
   */
  lemma ModelResearchIgnored(m1: map<string, Json>, m2: map<string, Json>, research: Json)
    requires AgreeOn(m1, m2, AIResponseKeys)
    ensures Normalise(JObj(m1), research) == Normalise(JObj(m2), research)
  {
  }

  /**
    The research attached to the normalised object is dropped by validation:
    the validated analysis is the same whatever research was attached.
   */
  lemma AttachedResearchDropped(result: Json, research1: Json, research2: Json)
    requires !result.JNull?
    ensures ValidateAIResponse(Normalise(result, research1)) == ValidateAIResponse(Normalise(result, research2))
  {
  }

  /** A list of answers holding a non-string element (an object, say) makes the analysis stage fail. */
  lemma NonStringPrincipleFailsAnalysis(result: Json, research: Json, i: nat)
    requires result.JObj? && IsArray(Get(result, "pancasilaPrinciples"))
    requires i < |Get(result, "pancasilaPrinciples").value.items|
    requires !Get(result, "pancasilaPrinciples").value.items[i].JStr?
    ensures ValidateAIResponse(Normalise(result, research)).None?
  {
  }

  /**
    If research fails, the analysis provider is never asked: replacing it by
    any other provider changes nothing, and the caller gets the research error
    behind the outer prefix.
   */
  lemma ResearchFailureSkipsAnalysis(text: string, s: Services, other: (Json, string) -> OpenAIReply)
    requires GatherResearch(text, s).Err?
    ensures AnalyzeRegulation(text, s) == AnalyzeRegulation(text, s.(analysis := other))
    ensures AnalyzeRegulation(text, s) == Err(Rethrow(OuterPrefix, GatherResearch(text, s).error))
  {
  }

  /**
    After a successful research stage the analysis provider is consulted once,
    about the research and the original text: any provider that gives the same
    reply to that one request leads to the same outcome, so there is no retry
    and no second provider.
   */
  lemma AnalysisUsesOneReply(text: string, s: Services, other: (Json, string) -> OpenAIReply)
    ensures GatherResearch(text, s).Ok? ==>
      var research := GatherResearch(text, s).value;
      other(research, text) == s.analysis(research, text) ==>
        AnalyzeRegulation(text, s) == AnalyzeRegulation(text, s.(analysis := other))
  {
    var s' := s.(analysis := other);
    assert GatherResearch(text, s') == GatherResearch(text, s);
  }

  /** The message of a stage-tagged error tells the caller which stage failed. */
  lemma ErrorNamesFailedStage(text: string, s: Services)
    ensures AnalyzeRegulation(text, s).Err? ==>
      var m := AnalyzeRegulation(text, s).error.message;
      && (OuterPrefix + ResearchPrefix <= m <==> GatherResearch(text, s).Err?)
      && (OuterPrefix + AnalysisPrefix <= m <==> GatherResearch(text, s).Ok?)
  {
    if AnalyzeRegulation(text, s).Ok? {
      return;
    }
    var m := AnalyzeRegulation(text, s).error.message;
    var k := |OuterPrefix|;
    if GatherResearch(text, s).Err? {
      var inner := GatherResearch(text, s).error.message;
      assert m == OuterPrefix + inner;
      assert ResearchPrefix <= inner;
      assert m[k] == 'R';
    } else {
      var inner := OpenAIAnalysis(GatherResearch(text, s).value, text, s).error.message;
      assert m == OuterPrefix + inner;
      assert AnalysisPrefix <= inner;
      assert m[k] == 'A';
    }
  }

  /** Concatenation of messages associates. */
  lemma ConcatAssociates(a: string, b: string, c: string)
    ensures a + b + c == a + (b + c)
  {
  }

  /**
    The messages of the research stage, as the caller reads them. Whatever
    made the inner parse block fail (no match, invalid JSON, schema), the
    caller reads one fixed message.
   */
  lemma ResearchStageMessages(text: string, s: Services)
    ensures s.research(text).HttpError? ==>
      AnalyzeRegulation(text, s)
        == Err(Error(OuterPrefix + ResearchPrefix + PerplexityErrorPrefix + s.research(text).body))
    ensures s.research(text) == FetchFailed(NonError) ==>
      AnalyzeRegulation(text, s) == Err(Error(OuterPrefix + ResearchPrefix + UnknownError))
    ensures s.research(text).FetchFailed? && s.research(text).thrown.Error? ==>
      AnalyzeRegulation(text, s)
        == Err(Error(OuterPrefix + ResearchPrefix + s.research(text).thrown.message))
    ensures s.research(text).Answered? && !HasContent(s.research(text).content) ==>
      AnalyzeRegulation(text, s) == Err(Error(OuterPrefix + ResearchPrefix + NoPerplexityContent))
    ensures s.research(text).Answered? && HasContent(s.research(text).content)
            && ParseResearch(s.research(text).content.value, s.parse, s.researchSchema).Err? ==>
      AnalyzeRegulation(text, s) == Err(Error(OuterPrefix + ResearchPrefix + ResearchParseFailed))
  {
    var attempt := ResearchAttempt(s.research(text), s.parse, s.researchSchema);
    if attempt.Err? {
      var inner := attempt.error;
      assert AnalyzeRegulation(text, s) == Err(Rethrow(OuterPrefix, Rethrow(ResearchPrefix, inner)));
      ConcatAssociates(OuterPrefix, ResearchPrefix, if inner.Error? then inner.message else UnknownError);
      if s.research(text).HttpError? {
        ConcatAssociates(OuterPrefix + ResearchPrefix, PerplexityErrorPrefix, s.research(text).body);
        ConcatAssociates(ResearchPrefix, PerplexityErrorPrefix, s.research(text).body);
      }
    }
  }

  /**
    The messages of the analysis stage, once research has succeeded. Whatever
    made the inner format block fail (no match, invalid JSON, `null`, schema),
    the caller reads one fixed message.
   */
  lemma AnalysisStageMessages(text: string, s: Services)
    ensures GatherResearch(text, s).Ok? ==>
      var reply := s.analysis(GatherResearch(text, s).value, text);
      && (reply == RequestFailed(NonError) ==>
            AnalyzeRegulation(text, s) == Err(Error(OuterPrefix + AnalysisPrefix + UnknownError)))
      && (reply.RequestFailed? && reply.thrown.Error? ==>
            AnalyzeRegulation(text, s) == Err(Error(OuterPrefix + AnalysisPrefix + reply.thrown.message)))
      && (reply.Completed? && !HasContent(reply.content) ==>
            AnalyzeRegulation(text, s) == Err(Error(OuterPrefix + AnalysisPrefix + NoOpenAIContent)))
      && (reply.Completed? && HasContent(reply.content)
          && FormatAIResponse(reply.content.value, GatherResearch(text, s).value, s.parse).Err? ==>
            AnalyzeRegulation(text, s) == Err(Error(OuterPrefix + AnalysisPrefix + FormatFailed)))
  {
    if GatherResearch(text, s).Err? {
      return;
    }
    var research := GatherResearch(text, s).value;
    var reply := s.analysis(research, text);
    var attempt := AnalysisAttempt(reply, research, s.parse);
    if attempt.Err? {
      var inner := attempt.error;
      assert OpenAIAnalysis(research, text, s) == Err(Rethrow(AnalysisPrefix, inner));
      assert AnalyzeRegulation(text, s) == Err(Rethrow(OuterPrefix, Rethrow(AnalysisPrefix, inner)));
      ConcatAssociates(OuterPrefix, AnalysisPrefix, if inner.Error? then inner.message else UnknownError);
    }
  }

  /**
    A research answer that wraps a JSON object in prose (no `{` before it, no
    `}` after it) yields what the research schema makes of that object.
   */
  lemma ResearchRecoveredFromProse(text: string, s: Services, pre: string, obj: string, post: string, research: Json)
    requires |obj| >= 2 && obj[0] == '{' && obj[|obj| - 1] == '}'
    requires '{' !in pre && '}' !in post
    requires s.research(text) == Answered(Some(pre + obj + post))
    requires s.parse(obj).Ok? && s.researchSchema(s.parse(obj).value) == Some(research)
    ensures GatherResearch(text, s) == Ok(research)
  {
    var content := pre + obj + post;
    EmbeddedObjectRecovered(pre, obj, post);
    ParseResearchOfMatch(content, obj, research, s.parse, s.researchSchema);
    assert HasContent(Some(content)) by { assert |content| >= 2; }
    assert ResearchAttempt(s.research(text), s.parse, s.researchSchema) == Ok(research);
  }

  /** The research stage's inner block parses the matched object as it is: trimming removes nothing. */
  lemma ParseResearchOfMatch(content: string, obj: string, research: Json,
                             parse: string -> Result<Json, string>, researchSchema: Json -> Option<Json>)
    requires MatchBraces(content) == Some(obj)
    requires parse(obj).Ok? && researchSchema(parse(obj).value) == Some(research)
    ensures ParseResearch(content, parse, researchSchema) == Ok(research)
  {
  }

  /**
    The analysis stage's inner block, once the match parses to a value other
    than `null`: it succeeds exactly when the normalised object validates, and
    then returns the validated analysis.
   */
  lemma FormatAIResponseOfMatch(content: string, research: Json, parse: string -> Result<Json, string>, result: Json)
    requires MatchBraces(content).Some? && parse(MatchBraces(content).value) == Ok(result)
    requires !result.JNull?
    ensures FormatAIResponse(content, research, parse).Ok? <==> ValidateAIResponse(Normalise(result, research)).Some?
    ensures FormatAIResponse(content, research, parse).Ok? ==>
      FormatAIResponse(content, research, parse).value == ValidateAIResponse(Normalise(result, research)).value
  {
  }

  /**
    The analysis stage's inner block fails on a missing match, on a parse
    error and on a parsed `null`, before normalisation is reached.
   */
  lemma FormatAIResponseFailures(content: string, research: Json, parse: string -> Result<Json, string>)
    ensures MatchBraces(content).None? ==>
      FormatAIResponse(content, research, parse) == Err(NoJsonSpan(InvalidOpenAIFormat))
    ensures MatchBraces(content).Some? && parse(MatchBraces(content).value).Err? ==>
      FormatAIResponse(content, research, parse) == Err(SyntaxError(parse(MatchBraces(content).value).error))
    ensures MatchBraces(content).Some? && parse(MatchBraces(content).value) == Ok(JNull) ==>
      FormatAIResponse(content, research, parse) == Err(NullAccess)
  {
  }

  /**
    End to end: when research succeeds and the analysis answer wraps, in
    prose, a JSON object that already has the declared shape, the caller
    receives exactly that object's four fields.
   */
  lemma AnalysisRecoveredFromProse(text: string, s: Services, pre: string, obj: string, post: string)
    requires |obj| >= 2 && obj[0] == '{' && obj[|obj| - 1] == '}'
    requires '{' !in pre && '}' !in post
    requires s.parse(obj).Ok? && ConformsToAIResponse(s.parse(obj).value)
    ensures GatherResearch(text, s).Ok? && s.analysis(GatherResearch(text, s).value, text) == Completed(Some(pre + obj + post))
      ==> AnalyzeRegulation(text, s) == Ok(ValidateAIResponse(s.parse(obj).value).value)
  {
    if GatherResearch(text, s).Ok? && s.analysis(GatherResearch(text, s).value, text) == Completed(Some(pre + obj + post)) {
      var content := pre + obj + post;
      var research := GatherResearch(text, s).value;
      var result := s.parse(obj).value;
      EmbeddedObjectRecovered(pre, obj, post);
      ConformingAnswerUnchanged(result, research);
      assert FormatAIResponse(content, research, s.parse) == Ok(ValidateAIResponse(result).value);
      assert HasContent(Some(content)) by { assert |content| >= 2; }
      assert AnalysisAttempt(s.analysis(research, text), research, s.parse) == Ok(ValidateAIResponse(result).value);
    }
  }
}
