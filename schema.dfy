/**
  The shared data contracts: the AI-response schema that every analysis is
  validated against, and the insert contract of a chat message.
  A zod object schema checks the declared keys only and returns a fresh object
  holding exactly those keys; any other key of the input is dropped.
 */
module Schema {
  import opened Wrappers
  import opened Json

  /** The validated analysis handed back to the caller: exactly four fields. */
  datatype AIResponse = AIResponse(
    analysis: string,
    pancasilaPrinciples: seq<string>,
    constitutionalReferences: seq<string>,
    recommendation: string)

  /** What a caller supplies to create a message: only its text. */
  datatype InsertMessage = InsertMessage(content: string)

  const AIResponseKeys: set<string> :=
    {"analysis", "pancasilaPrinciples", "constitutionalReferences", "recommendation"}

  /** `z.string()` accepts the value under `key`. */
  predicate StringField(j: Json, key: string) {
    j.JObj? && key in j.fields && j.fields[key].JStr?
  }

  /** `z.array(z.string())` accepts the value under `key`. */
  predicate StringListField(j: Json, key: string) {
    j.JObj? && key in j.fields && j.fields[key].JArr? && AllStrings(j.fields[key].items)
  }

  /** The shape `aiResponseSchema` accepts. */
  predicate ConformsToAIResponse(j: Json) {
    && StringField(j, "analysis")
    && StringListField(j, "pancasilaPrinciples")
    && StringListField(j, "constitutionalReferences")
    && StringField(j, "recommendation")
  }

  /** A list of strings as the JSON array that holds them. */
  function StringsToJson(ss: seq<string>): (r: seq<Json>)
    ensures |r| == |ss|
    ensures forall i :: 0 <= i < |ss| ==> r[i] == JStr(ss[i])
  {
    seq(|ss|, i requires 0 <= i < |ss| => JStr(ss[i]))
  }

  /** An analysis as the JSON object with its four keys. */
  function AIResponseToJson(a: AIResponse): Json {
    JObj(map[
      "analysis" := JStr(a.analysis),
      "pancasilaPrinciples" := JArr(StringsToJson(a.pancasilaPrinciples)),
      "constitutionalReferences" := JArr(StringsToJson(a.constitutionalReferences)),
      "recommendation" := JStr(a.recommendation)])
  }

  /**
    `z.array(z.string())` on the elements of an array: every element must
    already be a string; nothing is coerced.
   */
  function Strings(items: seq<Json>): (r: Option<seq<string>>)
    ensures r.Some? <==> AllStrings(items)
    ensures r.Some? ==> |r.value| == |items|
    ensures r.Some? ==> forall i :: 0 <= i < |items| ==> items[i] == JStr(r.value[i])
  {
    if items == [] then Some([])
    else if !items[0].JStr? then None
    else
      match Strings(items[1..])
      case None => None
      case Some(rest) => Some([items[0].s] + rest)
  }

  /**
    `aiResponseSchema.parse`: accepts exactly the conforming objects and
    returns the four declared fields, with their values as given.
   */
  function ValidateAIResponse(j: Json): (r: Option<AIResponse>)
    ensures r.Some? <==> ConformsToAIResponse(j)
    ensures r.Some? ==> j.fields["analysis"] == JStr(r.value.analysis)
    ensures r.Some? ==> j.fields["pancasilaPrinciples"] == JArr(StringsToJson(r.value.pancasilaPrinciples))
    ensures r.Some? ==> j.fields["constitutionalReferences"] == JArr(StringsToJson(r.value.constitutionalReferences))
    ensures r.Some? ==> j.fields["recommendation"] == JStr(r.value.recommendation)
  {
    if !ConformsToAIResponse(j) then None
    else
      var principles := Strings(j.fields["pancasilaPrinciples"].items);
      var references := Strings(j.fields["constitutionalReferences"].items);
      var a := AIResponse(
        j.fields["analysis"].s, principles.value, references.value, j.fields["recommendation"].s);
      assert j.fields["pancasilaPrinciples"].items == StringsToJson(principles.value);
      assert j.fields["constitutionalReferences"].items == StringsToJson(references.value);
      Some(a)
  }

  /** Different string lists give different JSON arrays. */
  lemma StringsToJsonInjective(ss: seq<string>, tt: seq<string>)
    requires StringsToJson(ss) == StringsToJson(tt)
    ensures ss == tt
  {
  }

  /** An analysis turned back into JSON validates to itself. */
  lemma ValidationRoundTrip(a: AIResponse)
    ensures ValidateAIResponse(AIResponseToJson(a)) == Some(a)
  {
    var j := AIResponseToJson(a);
    assert ConformsToAIResponse(j);
    var b := ValidateAIResponse(j).value;
    StringsToJsonInjective(b.pancasilaPrinciples, a.pancasilaPrinciples);
    StringsToJsonInjective(b.constitutionalReferences, a.constitutionalReferences);
  }

  /** Validation is idempotent: a validated value passes again, unchanged. */
  lemma ValidationIdempotent(j: Json)
    requires ValidateAIResponse(j).Some?
    ensures ValidateAIResponse(AIResponseToJson(ValidateAIResponse(j).value)) == ValidateAIResponse(j)
  {
  }

  /**
    Only the four declared keys matter: two objects that agree on them validate
    to the same result, whatever other keys (such as `research`) either holds.
   */
  lemma OnlyDeclaredKeysMatter(m1: map<string, Json>, m2: map<string, Json>)
    requires AgreeOn(m1, m2, AIResponseKeys)
    ensures ValidateAIResponse(JObj(m1)) == ValidateAIResponse(JObj(m2))
  {
  }

  /** A list holding any element that is not a string (an object, a number, ...) is rejected, not coerced. */
  lemma NonStringElementRejected(j: Json, key: string, i: nat)
    requires key == "pancasilaPrinciples" || key == "constitutionalReferences"
    requires j.JObj? && key in j.fields && j.fields[key].JArr?
    requires i < |j.fields[key].items| && !j.fields[key].items[i].JStr?
    ensures ValidateAIResponse(j).None?
  {
  }

  /**
    The insert schema picked from the messages table: an object whose
    `content` is a (not null) string; `id`, `response` and `timestamp` are not
    part of it, and any other key is dropped.
   */
  function ValidateInsertMessage(body: Json): (r: Option<InsertMessage>)
    ensures r.Some? <==> StringField(body, "content")
    ensures r.Some? ==> body.fields["content"] == JStr(r.value.content)
  {
    if StringField(body, "content") then Some(InsertMessage(body.fields["content"].s)) else None
  }

  /** The insert contract reads `content` alone: adding, changing or removing any other key changes nothing. */
  lemma InsertReadsOnlyContent(m1: map<string, Json>, m2: map<string, Json>)
    requires AgreeOn(m1, m2, {"content"})
    ensures ValidateInsertMessage(JObj(m1)) == ValidateInsertMessage(JObj(m2))
  {
  }
}
