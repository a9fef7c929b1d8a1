/**
 * Interpreting the provider's reply. The reply body has already been run
 * through `json_decode` once (the envelope); the content string found in it
 * is decoded a second time, its five required keys are checked in a fixed
 * order, and the result record is built from it.
 */
module Response {
  import opened Wrappers
  import opened Json
  import opened Php
  import opened StyleAnalysis
  import opened Payload

  /** Every way a call can end without a result. */
  datatype Error =
    | EmptyImageList
    | TransportFailed(cause: string)
    | ContentNotFound
    | NestedDecodeFailed(reason: string, raw: string)
    | MissingKey(key: string)

  /** The PHP exception class each error is thrown as. */
  function ExceptionClass(e: Error): string
  {
    match e
    case EmptyImageList => "InvalidArgumentException"
    case TransportFailed(_) => "Exception"
    case _ => "UnexpectedValueException"
  }

  /** The exception message each error carries. */
  function Message(e: Error): string
  {
    match e
    case EmptyImageList => "The image URLs array cannot be empty."
    case TransportFailed(cause) => "Failed to connect to the AI API endpoint: " + cause
    case ContentNotFound => "Could not find the content string in the API response."
    case NestedDecodeFailed(reason, raw) =>
      "Failed to decode the nested JSON from the API response. Error: " + reason + ". Raw content: " + raw
    case MissingKey(key) => "The final JSON data is missing the required key: '" + key + "'."
  }

  /** The envelope: the decoded reply body, or PHP's null when the body is not JSON. */
  function DecodeEnvelope(body: string, jsonDecode: string -> Result<Json, string>): Json
  {
    match jsonDecode(body)
    case Success(j) => j
    case Failure(_) => JNull
  }

  /** `message.content` for Ollama, `choices[0].message.content` for the cloud API. */
  function ContentPath(envelope: Json, provider: Provider): Option<Json>
  {
    match provider
    case Ollama =>
      (match Field(envelope, "message")
       case Some(message) => Field(message, "content")
       case None => None)
    case Cloud =>
      (match Field(envelope, "choices")
       case None => None
       case Some(choices) =>
         match First(choices)
         case None => None
         case Some(choice) =>
           match Field(choice, "message")
           case Some(message) => Field(message, "content")
           case None => None)
  }

  /**
   * `isset(...)` on the provider's path: the value there, when it exists and
   * is not null. Only associative arrays have the string keys on the path;
   * `[0]` also reads a list's first element or an object's key "0". A string
   * met on the way (even a first character taken by `[0]`) ends the path.
   */
  function ContentAt(envelope: Json, provider: Provider): (r: Option<Json>)
    ensures provider == Ollama ==>
              (r.Some? <==>
                 && envelope.JObject? && "message" in envelope.fields
                 && var message := envelope.fields["message"];
                 && message.JObject? && "content" in message.fields
                 && message.fields["content"] != JNull)
    ensures provider == Ollama && r.Some? ==>
              r.value == envelope.fields["message"].fields["content"]
    ensures provider == Cloud ==>
              (r.Some? <==>
                 && envelope.JObject? && "choices" in envelope.fields
                 && var choices := envelope.fields["choices"];
                 && ((choices.JArray? && |choices.items| > 0) || (choices.JObject? && "0" in choices.fields))
                 && var choice := if choices.JArray? then choices.items[0] else choices.fields["0"];
                 && choice.JObject? && "message" in choice.fields
                 && var message := choice.fields["message"];
                 && message.JObject? && "content" in message.fields
                 && message.fields["content"] != JNull)
    ensures provider == Cloud && r.Some? ==>
              var choices := envelope.fields["choices"];
              var choice := if choices.JArray? then choices.items[0] else choices.fields["0"];
              r.value == choice.fields["message"].fields["content"]
  {
    var v := ContentPath(envelope, provider);
    if v.Some? && v.value != JNull then v else None
  }

  /** The keys `array_key_exists` finds in a decoded value (a list has no string keys). */
  function KeysOf(j: Json): set<string>
  {
    if j.JObject? then j.fields.Keys else {}
  }

  /** The first of `keys` that is not in `present`, if any. */
  function FirstMissing(keys: seq<string>, present: set<string>): (r: Option<string>)
    ensures r.None? <==> forall k :: k in keys ==> k in present
    ensures r.Some? ==> exists i :: 0 <= i < |keys| && keys[i] == r.value && r.value !in present
                                    && forall j :: 0 <= j < i ==> keys[j] in present
    decreases |keys|
  {
    if keys == [] then None
    else if keys[0] !in present then Some(keys[0])
    else
      var r := FirstMissing(keys[1..], present);
      assert forall k :: k in keys ==> k == keys[0] || k in keys[1..];
      r
  }

  /** Scanning `keys` from position `i`: the key there decides, or the scan moves on. */
  lemma FirstMissingFrom(keys: seq<string>, i: nat, present: set<string>)
    requires i < |keys|
    ensures FirstMissing(keys[i..], present)
            == if keys[i] !in present then Some(keys[i]) else FirstMissing(keys[i + 1..], present)
  {
    assert keys[i..][1..] == keys[i + 1..];
  }

  /** All five required keys are present (a null value counts as present). */
  predicate HasAllKeys(j: Json)
  {
    FirstMissing(RequiredKeys, KeysOf(j)).None?
  }

  /**
   * The values a PHP run reaches without a TypeError: the content is a
   * string, what it decodes to is an array, and when all keys are present the
   * string fields hold strings and outfitSuggestion a string or null.
   */
  predicate RuntimeTyped(envelope: Json, provider: Provider, jsonDecode: string -> Result<Json, string>)
  {
    match ContentAt(envelope, provider)
    case None => true
    case Some(content) =>
      && content.JString?
      && match jsonDecode(content.s)
         case Failure(_) => true
         case Success(data) =>
           && (data.JArray? || data.JObject?)
           && (HasAllKeys(data) ==> FieldsTyped(data))
  }

  predicate FieldsTyped(data: Json)
    requires HasAllKeys(data)
  {
    assert forall k :: k in RequiredKeys ==> k in KeysOf(data);
    && data.JObject?
    && data.fields["objectiveDescription"].JString?
    && data.fields["styleAnalysis"].JString?
    && (data.fields["outfitSuggestion"].JString? || data.fields["outfitSuggestion"].JNull?)
    && data.fields["occasionAnalysis"].JString?
  }

  /** The JSON value PHP would hold for an optional string. */
  function Nullable(s: Option<string>): Json
  {
    match s
    case None => JNull
    case Some(v) => JString(v)
  }

  /** `new StyleAnalysisResult(...)` from the decoded answer. */
  function BuildResult(data: Json): StyleAnalysisResult
    requires HasAllKeys(data) && FieldsTyped(data)
  {
    var f := data.fields;
    StyleAnalysisResult(
      f["objectiveDescription"].s,
      f["styleAnalysis"].s,
      ToBool(f["isStyleMatch"]),
      if f["outfitSuggestion"].JNull? then None else Some(f["outfitSuggestion"].s),
      f["occasionAnalysis"].s)
  }

  /** The interpretation of the envelope, from content lookup to the result record. */
  function Interpret(envelope: Json, provider: Provider, jsonDecode: string -> Result<Json, string>): Result<StyleAnalysisResult, Error>
    requires RuntimeTyped(envelope, provider, jsonDecode)
  {
    match ContentAt(envelope, provider)
    case None => Failure(ContentNotFound)
    case Some(content) =>
      var raw := content.s;
      match jsonDecode(raw)
      case Failure(reason) => Failure(NestedDecodeFailed(reason, raw))
      case Success(data) =>
        match FirstMissing(RequiredKeys, KeysOf(data))
        case Some(key) => Failure(MissingKey(key))
        case None => Success(BuildResult(data))
  }

  // ----- inverse views, used to state round trips -----

  /** The decoded answer a model gives for `r`. */
  function AnswerFor(r: StyleAnalysisResult): Json
  {
    JObject(map[
      "objectiveDescription" := JString(r.objectiveDescription),
      "styleAnalysis" := JString(r.styleAnalysis),
      "isStyleMatch" := JBool(r.isStyleMatch),
      "outfitSuggestion" := Nullable(r.outfitSuggestion),
      "occasionAnalysis" := JString(r.occasionAnalysis)])
  }

  /** The envelope a provider of the given family returns around the content string `raw`. */
  function EnvelopeFor(provider: Provider, raw: string): Json
  {
    var message := JObject(map["role" := JString("assistant"), "content" := JString(raw)]);
    match provider
    case Ollama => JObject(map["message" := message])
    case Cloud => JObject(map["choices" := JArray([JObject(map["message" := message])])])
  }

  function Other(p: Provider): Provider
  {
    if p == Cloud then Ollama else Cloud
  }

  // ----- properties -----

  /** The content is found exactly on the family's own path, never on the other family's. */
  lemma EnvelopePaths(provider: Provider, raw: string)
    ensures ContentAt(EnvelopeFor(provider, raw), provider) == Some(JString(raw))
    ensures ContentAt(EnvelopeFor(provider, raw), Other(provider)).None?
  {
  }

  /** Interpretation looks at nothing but the content on the selected path. */
  lemma OnlySelectedPathMatters(e1: Json, e2: Json, provider: Provider, jsonDecode: string -> Result<Json, string>)
    requires RuntimeTyped(e1, provider, jsonDecode)
    requires ContentAt(e1, provider) == ContentAt(e2, provider)
    ensures RuntimeTyped(e2, provider, jsonDecode)
    ensures Interpret(e1, provider, jsonDecode) == Interpret(e2, provider, jsonDecode)
  {
  }

  /** A missing path, or null at its end, is "content not found", and only that is. */
  lemma ContentNotFoundExactly(envelope: Json, provider: Provider, jsonDecode: string -> Result<Json, string>)
    requires RuntimeTyped(envelope, provider, jsonDecode)
    ensures Interpret(envelope, provider, jsonDecode) == Failure(ContentNotFound)
            <==> ContentPath(envelope, provider) in {None, Some(JNull)}
  {
  }

  /** A content string that does not decode gives an error showing that string. */
  lemma UndecodableContent(envelope: Json, provider: Provider, jsonDecode: string -> Result<Json, string>, raw: string)
    requires ContentAt(envelope, provider) == Some(JString(raw))
    requires jsonDecode(raw).Failure?
    ensures RuntimeTyped(envelope, provider, jsonDecode)
    ensures var r := Interpret(envelope, provider, jsonDecode);
            && r == Failure(NestedDecodeFailed(jsonDecode(raw).error, raw))
            && ExceptionClass(r.error) == "UnexpectedValueException"
            && StrContains(Message(r.error), raw)
  {
    var reason := jsonDecode(raw).error;
    ContainsMiddle("Failed to decode the nested JSON from the API response. Error: " + reason + ". Raw content: ", raw, "");
    assert Message(NestedDecodeFailed(reason, raw))
        == "Failed to decode the nested JSON from the API response. Error: " + reason + ". Raw content: " + raw + "";
  }

  /** A decoded answer without some required key fails on the first such key, and names it. */
  lemma MissingKeyReported(envelope: Json, provider: Provider, jsonDecode: string -> Result<Json, string>, raw: string)
    requires RuntimeTyped(envelope, provider, jsonDecode)
    requires ContentAt(envelope, provider) == Some(JString(raw))
    requires jsonDecode(raw).Success? && !HasAllKeys(jsonDecode(raw).value)
    ensures var r := Interpret(envelope, provider, jsonDecode);
            && r.Failure? && r.error.MissingKey?
            && StrContains(Message(r.error), r.error.key)
            && exists i :: 0 <= i < |RequiredKeys| && RequiredKeys[i] == r.error.key
                           && r.error.key !in KeysOf(jsonDecode(raw).value)
                           && forall j :: 0 <= j < i ==> RequiredKeys[j] in KeysOf(jsonDecode(raw).value)
  {
    var key := FirstMissing(RequiredKeys, KeysOf(jsonDecode(raw).value)).value;
    ContainsMiddle("The final JSON data is missing the required key: '", key, "'.");
  }

  /**
   * The interpretation succeeds exactly when the content is found, decodes,
   * and has all five keys; the result then mirrors the decoded values, with
   * only isStyleMatch cast to bool.
   */
  lemma SuccessExactly(envelope: Json, provider: Provider, jsonDecode: string -> Result<Json, string>)
    requires RuntimeTyped(envelope, provider, jsonDecode)
    ensures var r := Interpret(envelope, provider, jsonDecode);
            var c := ContentAt(envelope, provider);
            && (r.Success? <==> c.Some? && jsonDecode(c.value.s).Success? && HasAllKeys(jsonDecode(c.value.s).value))
            && (r.Success? ==>
                  var data := jsonDecode(c.value.s).value;
                  && data.JObject?
                  && data.fields.Keys >= {"objectiveDescription", "styleAnalysis", "isStyleMatch", "outfitSuggestion", "occasionAnalysis"}
                  && data.fields["objectiveDescription"] == JString(r.value.objectiveDescription)
                  && data.fields["styleAnalysis"] == JString(r.value.styleAnalysis)
                  && r.value.isStyleMatch == ToBool(data.fields["isStyleMatch"])
                  && data.fields["outfitSuggestion"] == Nullable(r.value.outfitSuggestion)
                  && data.fields["occasionAnalysis"] == JString(r.value.occasionAnalysis))
  {
    var r := Interpret(envelope, provider, jsonDecode);
    if r.Success? {
      HasAllKeysMeans(jsonDecode(ContentAt(envelope, provider).value.s).value);
    }
  }

  /** Having all keys means being an object with the five required names. */
  lemma HasAllKeysMeans(data: Json)
    requires HasAllKeys(data)
    ensures data.JObject?
    ensures data.fields.Keys >= {"objectiveDescription", "styleAnalysis", "isStyleMatch", "outfitSuggestion", "occasionAnalysis"}
  {
    assert forall k :: k in RequiredKeys ==> k in KeysOf(data);
  }

  /**
   * Round trip: wrapping the JSON text of a result in either family's
   * envelope and interpreting it gives that result back, a null
   * outfitSuggestion included.
   */
  lemma RoundTrip(r: StyleAnalysisResult, provider: Provider, raw: string, jsonDecode: string -> Result<Json, string>)
    requires jsonDecode(raw) == Success(AnswerFor(r))
    ensures RuntimeTyped(EnvelopeFor(provider, raw), provider, jsonDecode)
    ensures Interpret(EnvelopeFor(provider, raw), provider, jsonDecode) == Success(r)
  {
    EnvelopePaths(provider, raw);
    AnswerReadsBack(r);
  }

  /** The answer for `r` has every key, with the types PHP expects, and builds `r` again. */
  lemma AnswerReadsBack(r: StyleAnalysisResult)
    ensures HasAllKeys(AnswerFor(r)) && FieldsTyped(AnswerFor(r))
    ensures BuildResult(AnswerFor(r)) == r
  {
    assert forall k :: k in RequiredKeys ==> k in KeysOf(AnswerFor(r));
  }

  /** The envelope of the other family never yields the content: the call fails with "content not found". */
  lemma WrongFamilyEnvelope(provider: Provider, raw: string, jsonDecode: string -> Result<Json, string>)
    ensures RuntimeTyped(EnvelopeFor(Other(provider), raw), provider, jsonDecode)
    ensures Interpret(EnvelopeFor(Other(provider), raw), provider, jsonDecode) == Failure(ContentNotFound)
  {
    EnvelopePaths(Other(provider), raw);
    assert Other(Other(provider)) == provider;
  }

  /** `choices` decoded from an object whose key is "0" is read like a list. */
  lemma CloudPathReadsObjectKeyZero(raw: string)
    ensures ContentAt(JObject(map["choices" := JObject(map["0" := JObject(map["message" := JObject(map["content" := JString(raw)])])])]), Cloud)
            == Some(JString(raw))
  {
  }

  /** `choices` decoded as a string: `[0]` takes its first character, which has no `message`. */
  lemma CloudPathStringChoices(choices: string, provider: Provider, jsonDecode: string -> Result<Json, string>)
    ensures ContentAt(JObject(map["choices" := JString(choices)]), Cloud).None?
    ensures Interpret(JObject(map["choices" := JString(choices)]), Cloud, jsonDecode) == Failure(ContentNotFound)
  {
  }

  /** An answer that lacks only occasionAnalysis is rejected naming occasionAnalysis. */
  lemma MissingOccasionAnalysis(r: StyleAnalysisResult, provider: Provider, raw: string, jsonDecode: string -> Result<Json, string>)
    requires jsonDecode(raw) == Success(JObject(AnswerFor(r).fields - {"occasionAnalysis"}))
    ensures RuntimeTyped(EnvelopeFor(provider, raw), provider, jsonDecode)
    ensures Interpret(EnvelopeFor(provider, raw), provider, jsonDecode) == Failure(MissingKey("occasionAnalysis"))
  {
    EnvelopePaths(provider, raw);
    var keys := KeysOf(JObject(AnswerFor(r).fields - {"occasionAnalysis"}));
    assert RequiredKeys[..4] <= RequiredKeys;
    assert "occasionAnalysis" !in keys;
    assert FirstMissing(RequiredKeys, keys) == Some("occasionAnalysis") by {
      assert RequiredKeys[4] == "occasionAnalysis";
      assert forall j :: 0 <= j < 4 ==> RequiredKeys[j] in keys;
    }
  }
}
