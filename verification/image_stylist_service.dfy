/**
 * The service object: its configuration is fixed at construction, and one
 * call to GetStyleAnalysis checks the input, builds the provider payload and
 * headers, posts once, and interprets the reply.
 */
module ImageStylist {
  import opened Wrappers
  import opened Json
  import opened Php
  import opened StyleAnalysis
  import opened Prompt
  import opened Payload
  import opened Response

  /**
   * The HTTP client's `post`: the response body, or the message of the
   * GuzzleException it throws (connection failures, timeouts, non-2xx replies).
   */
  type Transport = Request -> Result<string, string>

  /** The outside effects of one call, in the order they happen. */
  datatype IoEvent = Fetch(url: string) | Post(request: Request)

  function FetchEvents(urls: seq<string>): seq<IoEvent>
  {
    seq(|urls|, i requires 0 <= i < |urls| => Fetch(urls[i]))
  }

  class ImageStylistService {
    const apiKey: string
    const apiEndpoint: string
    const model: string
    const httpClient: Transport
    /** The PHP global functions the service calls (file reads, base64, JSON decoding). */
    const php: Runtime

    constructor (apiKey: string, apiEndpoint: string, model: string, httpClient: Transport, php: Runtime)
      ensures this.apiKey == apiKey && this.apiEndpoint == apiEndpoint && this.model == model
      ensures this.httpClient == httpClient && this.php == php
    {
      this.apiKey := apiKey;
      this.apiEndpoint := apiEndpoint;
      this.model := model;
      this.httpClient := httpClient;
      this.php := php;
    }

    /** The one request a call with a non-empty image list sends. */
    function RequestFor(imageUrls: seq<string>, userStyleProfile: string, language: string): Request
    {
      var provider := ProviderOf(apiEndpoint);
      Request(
        apiEndpoint,
        RequestHeaders(provider, apiKey),
        ProviderPayload(provider, model, BuildJsonPrompt(userStyleProfile, language), imageUrls, php),
        TimeoutSeconds)
    }

    /** The image reads payload construction performs: one per URL for Ollama, none for the cloud API. */
    function FetchesFor(imageUrls: seq<string>): seq<IoEvent>
    {
      FetchEvents(if ProviderOf(apiEndpoint) == Ollama then imageUrls else [])
    }

    /** The reply stays within what PHP handles without a TypeError. */
    predicate ReplyTyped(reply: Result<string, string>)
    {
      reply.Success? ==>
        RuntimeTyped(DecodeEnvelope(reply.value, php.jsonDecode), ProviderOf(apiEndpoint), php.jsonDecode)
    }

    /** What a call makes of the transport's reply. */
    function Outcome(reply: Result<string, string>): Result<StyleAnalysisResult, Error>
      requires ReplyTyped(reply)
    {
      match reply
      case Failure(cause) => Failure(TransportFailed(cause))
      case Success(body) => Interpret(DecodeEnvelope(body, php.jsonDecode), ProviderOf(apiEndpoint), php.jsonDecode)
    }

    /**
     * `getStyleAnalysis`. An empty image list fails before any I/O; otherwise
     * the payload is built (reading images for Ollama), exactly one request is
     * posted, and the result is the interpretation of its reply.
     */
    method GetStyleAnalysis(imageUrls: seq<string>, userStyleProfile: string, language: string := "en")
      returns (r: Result<StyleAnalysisResult, Error>, io: seq<IoEvent>)
      requires imageUrls != [] ==> ReplyTyped(httpClient(RequestFor(imageUrls, userStyleProfile, language)))
      ensures imageUrls == [] ==> r == Failure(EmptyImageList) && io == []
      ensures imageUrls != [] ==>
                var request := RequestFor(imageUrls, userStyleProfile, language);
                && io == FetchesFor(imageUrls) + [Post(request)]
                && r == Outcome(httpClient(request))
    {
      if |imageUrls| == 0 {
        return Failure(EmptyImageList), [];
      }

      var payload, fetched := BuildProviderPayload(imageUrls, userStyleProfile, language);
      io := FetchEvents(fetched);
      var headers := BuildHeaders();
      var request := Request(apiEndpoint, headers, payload, TimeoutSeconds);
      var reply := httpClient(request);
      io := io + [Post(request)];
      assert io == FetchesFor(imageUrls) + [Post(RequestFor(imageUrls, userStyleProfile, language))];
      assert reply == httpClient(RequestFor(imageUrls, userStyleProfile, language));
      if reply.Failure? {
        r := Failure(TransportFailed(reply.error));
      } else {
        r := InterpretReply(reply.value);
      }
    }

    /**
     * The headers of `getStyleAnalysis`: JSON in both directions, plus the
     * API key as a bearer token unless the endpoint is an Ollama server.
     */
    method BuildHeaders() returns (headers: map<string, string>)
      ensures headers == RequestHeaders(ProviderOf(apiEndpoint), apiKey)
    {
      var isOllama := StrContains(apiEndpoint, OllamaMarker);
      headers := map["Accept" := JsonMime, "Content-Type" := JsonMime];
      if !isOllama {
        headers := headers["Authorization" := "Bearer " + apiKey];
      }
    }

    /**
     * The part of `getStyleAnalysis` after the post: decode the body, take the
     * content string from the family's own path, decode it, check the five
     * keys in order, and build the result.
     */
    method InterpretReply(responseBody: string) returns (r: Result<StyleAnalysisResult, Error>)
      requires ReplyTyped(Success(responseBody))
      ensures r == Outcome(Success(responseBody))
    {
      var isOllama := StrContains(apiEndpoint, OllamaMarker);
      var rawDecodedJson := DecodeEnvelope(responseBody, php.jsonDecode);
      var content := ContentAt(rawDecodedJson, if isOllama then Ollama else Cloud);
      if content.None? {
        return Failure(ContentNotFound);
      }

      var jsonString := content.value.s;
      var finalData := php.jsonDecode(jsonString);
      if finalData.Failure? {
        return Failure(NestedDecodeFailed(finalData.error, jsonString));
      }

      var missing := CheckRequiredKeys(finalData.value);
      if missing.Some? {
        return Failure(MissingKey(missing.value));
      }
      r := Success(BuildResult(finalData.value));
    }

    /**
     * `buildProviderPayload`: for Ollama, the readable images are encoded in
     * order and unreadable ones skipped; for the cloud API, one image part per
     * URL follows the text part. `fetched` lists the URLs read.
     */
    method BuildProviderPayload(imageUrls: seq<string>, userStyleProfile: string, language: string)
      returns (payload: Json, fetched: seq<string>)
      ensures payload == ProviderPayload(ProviderOf(apiEndpoint), model, BuildJsonPrompt(userStyleProfile, language), imageUrls, php)
      ensures fetched == if ProviderOf(apiEndpoint) == Ollama then imageUrls else []
    {
      var prompt := BuildJsonPrompt(userStyleProfile, language);

      if StrContains(apiEndpoint, OllamaMarker) {
        var base64Images: seq<string> := [];
        fetched := [];
        for i := 0 to |imageUrls|
          invariant fetched == imageUrls[..i]
          invariant base64Images == EncodedImages(imageUrls[..i], php.fileGetContents, php.base64Encode)
        {
          var url := imageUrls[i];
          assert imageUrls[..i + 1][..i] == imageUrls[..i];
          var imageData := php.fileGetContents(url);
          fetched := fetched + [url];
          if imageData.None? {
            continue;
          }
          base64Images := base64Images + [php.base64Encode(imageData.value)];
        }
        assert imageUrls[..|imageUrls|] == imageUrls;
        return OllamaPayload(model, prompt, base64Images), fetched;
      }

      var contentPayload := [TextPart(prompt)];
      for i := 0 to |imageUrls|
        invariant contentPayload == ContentParts(prompt, imageUrls[..i])
      {
        assert imageUrls[..i + 1][..i] == imageUrls[..i];
        contentPayload := contentPayload + [ImagePart(imageUrls[i])];
      }
      assert imageUrls[..|imageUrls|] == imageUrls;
      return CloudPayload(model, contentPayload), [];
    }

    /** The key check of `getStyleAnalysis`: the first required key the decoded answer lacks. */
    method CheckRequiredKeys(finalData: Json) returns (missing: Option<string>)
      ensures missing == FirstMissing(RequiredKeys, KeysOf(finalData))
    {
      for i := 0 to |RequiredKeys|
        invariant FirstMissing(RequiredKeys[i..], KeysOf(finalData)) == FirstMissing(RequiredKeys, KeysOf(finalData))
      {
        var key := RequiredKeys[i];
        FirstMissingFrom(RequiredKeys, i, KeysOf(finalData));
        if key !in KeysOf(finalData) {
          return Some(key);
        }
      }
      assert RequiredKeys[|RequiredKeys|..] == [];
      return None;
    }
  }
}
