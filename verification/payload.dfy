/**
 * The request the service sends: which provider family the endpoint selects,
 * the JSON body built for each family, and the HTTP headers. The functions
 * here are the specification the service's methods are proved against.
 */
module Payload {
  import opened Wrappers
  import opened Json
  import opened Php

  /** The two provider families: a cloud chat-completion API, or a local Ollama server. */
  datatype Provider = Cloud | Ollama

  const OllamaMarker: string := "ollama"
  const JsonMime: string := "application/json"
  const MaxTokens: int := 800
  /** The request timeout, in seconds. */
  const TimeoutSeconds: nat := 180

  /** Dispatch on the endpoint: the family is Ollama exactly when the endpoint names it. */
  function ProviderOf(apiEndpoint: string): (p: Provider)
    ensures p == Ollama <==> exists i :: OccursAt(apiEndpoint, OllamaMarker, i)
  {
    StrContainsIff(apiEndpoint, OllamaMarker);
    if StrContains(apiEndpoint, OllamaMarker) then Ollama else Cloud
  }

  // ----- cloud chat-completion body -----

  function TextPart(prompt: string): Json
  {
    JObject(map["type" := JString("text"), "text" := JString(prompt)])
  }

  function ImagePart(url: string): Json
  {
    JObject(map["type" := JString("image_url"), "image_url" := JObject(map["url" := JString(url)])])
  }

  /** The content list after the text part and the image parts of `urls` were appended in turn. */
  function ContentParts(prompt: string, urls: seq<string>): seq<Json>
    decreases |urls|
  {
    if urls == [] then [TextPart(prompt)]
    else ContentParts(prompt, urls[..|urls| - 1]) + [ImagePart(urls[|urls| - 1])]
  }

  function CloudPayload(model: string, content: seq<Json>): Json
  {
    JObject(map[
      "model" := JString(model),
      "response_format" := JObject(map["type" := JString("json_object")]),
      "messages" := JArray([JObject(map["role" := JString("user"), "content" := JArray(content)])]),
      "max_tokens" := JNumber(MaxTokens as real)])
  }

  // ----- Ollama body -----

  /** The base64 encodings of the images of `urls` that could be read, in the order of `urls`. */
  function EncodedImages(urls: seq<string>, fetch: string -> Option<seq<byte>>, encode: seq<byte> -> string): seq<string>
    decreases |urls|
  {
    if urls == [] then []
    else
      var front := EncodedImages(urls[..|urls| - 1], fetch, encode);
      match fetch(urls[|urls| - 1])
      case None => front
      case Some(data) => front + [encode(data)]
  }

  function OllamaPayload(model: string, prompt: string, images: seq<string>): Json
  {
    JObject(map[
      "model" := JString(model),
      "prompt" := JString(prompt),
      "images" := JArray(JStrings(images)),
      "stream" := JBool(false),
      "format" := JString("json")])
  }

  /** `buildProviderPayload` for a given provider family, model and prompt. */
  function ProviderPayload(provider: Provider, model: string, prompt: string, urls: seq<string>, php: Runtime): Json
  {
    match provider
    case Ollama => OllamaPayload(model, prompt, EncodedImages(urls, php.fileGetContents, php.base64Encode))
    case Cloud => CloudPayload(model, ContentParts(prompt, urls))
  }

  // ----- headers and the request -----

  function RequestHeaders(provider: Provider, apiKey: string): map<string, string>
  {
    var common := map["Accept" := JsonMime, "Content-Type" := JsonMime];
    if provider == Cloud then common["Authorization" := "Bearer " + apiKey] else common
  }

  /** What is handed to the HTTP client's `post`. */
  datatype Request = Request(url: string, headers: map<string, string>, body: Json, timeout: nat)

  // ----- reading a body back -----

  /** The URL an image part refers to, if `part` is one. */
  function ImageUrlOf(part: Json): Option<string>
  {
    match Field(part, "image_url")
    case Some(ref) =>
      (match Field(ref, "url")
       case Some(JString(u)) => Some(u)
       case _ => None)
    case None => None
  }

  /** The URLs of the image parts of `parts`, in order. */
  function ImageUrls(parts: seq<Json>): seq<string>
    decreases |parts|
  {
    if parts == [] then []
    else
      var front := ImageUrls(parts[..|parts| - 1]);
      match ImageUrlOf(parts[|parts| - 1])
      case Some(u) => front + [u]
      case None => front
  }

  /** `$body['messages'][0]['content']` as a list of parts. */
  function MessageContent(body: Json): Option<seq<Json>>
  {
    match Field(body, "messages")
    case Some(JArray(msgs)) =>
      if |msgs| == 1 then
        match Field(msgs[0], "content")
        case Some(JArray(parts)) => Some(parts)
        case _ => None
      else None
    case _ => None
  }

  // ----- properties -----

  /** The content list is the text part followed by one image part per URL, in input order. */
  lemma {:induction false} ContentPartsLayout(prompt: string, urls: seq<string>)
    ensures |ContentParts(prompt, urls)| == 1 + |urls|
    ensures ContentParts(prompt, urls)[0] == TextPart(prompt)
    ensures forall i :: 0 <= i < |urls| ==> ContentParts(prompt, urls)[i + 1] == ImagePart(urls[i])
    decreases |urls|
  {
    if urls != [] {
      var front := urls[..|urls| - 1];
      ContentPartsLayout(prompt, front);
      forall i | 0 <= i < |urls| - 1
        ensures ContentParts(prompt, urls)[i + 1] == ImagePart(urls[i])
      {
        assert front[i] == urls[i];
      }
    }
  }

  lemma {:induction false} ImageUrlsAppend(parts: seq<Json>, more: seq<Json>)
    ensures ImageUrls(parts + more) == ImageUrls(parts) + ImageUrls(more)
    decreases |more|
  {
    if more == [] {
      assert parts + more == parts;
    } else {
      var n := |more|;
      assert (parts + more)[..|parts + more| - 1] == parts + more[..n - 1];
      assert (parts + more)[|parts + more| - 1] == more[n - 1];
      ImageUrlsAppend(parts, more[..n - 1]);
    }
  }

  /** The text part carries no URL; an image part carries its own. */
  lemma PartUrls(prompt: string, url: string)
    ensures ImageUrlOf(TextPart(prompt)) == None
    ensures ImageUrlOf(ImagePart(url)) == Some(url)
  {
  }

  lemma ImageUrlsSingle(part: Json)
    ensures ImageUrls([part]) == if ImageUrlOf(part).Some? then [ImageUrlOf(part).value] else []
  {
    assert [part][..0] == [];
  }

  /**
   * Reading the image URLs back out of the content list gives exactly the
   * input list: every URL is sent once, in input order, and nothing else is.
   */
  lemma {:induction false} ContentPartsCarryEveryUrl(prompt: string, urls: seq<string>)
    ensures ImageUrls(ContentParts(prompt, urls)) == urls
    decreases |urls|
  {
    if urls == [] {
      PartUrls(prompt, "");
      ImageUrlsSingle(TextPart(prompt));
    } else {
      var front := urls[..|urls| - 1];
      var last := urls[|urls| - 1];
      ContentPartsCarryEveryUrl(prompt, front);
      ImageUrlsAppend(ContentParts(prompt, front), [ImagePart(last)]);
      PartUrls(prompt, last);
      ImageUrlsSingle(ImagePart(last));
      assert front + [last] == urls;
    }
  }

  /** The cloud body: fixed fields, one user message, and the given content list. */
  lemma CloudPayloadShape(model: string, content: seq<Json>)
    ensures var body := CloudPayload(model, content);
            && body.fields.Keys == {"model", "response_format", "messages", "max_tokens"}
            && Field(body, "model") == Some(JString(model))
            && Field(body, "response_format") == Some(JObject(map["type" := JString("json_object")]))
            && Field(body, "max_tokens") == Some(JNumber(800.0))
            && MessageContent(body) == Some(content)
            && Field(body.fields["messages"].items[0], "role") == Some(JString("user"))
  {
  }

  lemma {:induction false} EncodedImagesAppend(urls: seq<string>, more: seq<string>, fetch: string -> Option<seq<byte>>, encode: seq<byte> -> string)
    ensures EncodedImages(urls + more, fetch, encode) == EncodedImages(urls, fetch, encode) + EncodedImages(more, fetch, encode)
    decreases |more|
  {
    if more == [] {
      assert urls + more == urls;
    } else {
      var n := |more|;
      assert (urls + more)[..|urls + more| - 1] == urls + more[..n - 1];
      assert (urls + more)[|urls + more| - 1] == more[n - 1];
      EncodedImagesAppend(urls, more[..n - 1], fetch, encode);
    }
  }

  /** Skipping failed reads can only shorten the list; the list may be empty. */
  lemma {:induction false} EncodedImagesBound(urls: seq<string>, fetch: string -> Option<seq<byte>>, encode: seq<byte> -> string)
    ensures |EncodedImages(urls, fetch, encode)| <= |urls|
    ensures (forall i :: 0 <= i < |urls| ==> fetch(urls[i]).None?) ==> EncodedImages(urls, fetch, encode) == []
    decreases |urls|
  {
    if urls != [] {
      var front := urls[..|urls| - 1];
      EncodedImagesBound(front, fetch, encode);
      if forall i :: 0 <= i < |urls| ==> fetch(urls[i]).None? {
        assert forall i :: 0 <= i < |front| ==> front[i] == urls[i];
        assert fetch(urls[|urls| - 1]).None?;
      }
    }
  }

  /** When every read succeeds, image i is the encoding of what URL i returned. */
  lemma {:induction false} EncodedImagesAllRead(urls: seq<string>, fetch: string -> Option<seq<byte>>, encode: seq<byte> -> string)
    requires forall i :: 0 <= i < |urls| ==> fetch(urls[i]).Some?
    ensures |EncodedImages(urls, fetch, encode)| == |urls|
    ensures forall i :: 0 <= i < |urls| ==> EncodedImages(urls, fetch, encode)[i] == encode(fetch(urls[i]).value)
    decreases |urls|
  {
    if urls != [] {
      var front := urls[..|urls| - 1];
      assert forall i :: 0 <= i < |front| ==> front[i] == urls[i];
      EncodedImagesAllRead(front, fetch, encode);
      assert fetch(urls[|urls| - 1]).Some?;
    }
  }

  /** An image is sent exactly when it is the encoding of some URL that could be read. */
  lemma {:induction false} EncodedImagesMembers(urls: seq<string>, fetch: string -> Option<seq<byte>>, encode: seq<byte> -> string, image: string)
    ensures image in EncodedImages(urls, fetch, encode) <==>
            exists i :: 0 <= i < |urls| && fetch(urls[i]).Some? && encode(fetch(urls[i]).value) == image
    decreases |urls|
  {
    if urls != [] {
      var n := |urls|;
      var front := urls[..n - 1];
      EncodedImagesMembers(front, fetch, encode, image);
      assert forall i :: 0 <= i < n - 1 ==> front[i] == urls[i];
      if exists i :: 0 <= i < n && fetch(urls[i]).Some? && encode(fetch(urls[i]).value) == image {
        var i :| 0 <= i < n && fetch(urls[i]).Some? && encode(fetch(urls[i]).value) == image;
        if i < n - 1 {
          assert fetch(front[i]).Some? && encode(fetch(front[i]).value) == image;
        }
      }
    }
  }

  /** The Ollama body: the model, the prompt, the images, no streaming, JSON output. */
  lemma OllamaPayloadShape(model: string, prompt: string, images: seq<string>)
    ensures var body := OllamaPayload(model, prompt, images);
            && body.fields.Keys == {"model", "prompt", "images", "stream", "format"}
            && Field(body, "model") == Some(JString(model))
            && Field(body, "prompt") == Some(JString(prompt))
            && Field(body, "images") == Some(JArray(JStrings(images)))
            && Field(body, "stream") == Some(JBool(false))
            && Field(body, "format") == Some(JString("json"))
  {
  }

  /**
   * Both families send the JSON content type and accept JSON back; only the
   * cloud family sends the API key, as a bearer token.
   */
  lemma RequestHeadersShape(provider: Provider, apiKey: string)
    ensures var h := RequestHeaders(provider, apiKey);
            && "Accept" in h && h["Accept"] == JsonMime
            && "Content-Type" in h && h["Content-Type"] == JsonMime
            && ("Authorization" in h <==> provider == Cloud)
            && (provider == Cloud ==> h["Authorization"] == "Bearer " + apiKey)
            && h.Keys <= {"Accept", "Content-Type", "Authorization"}
  {
  }

  /**
   * One provider value decides both the body and the headers: the body is the
   * Ollama shape exactly when no Authorization header is sent.
   */
  lemma DispatchAgrees(apiEndpoint: string, apiKey: string, model: string, prompt: string, urls: seq<string>, php: Runtime)
    ensures var p := ProviderOf(apiEndpoint);
            var body := ProviderPayload(p, model, prompt, urls, php);
            && ("images" in body.fields <==> p == Ollama)
            && ("messages" in body.fields <==> p == Cloud)
            && ("Authorization" in RequestHeaders(p, apiKey) <==> p == Cloud)
  {
  }
}
