# image-stylist, modelled in Dafny

A model of `ImageStylistService`, the one service of the PHP library
image-stylist. The service sends product images and a user's style profile
to a multimodal language model. Then it turns the model's JSON answer into a
`StyleAnalysisResult` record. The model covers the following:

- the guard that rejects an empty image list before any I/O;
- the choice between the two provider families. An endpoint that contains
  `"ollama"` is a local Ollama server; any other endpoint is a cloud
  chat-completion API;
- the request body for each family, and the HTTP headers;
- the prompt template;
- the two-stage interpretation of the reply. The envelope is decoded, the
  content string is taken from the family's own path, and that string is
  decoded again. The five required keys are checked in order, and the
  record is built from them.

Files:

| file | contents |
|---|---|
| `wrappers.dfy` | `Option` and `Result` |
| `json.dfy` | decoded JSON values as PHP's `json_decode($text, true)` hands them over; `$j[name]` and `$j[0]` lookups |
| `php.dfy` | `str_contains`, the `(bool)` cast, and the abstract runtime functions (`file_get_contents`, `base64_encode`, `json_decode`) |
| `style_analysis_result.dfy` | the result record and the five required keys |
| `prompt.dfy` | `buildJsonPrompt` |
| `payload.dfy` | provider dispatch, the body of each family, the headers: the specification functions of the request |
| `response.dfy` | the error outcomes and their exception messages, and the interpretation of a reply as a specification function |
| `image_stylist_service.dfy` | the class `ImageStylistService`, with the imperative methods proved against the functions above |

The class keeps its configuration (`apiKey`, `apiEndpoint`, `model`, the
HTTP client) in `const` fields, because the PHP object assigns them only in
its constructor. The HTTP client is a function value from a request to a
response body or an error message. `getStyleAnalysis` returns its result
together with a log of the effects it performs: one read per image for
Ollama, then exactly one post. That log is how "an empty list causes no
I/O" is stated.

An error is a value of `Response.Error`. `Response.ExceptionClass` and
`Response.Message` give the PHP exception class and the exact message for
each error.

## Model

| member | source | states |
|---|---|---|
| ImageStylist.ImageStylistService.constructor | src/ImageStylistService.php:17-23 | the service keeps the API key, endpoint, model and HTTP client it is given |
| ImageStylist.ImageStylistService.GetStyleAnalysis | src/ImageStylistService.php:25-88 | an empty image list fails with the invalid-argument error and performs no I/O; otherwise the reads of the payload build come first, then exactly one post of the request built from the payload, headers, endpoint and 180-second timeout; a transport failure becomes the connection error carrying its message, and any other reply is interpreted as `Response.Interpret` says |
| ImageStylist.ImageStylistService.BuildHeaders | src/ImageStylistService.php:34-43 | the header map is `Payload.RequestHeaders` for the provider the endpoint selects |
| ImageStylist.ImageStylistService.InterpretReply | src/ImageStylistService.php:51-83 | the method's steps give the same outcome as the specification `Response.Interpret` of the decoded body |
| ImageStylist.ImageStylistService.BuildProviderPayload | src/ImageStylistService.php:90-131 | both loops build exactly `Payload.ProviderPayload` for the selected provider, and `fetched` lists every URL read: all of them, in order, for Ollama, and none for the cloud API |
| ImageStylist.ImageStylistService.CheckRequiredKeys | src/ImageStylistService.php:70-75 | the early-exit loop reports exactly the first required key absent from the decoded answer, or none |
| Php.StrContainsIff | src/ImageStylistService.php:34 | `str_contains` is true exactly when the needle occurs at some index of the haystack |
| Php.ToBool | src/ImageStylistService.php:80 | PHP's `(bool)` cast is false exactly for the falsy values: null, false, 0, the empty string, "0", the empty list and the empty object |
| Payload.ProviderOf | src/ImageStylistService.php:94 | the provider is Ollama exactly when "ollama" occurs in the endpoint |
| Payload.DispatchAgrees | src/ImageStylistService.php:94-130 | one provider value decides both the body and the headers: the body has `images` exactly for Ollama, has `messages` exactly for the cloud API, and `Authorization` is sent exactly for the cloud API |
| Payload.RequestHeadersShape | src/ImageStylistService.php:36-43 | `Accept` and `Content-Type` are always `application/json`; `Authorization` is present exactly for the cloud family and is then `Bearer ` plus the key; there are no other headers |
| Payload.ContentPartsLayout | src/ImageStylistService.php:115-118 | the content list has one more element than there are URLs; element 0 is the text part holding the prompt; element i+1 is the image part for URL i |
| Payload.ContentPartsCarryEveryUrl | src/ImageStylistService.php:115-118 | reading the image URLs back out of the content list gives exactly the input list, so every URL appears once, in input order |
| Payload.CloudPayloadShape | src/ImageStylistService.php:120-130 | the cloud body has exactly the keys model, response_format ({type: json_object}), messages and max_tokens (800); it holds one message, with role user, whose content is the given list |
| Payload.EncodedImagesBound | src/ImageStylistService.php:95-104 | no more images than URLs are sent; when every read fails, the list is empty and the build still completes |
| Payload.EncodedImagesAllRead | src/ImageStylistService.php:96-100 | when every read succeeds, image i is the encoding of what URL i returned |
| Payload.EncodedImagesMembers | src/ImageStylistService.php:96-104 | an image is sent exactly when it is the encoding of some URL whose read succeeded |
| Payload.EncodedImagesAppend | src/ImageStylistService.php:96-104 | encoding distributes over concatenation of URL lists, so images keep the order of their URLs |
| Payload.OllamaPayloadShape | src/ImageStylistService.php:106-112 | the Ollama body has exactly the keys model, prompt, images, stream (false) and format ("json"), holding the given values |
| Prompt.BuildJsonPrompt | src/ImageStylistService.php:133-148 | the prompt mentions the language code and every required key, and ends with `User's Style Profile: "`, the profile verbatim, and a closing quote |
| Prompt.KeyLinesNameEveryKey | src/ImageStylistService.php:140-144 | the numbered key lines name every key they document |
| Prompt.PromptDeterminesProfile | src/ImageStylistService.php:145 | for one language, different profiles give different prompts: the profile is carried whole |
| Response.ContentAt | src/ImageStylistService.php:56-59 | `isset` on the path: for Ollama the content is found exactly when the envelope is an object whose `message` is an object holding a non-null `content`, and it is that value; for the cloud API, `choices` must be a non-empty list or an object with key "0", whose element is an object with a `message` object holding a non-null `content` |
| Response.FirstMissing | src/ImageStylistService.php:70-75 | no key is reported exactly when all are present; a reported key is absent, and every key before it is present |
| Response.EnvelopePaths | src/ImageStylistService.php:56-59 | each family's envelope yields its content on that family's own path and nothing on the other family's path |
| Response.OnlySelectedPathMatters | src/ImageStylistService.php:53-83 | two envelopes with the same content on the selected path are interpreted alike |
| Response.ContentNotFoundExactly | src/ImageStylistService.php:56-61 | the content-not-found error happens exactly when the selected path is absent or ends in null |
| Response.WrongFamilyEnvelope | src/ImageStylistService.php:56-61 | an envelope in the other family's shape fails with content not found: the other path is never tried |
| Response.CloudPathReadsObjectKeyZero | src/ImageStylistService.php:58 | `choices` decoded as an object with key "0" is read like a list |
| Response.CloudPathStringChoices | src/ImageStylistService.php:58 | `choices` decoded as a string is never a path to the content: `[0]` yields a character, which has no `message`, so the call fails with content not found |
| Response.UndecodableContent | src/ImageStylistService.php:64-68 | a content string that does not decode gives an `UnexpectedValueException` holding the decoder's reason, and its message contains the raw string |
| Response.MissingKeyReported | src/ImageStylistService.php:70-75 | an answer that lacks a required key fails on the first such key in the fixed order, and the message names that key |
| Response.MissingOccasionAnalysis | src/ImageStylistService.php:70-75 | an answer that lacks only occasionAnalysis fails naming occasionAnalysis |
| Response.SuccessExactly | src/ImageStylistService.php:77-83 | a call succeeds exactly when the content is found, decodes, and has all five keys (a null value counts as present); the record's fields are then the decoded values, with only isStyleMatch cast to bool |
| Response.AnswerReadsBack | src/StyleAnalysisResult.php:18-24 | the JSON answer describing a record has all five keys with the types the record's properties demand, and builds that record again |
| Response.RoundTrip | src/ImageStylistService.php:53-83 | wrapping the JSON text of any record in either family's envelope and interpreting it gives that record back, a null outfitSuggestion included |

## Left out

- The HTTP transport (Guzzle's `post`, the body stream, the exception wrapping) is a function value. Its request carries the 180-second timeout as data only.
- `file_get_contents`, `base64_encode` and `json_decode` are abstract function values. Reading a file or URL, RFC 4648 encoding and RFC 8259 parsing are not modelled.
- A decoded JSON object is a map, so the order of its keys is not modelled. Numbers are real numbers, so integer and float are not told apart.
- The English prose of the prompt's fixed lines is paraphrased and shortened. The structure is kept: the task framing, then the language sentence, then the output rules, then five numbered key lines, then a blank line and the quoted profile.
- ImageStylist.ImageStylistService.GetStyleAnalysis: requires that the reply stays within what PHP handles without a `TypeError`. That means the content is a string, it decodes to an array, and the five fields have the types of the record's properties. A `TypeError` and PHP's silent string coercions are runtime behaviour, not outcomes the service promises.
- ImageStylist.ImageStylistService.BuildProviderPayload: a read that throws an `\Error` rather than an `\Exception` (PHP's `ValueError` for an empty path or a path containing a NUL byte) is not caught by the loop. The call then aborts before the post. The model has no aborting read: a read either yields bytes or is skipped, so `GetStyleAnalysis` always posts for a non-empty list.
- The default HTTP client that the constructor creates when none is given is not modelled: the model always receives one.
- example.php is not part of this model. It is a demo script: environment loading and console output.
- The reply body is decoded without an error check. A body that is not JSON therefore gives PHP's null, and the call fails with "content not found". No separate malformed-envelope error exists; the model follows the code here.
