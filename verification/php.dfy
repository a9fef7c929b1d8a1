/**
 * The pieces of the PHP runtime that the service relies on: `str_contains`,
 * the `(bool)` cast of a decoded JSON value, and the global functions that
 * do I/O or parsing, which stay abstract.
 */
module Php {
  import opened Wrappers
  import opened Json

  newtype byte = x: int | 0 <= x < 256

  /**
   * The global functions the service calls. Their internals (file and
   * network reads, RFC 4648 base64, RFC 8259 parsing) are not modelled:
   * - fileGetContents: `file_get_contents`, None when it returns false or throws an `\Exception`;
   * - base64Encode: `base64_encode`;
   * - jsonDecode: `json_decode($text, true)` followed by `json_last_error()`,
   *   Failure carrying `json_last_error_msg()` when the text is not JSON.
   */
  datatype Runtime = Runtime(
    fileGetContents: string -> Option<seq<byte>>,
    base64Encode: seq<byte> -> string,
    jsonDecode: string -> Result<Json, string>)

  /** `needle` occurs in `haystack` starting at index `i`. */
  ghost predicate OccursAt(haystack: string, needle: string, i: int)
  {
    0 <= i && i + |needle| <= |haystack| && haystack[i..i + |needle|] == needle
  }

  /** `str_contains($haystack, $needle)`: case-sensitive substring test. */
  function StrContains(haystack: string, needle: string): bool
    decreases |haystack|
  {
    if |needle| > |haystack| then false
    else if haystack[..|needle|] == needle then true
    else StrContains(haystack[1..], needle)
  }

  lemma {:induction false} StrContainsIff(haystack: string, needle: string)
    ensures StrContains(haystack, needle) <==> exists i :: OccursAt(haystack, needle, i)
    decreases |haystack|
  {
    if |needle| > |haystack| {
    } else if haystack[..|needle|] == needle {
      assert OccursAt(haystack, needle, 0);
    } else {
      var tail := haystack[1..];
      StrContainsIff(tail, needle);
      if exists j :: OccursAt(tail, needle, j) {
        var j :| OccursAt(tail, needle, j);
        assert haystack[j + 1..j + 1 + |needle|] == tail[j..j + |needle|];
        assert OccursAt(haystack, needle, j + 1);
      }
      if exists i :: OccursAt(haystack, needle, i) {
        var i :| OccursAt(haystack, needle, i);
        assert i != 0;
        assert tail[i - 1..i - 1 + |needle|] == haystack[i..i + |needle|];
        assert OccursAt(tail, needle, i - 1);
      }
    }
  }

  /** Whatever surrounds it, a string contains each of its middle parts. */
  lemma ContainsMiddle(prefix: string, middle: string, suffix: string)
    ensures StrContains(prefix + middle + suffix, middle)
  {
    var s := prefix + middle + suffix;
    assert s[|prefix|..|prefix| + |middle|] == middle;
    assert OccursAt(s, middle, |prefix|);
    StrContainsIff(s, middle);
  }

  /**
   * `(bool) $value` for a decoded JSON value (an object decodes to an array):
   * false exactly for PHP's falsy values.
   */
  function ToBool(j: Json): (r: bool)
    ensures r <==> !(|| j == JNull || j == JBool(false) || j == JNumber(0.0)
                     || j == JString("") || j == JString("0")
                     || j == JArray([]) || j == JObject(map[]))
  {
    match j
    case JNull => false
    case JBool(b) => b
    case JNumber(n) => n != 0.0
    case JString(s) => s != "" && s != "0"
    case JArray(items) => |items| > 0
    case JObject(fields) => |fields| > 0
  }
}
