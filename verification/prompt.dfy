/**
 * The instruction prompt sent with the images. It is a fixed template: an
 * opening that frames the task, a sentence fixing the answer language, the
 * output rules with one numbered line per required key, and finally the
 * user's style profile, verbatim, between double quotes. The English of the
 * fixed lines is paraphrased; their structure is not.
 */
module Prompt {
  import opened Php
  import opened StyleAnalysis

  const TaskFraming: string :=
    "Fashion assistant: analyse the one product shown in all images. "

  /** The output rules: a JSON object and nothing else, then the heading of the key list. */
  const OutputRules: string := "Answer with a JSON object only.\n" + "It must have five keys:\n"

  /** What each required key holds, in the order of RequiredKeys. */
  const KeyDocs: seq<string> := [
    "(string)",
    "(string)",
    "(boolean)",
    "(string or null; null unless isStyleMatch)",
    "(string)"
  ]

  const ProfileLabel: string := "User's Style Profile: \""

  function LanguageInstruction(language: string): string
  {
    "Write every text value in the language: "
    + language + "."
  }

  function Digit(n: nat): char
    requires n < 10
  {
    ('0' as int + n) as char
  }

  /** `n. "key": doc` followed by a line break. */
  function KeyLine(n: nat, key: string, doc: string): string
    requires n < 10
  {
    [Digit(n)] + ". \"" + key + "\": " + doc + "\n"
  }

  /** The numbered lines for `keys`, numbered from 1. */
  function KeyLines(keys: seq<string>, docs: seq<string>): string
    requires |keys| == |docs| < 10
    decreases |keys|
  {
    if keys == [] then ""
    else KeyLines(keys[..|keys| - 1], docs[..|docs| - 1])
         + KeyLine(|keys|, keys[|keys| - 1], docs[|docs| - 1])
  }

  /** Everything before the profile: it depends on the language only. */
  function Preamble(language: string): string
  {
    TaskFraming + LanguageInstruction(language) + "\n"
    + OutputRules + KeyLines(RequiredKeys, KeyDocs) + "\n"
  }

  /** `buildJsonPrompt($userStyleProfile, $language)`. */
  function BuildJsonPrompt(userStyleProfile: string, language: string): (prompt: string)
    ensures StrContains(prompt, language)
    ensures forall k :: k in RequiredKeys ==> StrContains(prompt, k)
    ensures var tail := ProfileLabel + userStyleProfile + "\"";
            |tail| <= |prompt| && prompt[|prompt| - |tail|..] == tail
  {
    var tail := ProfileLabel + userStyleProfile + "\"";
    var prompt := Preamble(language) + tail;
    PromptMentions(Preamble(language), tail, language);
    assert prompt[|prompt| - |tail|..] == tail;
    prompt
  }

  lemma ContainsExtended(s: string, extra: string, needle: string)
    requires StrContains(s, needle)
    ensures StrContains(s + extra, needle)
  {
    StrContainsIff(s, needle);
    var i :| OccursAt(s, needle, i);
    assert (s + extra)[i..i + |needle|] == s[i..i + |needle|];
    assert OccursAt(s + extra, needle, i);
    StrContainsIff(s + extra, needle);
  }

  lemma {:induction false} KeyLinesNameEveryKey(keys: seq<string>, docs: seq<string>)
    requires |keys| == |docs| < 10
    ensures forall i :: 0 <= i < |keys| ==> StrContains(KeyLines(keys, docs), keys[i])
    decreases |keys|
  {
    if keys != [] {
      var n := |keys|;
      var front := KeyLines(keys[..n - 1], docs[..n - 1]);
      var line := KeyLine(n, keys[n - 1], docs[n - 1]);
      assert KeyLines(keys, docs) == front + line;
      KeyLinesNameEveryKey(keys[..n - 1], docs[..n - 1]);
      forall i | 0 <= i < n
        ensures StrContains(KeyLines(keys, docs), keys[i])
      {
        if i < n - 1 {
          assert keys[..n - 1][i] == keys[i];
          ContainsExtended(front, line, keys[i]);
        } else {
          var before := [Digit(n)] + ". \"";
          var after := "\": " + docs[n - 1] + "\n";
          assert line == before + keys[n - 1] + after;
          ContainsMiddle(front + before, keys[n - 1], after);
          assert front + line == front + before + keys[n - 1] + after;
        }
      }
    }
  }

  /** A string contains whatever one of its middle parts contains. */
  lemma ContainsWithin(before: string, middle: string, after: string, needle: string)
    requires StrContains(middle, needle)
    ensures StrContains(before + middle + after, needle)
  {
    StrContainsIff(middle, needle);
    var i :| OccursAt(middle, needle, i);
    var s := before + middle + after;
    assert s[|before| + i..|before| + i + |needle|] == middle[i..i + |needle|];
    assert OccursAt(s, needle, |before| + i);
    StrContainsIff(s, needle);
  }

  lemma PromptMentions(preamble: string, tail: string, language: string)
    requires preamble == Preamble(language)
    ensures StrContains(preamble + tail, language)
    ensures forall k :: k in RequiredKeys ==> StrContains(preamble + tail, k)
  {
    PreambleMentionsLanguage(language);
    ContainsExtended(preamble, tail, language);
    PreambleMentionsKeys(language);
    forall k | k in RequiredKeys
      ensures StrContains(preamble + tail, k)
    {
      ContainsExtended(preamble, tail, k);
    }
  }

  lemma PreambleMentionsLanguage(language: string)
    ensures StrContains(Preamble(language), language)
  {
    var intro := "Write every text value in the language: ";
    var rest := "." + "\n" + OutputRules + KeyLines(RequiredKeys, KeyDocs) + "\n";
    assert Preamble(language) == TaskFraming + intro + language + rest;
    ContainsMiddle(TaskFraming + intro, language, rest);
  }

  lemma PreambleMentionsKeys(language: string)
    ensures forall k :: k in RequiredKeys ==> StrContains(Preamble(language), k)
  {
    var lines := KeyLines(RequiredKeys, KeyDocs);
    var head := TaskFraming + LanguageInstruction(language) + "\n" + OutputRules;
    assert Preamble(language) == head + lines + "\n";
    KeyLinesNameEveryKey(RequiredKeys, KeyDocs);
    forall k | k in RequiredKeys
      ensures StrContains(Preamble(language), k)
    {
      ContainsWithin(head, lines, "\n", k);
    }
  }

  /** Two profiles give the same prompt (for one language) only if they are equal. */
  lemma PromptDeterminesProfile(p1: string, p2: string, language: string)
    requires BuildJsonPrompt(p1, language) == BuildJsonPrompt(p2, language)
    ensures p1 == p2
  {
    MiddleDetermined(Preamble(language), ProfileLabel, p1, p2, "\"");
  }

  /** The profile is recovered from its position between the fixed prefix and the closing quote. */
  lemma MiddleDetermined(pre: string, lead: string, m1: string, m2: string, post: string)
    requires pre + (lead + m1 + post) == pre + (lead + m2 + post)
    ensures m1 == m2
  {
    var s := pre + (lead + m1 + post);
    var start := |pre| + |lead|;
    assert s[start..|s| - |post|] == m1;
    assert (pre + (lead + m2 + post))[start..|s| - |post|] == m2;
  }
}
