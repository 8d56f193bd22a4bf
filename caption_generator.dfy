/** src/utils/caption-generator.js: a caption for a reel, asked of the
    Gemini model with one of five prompts picked at random, trimmed and cut
    to 300 code units; any Error, and a missing key, give the configured
    default caption instead. The configured key and caption, the random
    number and the model's answer are inputs. */
module CaptionGenerator {
  import opened Common
  import opened Text
  import opened Unicode

  const MAX_CAPTION_LENGTH: nat := 300
  const KEPT_LENGTH: nat := 297
  /** "...", as code units. */
  const ELLIPSIS: seq<CodeUnit> := [0x2E, 0x2E, 0x2E]

  /** The five prompt templates. */
  const CAPTION_PROMPTS: seq<string> := [
    "Generate a catchy, engaging caption for an anime edit video suitable for Instagram Reels and TikTok. Keep it under 150 characters. Include relevant emojis and hashtags.",
    "Create a trendy caption for an anime edit that would go viral on social media. Make it witty and engaging. Under 150 characters with emojis.",
    "Write a cool caption for an anime compilation video. Should be short, punchy, and include relevant anime hashtags. Maximum 150 characters.",
    "Generate a caption for an anime reel that catches attention. Include trending anime references and emojis. Under 150 characters.",
    "Create an engaging caption for an anime video edit. Make it mysterious or exciting to hook viewers. Keep it under 150 characters with hashtags."
  ]

  /** `Math.floor(Math.random() * captionPrompts.length)`, with the random
      number in [0, 1) taken as an exact real. */
  function PromptIndex(random: real): (i: int)
    requires 0.0 <= random < 1.0
    ensures 0 <= i < |CAPTION_PROMPTS|
    ensures i as real <= random * |CAPTION_PROMPTS| as real < i as real + 1.0
  {
    (random * |CAPTION_PROMPTS| as real).Floor
  }

  /** The length limit, in the UTF-16 code units that `length` and
      `substring` count: a caption of more than 300 units keeps its first
      297 and gains "...". The cut may fall between the two units of a
      surrogate pair. */
  function Truncate(caption: seq<CodeUnit>): (r: seq<CodeUnit>)
    ensures |caption| <= MAX_CAPTION_LENGTH ==> r == caption
    ensures |caption| > MAX_CAPTION_LENGTH ==>
      && |r| == MAX_CAPTION_LENGTH
      && r[..KEPT_LENGTH] == caption[..KEPT_LENGTH]
      && r[KEPT_LENGTH..] == ELLIPSIS
  {
    if |caption| > MAX_CAPTION_LENGTH then caption[..KEPT_LENGTH] + ELLIPSIS else caption
  }

  /** A truncated caption is never longer than 300 code units. */
  lemma TruncateBounded(caption: seq<CodeUnit>)
    ensures |Truncate(caption)| <= MAX_CAPTION_LENGTH
  {
  }

  /** Cutting is idempotent: a caption that went through the limit is left
      alone by it. */
  lemma TruncateIdempotent(caption: seq<CodeUnit>)
    ensures Truncate(Truncate(caption)) == Truncate(caption)
  {
  }

  /** Trimming leaves a reply of scalars above U+FFFF alone: none is
      white space. */
  lemma {:induction false} AstralUntrimmed(text: string)
    requires forall i :: 0 <= i < |text| ==> text[i] as int >= 0x1_0000
    ensures Trim(text) == text
  {
    assert NoSpace(text);
    TrimNoSpace(text);
  }

  /** What cutting a reply of more than 150 emoji gives: 300 units, the
      297th a lone leading surrogate, then "...". */
  predicate CutMidPair(r: seq<CodeUnit>)
  {
    |r| == MAX_CAPTION_LENGTH && IsHighSurrogate(r[KEPT_LENGTH - 1]) && r[KEPT_LENGTH..] == ELLIPSIS
  }

  /** The code units of more than 150 scalars above U+FFFF are cut, and
      the kept part ends in a lone leading surrogate. */
  lemma {:induction false} AstralUnitsCut(text: string)
    requires forall i :: 0 <= i < |text| ==> text[i] as int >= 0x1_0000
    requires 150 < |text|
    ensures CutMidPair(Truncate(Utf16(text)))
  {
    var us := Utf16(text);
    assert |us| > MAX_CAPTION_LENGTH && IsHighSurrogate(us[KEPT_LENGTH - 1]) by {
      Utf16Astral(text);
      assert (KEPT_LENGTH - 1) % 2 == 0;
    }
    CutAfterLeadingSurrogate(us);
  }

  /** A reply of more than 150 emoji (or other scalars above U+FFFF) is cut
      even when it has at most 300 of them, and what is kept ends in a lone
      leading surrogate: 148 whole pairs and half of the 149th. */
  lemma {:induction false} AstralReplyCut(text: string)
    requires forall i :: 0 <= i < |text| ==> text[i] as int >= 0x1_0000
    requires 150 < |text|
    ensures CutMidPair(Truncate(Utf16(Trim(text))))
  {
    AstralUnitsCut(text);
    AstralUntrimmed(text);
  }

  /** Cutting units whose 297th is a leading surrogate keeps it unpaired. */
  lemma CutAfterLeadingSurrogate(us: seq<CodeUnit>)
    requires |us| > MAX_CAPTION_LENGTH && IsHighSurrogate(us[KEPT_LENGTH - 1])
    ensures IsHighSurrogate(Truncate(us)[KEPT_LENGTH - 1])
  {
    assert Truncate(us)[KEPT_LENGTH - 1] == us[..KEPT_LENGTH][KEPT_LENGTH - 1];
  }

  /** What the model's request produced: its `response.text`, or the Error
      it threw. */
  type ModelAnswer = Result<string>

  /** One run of generateCaption: the caption returned, as the code units
      of the JavaScript string, and the prompt the model was asked with, if
      it was asked. */
  datatype Generated = Generated(caption: seq<CodeUnit>, prompt: Option<string>)

  /** generateCaption. */
  function GenerateCaption(apiKey: string, configuredCaption: string, random: real, answer: ModelAnswer): (g: Generated)
    requires 0.0 <= random < 1.0
    // without a key the default caption is returned and the model is not asked
    ensures apiKey == "" ==> g == Generated(Utf16(configuredCaption), None)
    // with a key the model is asked with one of the five prompts
    ensures apiKey != "" ==> g.prompt.Some? && g.prompt.value in CAPTION_PROMPTS
    // a failed request falls back to the default caption
    ensures apiKey != "" && answer.Err? ==> g.caption == Utf16(configuredCaption)
    // a reply becomes its trimmed text, cut to the limit
    ensures apiKey != "" && answer.Ok? ==> g.caption == Truncate(Utf16(Trim(answer.value)))
  {
    if apiKey == "" then Generated(Utf16(configuredCaption), None)
    else
      var prompt := CAPTION_PROMPTS[PromptIndex(random)];
      match answer
      case Err(_) => Generated(Utf16(configuredCaption), Some(prompt))
      case Ok(text) => Generated(Truncate(Utf16(Trim(text))), Some(prompt))
  }

  /** A generated caption (one the model answered) is at most 300 code
      units and, when it was cut, ends in "..."; when it fits, it is the
      code units of the reply's trimmed text, which neither starts nor ends
      with white space. A reply of at most 300 scalars can still be cut. */
  lemma GeneratedCaptionShape(apiKey: string, configuredCaption: string, random: real, text: string)
    requires apiKey != "" && 0.0 <= random < 1.0
    ensures var c := GenerateCaption(apiKey, configuredCaption, random, Ok(text)).caption;
      var t := Trim(text);
      && |c| <= MAX_CAPTION_LENGTH
      && (|Utf16(t)| > MAX_CAPTION_LENGTH ==> c[|c| - 3..] == ELLIPSIS)
      && (|Utf16(t)| <= MAX_CAPTION_LENGTH ==> c == Utf16(t) && (t == [] || (!IsSpace(t[0]) && !IsSpace(t[|t| - 1]))))
  {
    var c := GenerateCaption(apiKey, configuredCaption, random, Ok(text)).caption;
    var t := Trim(text);
    assert c == Truncate(Utf16(t));
    if |Utf16(t)| > MAX_CAPTION_LENGTH {
      assert c[|c| - 3..] == c[KEPT_LENGTH..];
    }
  }
}
