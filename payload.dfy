/**
 * The two request bodies `cartoonize_image` posts: the caption ("CLIP")
 * request and the image-to-image ("SD") generation request, with the prompt
 * built from the caption and the optional extra description.
 *
 * Floating-point values (the strength fraction, the modifier strengths) are
 * left opaque as the type parameter `F`; the weight of the extra description
 * appears only through its text.
 */
module Payload {
  import opened Wrappers

  const ClipMode := "fast"
  const NegativePrompt := "EasyNegative, (ugly:1.2), (worst quality, poor details:1.4), badhandv4, blurry"
  const TextInversions: map<string, string> := map["easynegative" := "EasyNegative", "badhandv4" := "badhandv4"]
  const Scheduler := "DPM++2MKarras"
  /** 6.5 is exactly representable as a binary float, so `real` is exact here. */
  const GuidanceScale: real := 6.5
  const ImagesPerPrompt := 1
  /** The side of the image sent to both services and asked back. */
  const Side := 512
  const ClipSkip := 2

  /** Body of the caption request. */
  datatype ClipRequest = ClipRequest(mode: string, image: string)

  /** Body of the generation request. */
  datatype SdRequest<F> = SdRequest(
    initImage: string,
    prompt: string,
    strength: F,
    negativePrompt: string,
    textInversions: map<string, string>,
    modelName: string,
    scheduler: string,
    guidanceScale: real,
    numImagesPerPrompt: int,
    seed: int,
    width: int,
    height: int,
    numInferenceSteps: int,
    loras: map<string, F>,
    clipSkip: int)

  /** The fields of a generation request that never depend on the input. */
  predicate HasFixedSettings<F>(r: SdRequest<F>)
  {
    && r.negativePrompt == NegativePrompt
    && r.textInversions == TextInversions
    && r.scheduler == Scheduler
    && r.guidanceScale == GuidanceScale
    && r.numImagesPerPrompt == ImagesPerPrompt
    && r.width == Side && r.height == Side
    && r.clipSkip == ClipSkip
  }

  /** The caption request: the fixed fast mode and the base64 text of the image. */
  function CaptionRequest(image64: string): (r: ClipRequest)
    ensures r.mode == ClipMode && r.image == image64
  {
    ClipRequest(ClipMode, image64)
  }

  /** The generation request: the image and the caller's values pass through
      unchanged, and every other field holds its fixed setting. */
  function GenerationRequest<F>(image64: string, prompt: string, strength: F, modelName: string,
                                seed: int, steps: int, loras: map<string, F>): (r: SdRequest<F>)
    ensures HasFixedSettings(r)
    ensures r.initImage == image64 && r.prompt == prompt && r.strength == strength
    ensures r.modelName == modelName && r.seed == seed && r.numInferenceSteps == steps
    ensures r.loras == loras
  {
    SdRequest(image64, prompt, strength, NegativePrompt, TextInversions, modelName, Scheduler,
              GuidanceScale, ImagesPerPrompt, seed, Side, Side, steps, loras, ClipSkip)
  }

  /** `prompt = extra_desc + ", " + clip_reply`. The separator is always
      there, also when the extra text is empty; the prompt starts with the
      extra text and ends with the caption, so both can be read back. */
  function Prompt(extra: string, caption: string): (p: string)
    ensures |p| == |extra| + 2 + |caption|
    ensures p[..|extra|] == extra
    ensures p[|extra|..|extra| + 2] == ", "
    ensures p[|extra| + 2..] == caption
    ensures extra == "" ==> p == ", " + caption
  {
    extra + ", " + caption
  }

  /** The extra description after `if extra_desc: extra_desc = f"({extra_desc}: {w})"`:
      an empty text stays empty, any other is wrapped with the weight's text. */
  function WrapExtra(text: string, weight: string): (r: string)
    ensures r == "" <==> text == ""
    ensures text != "" ==> |r| == |text| + |weight| + 4 && r[0] == '(' && r[|r| - 1] == ')'
  {
    if text != "" then "(" + text + ": " + weight + ")" else text
  }

  /** The last index of ':' in `s`, if any. */
  function LastColon(s: string): (r: Option<nat>)
    ensures r.Some? ==> r.value < |s| && s[r.value] == ':' && ':' !in s[r.value + 1..]
    ensures r.None? ==> ':' !in s
  {
    if |s| == 0 then None
    else if s[|s| - 1] == ':' then Some(|s| - 1)
    else
      var r := LastColon(s[..|s| - 1]);
      assert s == s[..|s| - 1] + [s[|s| - 1]];
      r
  }

  /** Reads a wrapped extra description `(text: weight)` back into its text
      and its weight, splitting at the last colon. */
  function Unwrap(s: string): (r: Option<(string, string)>)
  {
    if |s| < 2 || s[0] != '(' || s[|s| - 1] != ')' then None
    else
      var inner := s[1..|s| - 1];
      match LastColon(inner)
      case None => None
      case Some(i) =>
        if i + 1 < |inner| && inner[i + 1] == ' ' then Some((inner[..i], inner[i + 2..])) else None
  }

  /** Wrapping loses nothing: when the weight's text has no colon (the text
      of a float never has one), the text and the weight can be read back. */
  lemma UnwrapWrap(text: string, weight: string)
    requires text != "" && ':' !in weight
    ensures Unwrap(WrapExtra(text, weight)) == Some((text, weight))
  {
    var s := WrapExtra(text, weight);
    var inner := s[1..|s| - 1];
    assert inner == text + ": " + weight;
    var k := |text|;
    assert inner[k] == ':';
    assert inner[k + 1..] == " " + weight;
    var last := LastColon(inner);
    assert last.Some?;
    assert last.value == k;
    assert inner[..k] == text;
    assert inner[k + 2..] == weight;
  }
}
