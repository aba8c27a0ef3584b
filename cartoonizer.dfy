/**
 * `cartoonize_image` and the page script around it: normalise the upload to
 * a 512 x 512 square, post the caption request, build the prompt from the
 * caption, and build the generation request.
 *
 * PNG and base64 encoding (`encode`), the caption service together with the
 * parsing of its reply (`caption`) and the floating-point `float(strength)/10`
 * (`tenth`) are parameters; `None` from `caption` stands for every way the
 * call or the parsing of its reply fails.
 */
module Cartoonizer {
  import opened Wrappers
  import opened Geometry
  import opened Orientation
  import opened Payload
  import opened Modifiers

  /** What `Image.open` made of the uploaded file: nothing readable, or an
      image together with its Orientation tag (`None` if it cannot be read). */
  datatype Upload = Undecodable | Decoded(image: Image, orientation: Option<int>)

  /** The errors that end the run. */
  datatype Fault = UnreadableImage | CaptionUnavailable

  /** The arguments of `cartoonize_image`; `strength` is the slider's value. */
  datatype Params<F> = Params(modelName: string, strength: F, seed: int, loras: map<string, F>,
                              steps: int, extraDesc: string)

  /** What one run shows and sends: the normalised image, the caption
      request, the caption received and the generation request. */
  datatype Sent<F> = Sent(shown: Image, clip: ClipRequest, caption: string, sd: SdRequest<F>)

  /** The image sent onward: upright, cropped to its largest centred square,
      resized to `Side` x `Side`. */
  function Normalized(img: Image, orientation: Option<int>): (r: Image)
    ensures r.width == Side && r.height == Side
  {
    Resize(CropMaxSquare(Upright(img, orientation)), Side, Side)
  }

  /** The square cut out before resizing has the shorter side of the upload,
      whatever the orientation; and the history ends with exactly that crop
      and the resize. */
  lemma NormalizedSquare(img: Image, orientation: Option<int>)
    ensures var up := Upright(img, orientation);
      && CropMaxSquare(up).width == CropMaxSquare(up).height == Min(img.width, img.height)
      && Normalized(img, orientation).history ==
         up.history + [Cropped(CenterBox(up.width, up.height, Min(img.width, img.height), Min(img.width, img.height))),
                       Resized(Side, Side)]
  {
  }

  /** A missing orientation tag and the tag 1 give the same image sent, the
      one `crop_max_square` and `resize` make of the upload itself. */
  lemma NormalizedWithoutRotation(img: Image)
    ensures Normalized(img, None) == Normalized(img, Some(1)) == Resize(CropMaxSquare(img), Side, Side)
  {
    NormalIsUnrotated(img);
  }

  /** The outcome of `cartoonize_image` up to the generation request. An
      unreadable file fails before any request; a failed caption call fails
      before the generation request; otherwise the image sent is 512 x 512,
      both requests carry the same base64 text of it, the prompt ends with the
      caption, and the caller's seed, steps, model and modifiers pass through
      beside the fixed settings. */
  function Cartoonized<F>(upload: Upload, p: Params<F>, encode: Image -> string,
                          caption: ClipRequest -> Option<string>, tenth: F -> F): (r: Result<Sent<F>, Fault>)
    ensures upload.Undecodable? <==> r == Err(UnreadableImage)
    ensures upload.Decoded? ==>
      var clip := CaptionRequest(encode(Normalized(upload.image, upload.orientation)));
      (caption(clip).None? <==> r == Err(CaptionUnavailable))
    ensures r.Ok? ==>
      var s := r.value;
      && upload.Decoded?
      && s.shown == Normalized(upload.image, upload.orientation)
      && s.shown.width == Side && s.shown.height == Side
      && s.clip.mode == ClipMode
      && s.clip.image == s.sd.initImage == encode(s.shown)
      && caption(s.clip) == Some(s.caption)
      && s.sd.prompt == Prompt(p.extraDesc, s.caption)
      && s.sd.prompt[|s.sd.prompt| - |s.caption|..] == s.caption
      && s.sd.strength == tenth(p.strength)
      && s.sd.seed == p.seed && s.sd.numInferenceSteps == p.steps
      && s.sd.modelName == p.modelName && s.sd.loras == p.loras
      && HasFixedSettings(s.sd)
  {
    match upload
    case Undecodable => Err(UnreadableImage)
    case Decoded(img, orientation) =>
      var shown := Normalized(img, orientation);
      var clip := CaptionRequest(encode(shown));
      match caption(clip)
      case None => Err(CaptionUnavailable)
      case Some(text) =>
        Ok(Sent(shown, clip, text,
                GenerationRequest(encode(shown), Prompt(p.extraDesc, text), tenth(p.strength),
                                  p.modelName, p.seed, p.steps, p.loras)))
  }

  /** `cartoonize_image`, statement by statement, up to the generation request. */
  method CartoonizeImage<F>(upload: Upload, p: Params<F>, encode: Image -> string,
                            caption: ClipRequest -> Option<string>, tenth: F -> F)
    returns (r: Result<Sent<F>, Fault>)
    ensures r == Cartoonized(upload, p, encode, caption, tenth)
  {
    if upload.Undecodable? {
      return Err(UnreadableImage);
    }
    var inputImg := CorrectOrientation(upload.image, upload.orientation);
    var croppedImg := CropMaxSquare(inputImg);
    var resizedImg := Resize(croppedImg, Side, Side);
    var imageOut := encode(resizedImg);
    var clipRequest := CaptionRequest(imageOut);
    var reply := caption(clipRequest);
    if reply.None? {
      return Err(CaptionUnavailable);
    }
    var prompt := Prompt(p.extraDesc, reply.value);
    var sdRequest := GenerationRequest(imageOut, prompt, tenth(p.strength), p.modelName, p.seed, p.steps, p.loras);
    r := Ok(Sent(resizedImg, clipRequest, reply.value, sdRequest));
  }

  /** The page script: look the style up, wrap the extra description, build
      `loras` from the ticked modifiers, and run `cartoonize_image` once a
      file is uploaded. `checked` and `values` are the checkboxes and sliders
      of `lora_map`'s modifiers in order; `seed` is 0 or the randomised seed. */
  method Submit<F>(upload: Option<Upload>, style: string, strength: F, extraDesc: string,
                   weightText: string, steps: int, checked: seq<bool>, values: seq<F>, seed: int,
                   encode: Image -> string, caption: ClipRequest -> Option<string>, tenth: F -> F)
    returns (r: Option<Result<Sent<F>, Fault>>)
    requires style in ModelMap
    requires |checked| == |LoraMap| && |values| == |LoraMap|
    ensures upload.None? <==> r.None?
    ensures upload.Some? ==>
      r == Some(Cartoonized(upload.value,
                            Params(ModelMap[style], strength, seed, Chosen(Choices(checked, values)),
                                   steps, WrapExtra(extraDesc, weightText)),
                            encode, caption, tenth))
    ensures r.Some? && r.value.Ok? ==>
      var s := r.value.value;
      && s.sd.modelName == ModelMap[style]
      && s.sd.prompt == Prompt(WrapExtra(extraDesc, weightText), s.caption)
      && (forall i :: 0 <= i < |LoraMap| ==> (LoraMap[i].id in s.sd.loras <==> checked[i]))
      && (forall i :: 0 <= i < |LoraMap| && checked[i] ==> s.sd.loras[LoraMap[i].id] == values[i])
      && s.sd.loras.Keys <= LoraIds()
  {
    var model := ModelFor(style);
    var extra := extraDesc;
    if extra != "" {
      extra := "(" + extra + ": " + weightText + ")";
    }
    var loras := SelectModifiers(Choices(checked, values));
    ChosenOverLoraMap(checked, values);
    if upload.None? {
      return None;
    }
    var outcome := CartoonizeImage(upload.value, Params(model, strength, seed, loras, steps, extra),
                                   encode, caption, tenth);
    r := Some(outcome);
  }
}
