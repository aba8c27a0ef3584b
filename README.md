# Cartoonizer request pipeline, modelled in Dafny

The cartoonizer is a Streamlit page. A user uploads a photo and picks a style, an
"imagination" strength, an optional extra description with a weight, a step count and a set
of style modifiers (LoRAs). The seed is 0 unless the user presses "Randomize". The value of
the "Generate" button is discarded, so the page runs whenever a file is uploaded (line 138);
`Cartoonizer.Submit` follows this. The page then:

1. corrects the photo's orientation from its EXIF Orientation tag;
2. crops it to its largest centred square and resizes that square to 512 x 512;
3. posts the base64 PNG of that image to a captioning (CLIP) service;
4. builds the prompt from the extra description and the caption;
5. posts an image-to-image (Stable Diffusion) request made of the image, the prompt, the
   user's parameters and a set of fixed settings.

This project models that pipeline and proves what it promises:

- the crop box has exactly the requested size for both parities of the size difference, and it
  lies inside the image;
- the square has the shorter side of the upload and is centred on the longer axis;
- the image sent onward is always 512 x 512;
- the orientation tags 3, 6 and 8 map to 180, 270 and 90 degree turns, and anything else, or a
  tag that cannot be read, means no turn;
- the prompt always ends with the caption;
- the wrapped extra description can be read back into its text and weight;
- `loras` holds exactly the ticked modifiers with their own values;
- both requests carry the same image text, and the generation request passes the caller's
  values through unchanged beside its fixed settings.

Modules, one per component of `websites/cartoonizer/cartoonizer.py`:

- `Wrappers` (wrappers.dfy): `Option` and `Result`.
- `Geometry` (geometry.dfy): `crop_center`, `crop_max_square`, and the sizes PIL's `crop`,
  `rotate(..., expand=True)` and `resize` produce. An image is its width, its height and the
  list of PIL operations applied to it. That list makes "no rotation" observable.
- `Orientation` (orientation.dfy): the EXIF decision as a total function of `Option<int>`.
  `None` stands for every failure the source's bare `except` swallows. The `try` block's
  reassignments of `input_img` are a method.
- `Payload` (payload.dfy): the two request records, their fixed constants, the prompt, and the
  `(text: weight)` wrapping of the extra description.
- `Modifiers` (modifiers.dfy): `model_map` and `lora_map`, and the loop that fills `loras`.
  The loop is a method proved against a recursive specification function. Two definitions
  support it: `LoraIds` is the set of `lora_map`'s ids, and `Choices` pairs each `lora_map`
  entry, in order, with the user's checkbox and slider answers.
- `Cartoonizer` (cartoonizer.dfy): `cartoonize_image` up to the generation request, as a
  method proved against a specification function. The page script that calls it
  (style lookup, wrapping, modifier loop) is the method `Submit`.

Python's `//` floors. Dafny's `/` is Euclidean, which agrees with flooring for the positive
divisor 2 used here; `Geometry.Half` states the floor property outright.

The code always inserts `", "` (line 78), so an empty extra description gives
`", " + caption`, not the caption alone as one might expect. The model follows the code:
see `Payload.Prompt`.

Opaque parts are parameters:

- `encode: Image -> string` stands for PNG encoding followed by base64.
- `caption: ClipRequest -> Option<string>` stands for the caption call and the parsing of its
  reply. `None` is any failure.
- `tenth: F -> F` stands for `float(strength)/10`.
- Floats are the type parameter `F`. The weight of the extra description appears as its text
  (`weightText`). The guidance scale 6.5 is a `real`, which is exact for this value.

## Model

| member | source | states |
|---|---|---|
| Geometry.Half | websites/cartoonizer/cartoonizer.py:15-18 | `a // 2` is the floor of a/2: `2q <= a < 2q + 2` |
| Geometry.CenterBox | websites/cartoonizer/cartoonizer.py:13-18 | box width is exactly `crop_width` and height exactly `crop_height` for any integers (both parities); the two margins differ by at most one; a crop no larger than the image lies inside it (`0 <= left <= right <= img_width`, same vertically) |
| Geometry.Crop | websites/cartoonizer/cartoonizer.py:15-18 | PIL's crop yields an image as large as the box, for a box PIL accepts |
| Geometry.CropCenter | websites/cartoonizer/cartoonizer.py:13-18 | the cropped image has exactly the requested width and height, and its history gains exactly one step: the crop by the centred box |
| Geometry.CropMaxSquare | websites/cartoonizer/cartoonizer.py:21-22 | the result is a square whose side is `min(width, height)` (`Geometry.Min`, the `min(pil_img.size)` of line 22) |
| Geometry.MaxSquareBox | websites/cartoonizer/cartoonizer.py:21-22 | offset 0 and full extent on the shorter axis, offset `(longer - shorter) // 2` on the longer axis, box inside the image |
| Geometry.Rotate | websites/cartoonizer/cartoonizer.py:40-44 | `rotate(..., expand=True)` by 90 or 270 swaps width and height, by 180 keeps them; the shorter side is unchanged |
| Geometry.Resize | websites/cartoonizer/cartoonizer.py:50 | the resized image is exactly the requested size |
| Orientation.RotationFor | websites/cartoonizer/cartoonizer.py:39-47 | 3 gives 180, 6 gives 270, 8 gives 90, each if and only if; every other value and an unreadable tag give no rotation |
| Orientation.Upright | websites/cartoonizer/cartoonizer.py:33-47 | no rotation leaves the image unchanged; otherwise it is PIL's rotation by the decided angle (`Orientation.Degrees`: the literals 180, 270 and 90 of lines 40, 42 and 44) |
| Orientation.CorrectOrientation | websites/cartoonizer/cartoonizer.py:33-47 | the branch's reassignments give the upright image; the history changes exactly for tags 3, 6 and 8; the shorter side is kept |
| Orientation.NormalIsUnrotated | websites/cartoonizer/cartoonizer.py:39-47 | a missing tag and tag 1 both leave the image as it is |
| Payload.CaptionRequest | websites/cartoonizer/cartoonizer.py:61-64 | the caption request has mode `"fast"` and the given base64 image text |
| Payload.GenerationRequest | websites/cartoonizer/cartoonizer.py:80-97 | image, prompt, strength, model name, seed, steps and loras pass through unchanged; negative prompt, text inversions, scheduler, guidance 6.5, one image, 512 x 512 and clip skip 2 are fixed |
| Payload.Prompt | websites/cartoonizer/cartoonizer.py:78 | the prompt is the extra text, then `", "`, then the caption: it starts with the extra text and ends with the caption, and an empty extra gives `", " + caption` |
| Payload.WrapExtra | websites/cartoonizer/cartoonizer.py:165-166 | the result is empty if and only if the text is; a non-empty text is wrapped in parentheses, four characters longer than text and weight together |
| Payload.UnwrapWrap | websites/cartoonizer/cartoonizer.py:165-166 | wrapping is lossless: for a colon-free weight text, the text and weight read back from `(text: weight)` are the originals |
| Modifiers.ChosenKeys | websites/cartoonizer/cartoonizer.py:183-187 | an id is a key of `loras` if and only if some ticked entry carries it |
| Modifiers.ChosenValue | websites/cartoonizer/cartoonizer.py:183-187 | with distinct ids, each ticked entry's value is stored under its id |
| Modifiers.SelectModifiers | websites/cartoonizer/cartoonizer.py:173-187 | the loop builds exactly the specified dictionary `Chosen(entries)`, whose keys are exactly the ids of the ticked entries |
| Modifiers.LoraIdsCount | websites/cartoonizer/cartoonizer.py:175-181 | `lora_map` offers exactly five different modifier ids |
| Modifiers.LoraMapDistinct | websites/cartoonizer/cartoonizer.py:175-181 | `lora_map` has five entries with pairwise distinct ids |
| Modifiers.ChosenOverLoraMap | websites/cartoonizer/cartoonizer.py:173-187 | over `lora_map`: an id is a key if and only if its box is ticked, it maps to its own slider value, and no key lies outside the five ids |
| Modifiers.ModelFor | websites/cartoonizer/cartoonizer.py:157 | the model id is one of `model_map`'s values and identifies the chosen style |
| Modifiers.ModelMapInjective | websites/cartoonizer/cartoonizer.py:143-150 | six styles, mapped to six different model ids |
| Cartoonizer.Normalized | websites/cartoonizer/cartoonizer.py:32-50 | the image sent onward is 512 x 512 for every upload size and orientation |
| Cartoonizer.NormalizedSquare | websites/cartoonizer/cartoonizer.py:48-50 | the square cut before resizing has the upload's shorter side whatever the rotation, and the history ends with that centred crop and the resize |
| Cartoonizer.NormalizedWithoutRotation | websites/cartoonizer/cartoonizer.py:33-50 | no tag and tag 1 give the same image, the one crop-and-resize makes of the unrotated upload |
| Cartoonizer.Cartoonized | websites/cartoonizer/cartoonizer.py:31-97 | undecodable upload fails before any request (if and only if); failed caption fails before the generation request (if and only if); on success the image is 512 x 512, `init_image` equals the caption request's `image`, the caption is the service's answer, the prompt ends with it, strength is the scaled slider value, seed, steps, model and loras pass through, fixed settings hold |
| Cartoonizer.CartoonizeImage | websites/cartoonizer/cartoonizer.py:31-97 | the statement sequence (orientation, crop, resize, encode, caption call, prompt, request) yields exactly the specified outcome |
| Cartoonizer.Submit | websites/cartoonizer/cartoonizer.py:139-205 | nothing runs without an upload; otherwise the outcome is `cartoonize_image` with the looked-up model, the wrapped extra description and the chosen `loras`; on success the model is `model_map[style]`, the prompt is built from the wrapped text, and `loras` holds exactly the ticked modifiers with their values and no other key |

## Left out

- Streamlit widgets, layout, page text, image display and the download button: UI only. Their answers (checkboxes, sliders, text input, selected style) are parameters of `Submit`.
- The `requests.post` calls and JSON parsing of both replies: network I/O. The caption call is the parameter `caption`. The generation reply (`image_0`, base64-decoded and opened as PNG) is not modelled; the model stops at the generation request.
- PIL decoding, pixel content, resampling and PNG encoding (`convert_image` and the in-memory buffer): foreign library code. Only the sizes PIL produces are modelled. Decoding is the `Upload` value; encoding with base64 is the parameter `encode`.
- Geometry.Rotate: modelled only for the angles 90, 180 and 270 that the source uses, where PIL's `expand=True` turns exactly swap or keep the sides.
- The scan of `ExifTags.TAGS` for the Orientation key and `_getexif()`: a library table lookup. Their combined result is the `Option<int>` tag; a non-integer tag value behaves like any other value that is not 3, 6 or 8.
- The message printed when reading the tag fails (the `except` branch): console output.
- An exception inside `rotate` itself is also swallowed by the source's `except`; the model treats `rotate` as total.
- `float(strength)/10` and the float text of the extra weight: floating point. The first is the parameter `tenth`, the second the string `weightText`; the example "7.0 gives 0.7" is therefore not stated.
- `random.randint(0, 1024)` for the seed: nondeterministic. The seed is a parameter of `Submit`, passed through unchanged.
- The slider bounds (strength 3.0 to 10.0, steps 20 to 50, modifier strength 0.0 to 2.0): enforced by the UI, not by the code modelled here.
- Geometry.Crop: a box whose right edge lies left of its left edge (or whose bottom lies above its top) is a precondition, because PIL raises an error on such a box. `crop_center` never builds one for non-negative crop sizes.
- Cartoonizer.Submit: requires the style to be a key of `model_map`, because the selector offers only those keys. It also requires one checkbox and one slider answer per `lora_map` entry, because the loop asks exactly once per entry.
