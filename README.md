# Edge COCO-SSD detector — a Dafny model

This project models the `edge_coco_ssd` object of `edge_server/edge_ai.py`,
the object-detection core of the edge server. The object does two jobs:

- `load_coco_ssd_model` reads a label file into a class-id → label dictionary,
  then asks the TF-Lite runtime for an Edge-TPU interpreter.
- `coco_ssd_analyse` runs one forward pass, dequantizes the four output tensors,
  and keeps, in slot order, the slots `i < top_k` whose score reaches the
  threshold, as detection records. On request it then draws every record onto
  the input image.

The modules follow that structure:

- `Strings` — character classes, `str.strip`.
- `Conversions` — `int(...)` of digit strings and of floats, `str(int)`.
- `Labels` — `readlines`, the pattern `\s*(\d+)(.+)`, the dictionary comprehension.
- `ModelPath` — the `'@'` device suffix of the model path.
- `Quantization` — `_get_coco_ssd_output_tensor`.
- `Detections` — `_create_coco_ssd_object_structure` and the selection in `coco_ssd_analyse`.
- `Annotation` — `_annotate_coco_ssd_image`, with the image as a `Canvas` class
  whose state is the list of draw calls made on it.
- `Detector` — the `EdgeCocoSsd` class with its `Load` and `Analyse` methods.
- `Wrappers` — `Option`, `Result` and `Outcome`.

Some parts of the system are not modelled; they become parameters instead:

- the TF-Lite runtime: what it does with an interpreter request, and the output
  tensors of one `invoke()`;
- the clock readings around `invoke()`;
- the contents of the label file;
- PIL's text measurement, `str.title` and whether the font file loads.

In each case Python raising an exception becomes a `Failure`/`Fail` value that
names the cause.

Behaviour worth noting, as the code has it:

- **Unknown class id.** `self._labels.get(class_ids[i], class_ids[i])`
  (edge_ai.py:140) falls back to the float class id itself, not to its text.
  A record with that fallback then makes annotation raise, because a float
  has no `.title()` (edge_ai.py:166; `Detections.Lookup`,
  `Annotation.ObjectCommandsLayout`).
- **Label lookup key.** The lookup key is the float class id. It finds the
  integer key of equal value, as Python's dictionary does (`Detections.Lookup`).
- **Annotation errors.** Besides a missing font file (edge_ai.py:174),
  annotation raises on a fallback id, and on a caption whose measured height
  is 0, a division by zero (edge_ai.py:173).
- **Box clamping.** Clamping of the box is one-sided (edge_ai.py:143-146):
  minima are raised to 0 and maxima lowered to 1. It does not order the
  corners, and it does not bound a minimum above 1 or a maximum below 0
  (`Detections.ClampIsOneSided`).
- **Font size.** The font size divides the box height by `textsize(label)[1]`
  (edge_ai.py:172-173), which is the caption's measured height, although the
  variable is called `text_width`.
- **Caption percentage.** The percentage in the caption is truncated by `int()`
  (edge_ai.py:165), not rounded.
- **Label file.** A repeated id keeps the text of its last line
  (`Labels.ToMapLastWins`). A line that does not match the pattern, a blank
  line included, aborts the whole load (edge_ai.py:43; `Labels.BlankLineAborts`).
- **Selection loop.** The loop runs over `range(top_k)` only (edge_ai.py:96).
  The count tensor is read (edge_ai.py:135) but never used
  (`Detections.CountIsIgnored`). A `top_k` beyond the score tensor raises
  (`Detections.BuildUpToContents`).
- **Keyword defaults.** The method's own defaults are `threshold=0.1`,
  `top_k=3` and `label_image=True` (edge_ai.py:73-76; `Detector.DefaultOptions`).
  The application passes its own configuration instead, 0.6 and 5 by default
  (edge_server/edge_app.py:25-26), which is not part of this model.

## Model

| member | source | states |
|---|---|---|
| Strings.Strip | edge_server/edge_ai.py:44 | `text.strip()` is a slice of the text with only whitespace before and after it, and it neither starts nor ends with whitespace |
| Strings.StripIdempotent | edge_server/edge_ai.py:44 | stripping a stripped label changes nothing |
| Conversions.DigitsValue | edge_server/edge_ai.py:44 | `int(num)` of a digit group of length k is below 10^k |
| Conversions.NatToDecimalDigits | edge_server/edge_ai.py:165-166 | the decimal text of a number is a non-empty digit string, with no superfluous leading zero, that reads back as the number |
| Conversions.CanonicalDigitsRoundTrip | edge_server/edge_ai.py:165-166 | a digit string without superfluous leading zeros is the decimal text of its own value (the other round trip) |
| Conversions.IntToStringDigits | edge_server/edge_ai.py:165-166 | `str` of an int is its digits, preceded by `-` exactly when it is negative, with no superfluous leading zero, and reads back as its magnitude |
| Conversions.TruncTowardZero | edge_server/edge_ai.py:139 | `int(x)` of a float lies between 0 and x, less than 1 away from x, and keeps integral values |
| Labels.SplitLinesConcat | edge_server/edge_ai.py:42-43 | the lines of `readlines()` joined together are the file text |
| Labels.SplitLinesShape | edge_server/edge_ai.py:43 | every line is non-empty with a line feed at most at its end, and every line but the last ends in a line feed |
| Labels.SplitLinesAppend | edge_server/edge_ai.py:43 | text that ends in a line feed is split independently of what follows it |
| Labels.BlankLineIsALine | edge_server/edge_ai.py:43 | a line feed at the start of a line is a line of its own |
| Labels.MatchSpanSound | edge_server/edge_ai.py:41-43 | the span the matcher returns satisfies `\s*(\d+)(.+)`, and `.+` runs on to a line feed or the end |
| Labels.MatchSpanComplete | edge_server/edge_ai.py:41-43 | `p.match(line)` is None exactly when no split of the line matches the pattern |
| Labels.MatchBoundaries | edge_server/edge_ai.py:41 | any match starts its digit group where the leading whitespace ends, and ends it within the digit run there |
| Labels.MatchSpanGreedy | edge_server/edge_ai.py:41-43 | the groups found are the backtracking matcher's first choice: the longest digit group, then the longest text group |
| Labels.MatchLine | edge_server/edge_ai.py:43 | the groups of a match are a non-empty digit string and a non-empty text without line feed |
| Labels.MatchLineExamples | edge_server/edge_ai.py:41-43 | `"  0  person\n"` gives `("0", "  person")`; `"12\n"` gives `("1", "2")`; `"7\n"`, `"\n"` and `"cat 3\n"` do not match |
| Labels.Collect | edge_server/edge_ai.py:43-44 | the generator gives every pair in order when every line matches, and otherwise stops at the first line that does not match |
| Labels.ToMapKeys | edge_server/edge_ai.py:44 | the dictionary has at most one entry per pair, and its keys are exactly the pairs' ids |
| Labels.ToMapLastWins | edge_server/edge_ai.py:44 | an id maps to the text of the last pair that carries it |
| Labels.ParseEntriesContents | edge_server/edge_ai.py:43-44 | the comprehension succeeds exactly when every line matches, and otherwise reports the first line that does not; on success its keys are exactly the lines' ids, and each maps to its last line's text |
| Labels.LoadLabels | edge_server/edge_ai.py:38-44 | an unreadable file fails; otherwise the labels are the comprehension over the file's lines, or the failure names the line that does not match |
| Labels.BlankLineAborts | edge_server/edge_ai.py:43-44 | a blank line anywhere in the label file makes the load fail |
| ModelPath.Split | edge_server/edge_ai.py:54 | `split('@')` gives at least one piece |
| ModelPath.SplitRejoins | edge_server/edge_ai.py:54 | joining the pieces with `'@'` gives back the path |
| ModelPath.SplitPiecesFree | edge_server/edge_ai.py:54 | no piece contains `'@'` |
| ModelPath.SplitSingle | edge_server/edge_ai.py:54 | there is a single piece exactly when the path has no `'@'` |
| ModelPath.SplitJoin | edge_server/edge_ai.py:54 | splitting undoes joining pieces that contain no `'@'` |
| ModelPath.LocateSpec | edge_server/edge_ai.py:54-59 | the model file is the path up to its first `'@'`; the device option is the text up to the next `'@'` or the end; without `'@'` there are no delegate options |
| ModelPath.LocateFileAtDevice | edge_server/edge_ai.py:54-59 | `file@device` selects that file with option `{'device': device}`, even for an empty device name |
| ModelPath.LocatePlainFile | edge_server/edge_ai.py:54-59 | a path without `'@'` selects the whole path with no options |
| Detector.RequestDevice | edge_server/edge_ai.py:54-60 | the interpreter request names the file, the delegate `libedgetpu.so.1`, and the device option exactly when the path has one |
| Quantization.DequantizeValue | edge_server/edge_ai.py:124-129 | dequantizing is undone by quantizing: no entry keeps the value, scale 0 only shifts it by the zero point, otherwise it is shifted and scaled |
| Quantization.DequantizeMonotone | edge_server/edge_ai.py:126-129 | with a non-negative scale dequantization keeps the order of values, so the threshold test keeps its meaning |
| Quantization.Dequantize | edge_server/edge_ai.py:123-129 | dequantizing a tensor keeps its length and undoes the quantization element by element |
| Quantization.DequantizeRows | edge_server/edge_ai.py:123-129 | the box tensor keeps its shape, and every cell is undone by quantization, as in a flat tensor |
| Quantization.DequantizeIdentity | edge_server/edge_ai.py:124-129 | without a quantization entry, or with scale 1 and zero point 0, the tensor is unchanged |
| Quantization.DequantizeZeroScale | edge_server/edge_ai.py:127-128 | with scale 0 each value is only shifted by the zero point |
| Detections.Lookup | edge_server/edge_ai.py:140 | a label is found exactly when some integer key equals the float class id, and it is that key's label; otherwise the value is the class id itself |
| Detections.Clamp | edge_server/edge_ai.py:142-147 | a minimum below 0 becomes exactly 0 and a maximum above 1 becomes exactly 1; a coordinate already on the right side of its bound is kept |
| Detections.ClampKeepsUnitBoxes | edge_server/edge_ai.py:142-147 | a box inside the unit square is unchanged, and clamping is idempotent |
| Detections.ClampIsOneSided | edge_server/edge_ai.py:142-147 | clamping may leave xmin > xmax, a minimum above 1 or a maximum below 0 |
| Detections.ClampExample | edge_server/edge_ai.py:137-147 | the raw box `(-0.1, 0.2, 1.2, 0.8)` gives xmin 0.2, ymin 0.0, xmax 0.8, ymax 1.0 |
| Detections.MakeDetection | edge_server/edge_ai.py:131-148 | a record exists exactly when all three tensors have slot i and the box row has four values; a missing box slot fails with IndexOutOfRange, a box row without four values with BoxUnpack (the unpack at line 137), a missing class-id or score slot with IndexOutOfRange; it carries `int` of the class id, the looked-up label, the score and the clamped box |
| Detections.BoxOnlyDeterminesBBox | edge_server/edge_ai.py:137-147 | replacing the box tensor changes only the record's box |
| Detections.SelectIndices | edge_server/edge_ai.py:96 | the slots selected are exactly those i below top_k whose score reaches the threshold, in increasing order |
| Detections.BuildUpToSucceeds | edge_server/edge_ai.py:95-96 | the selection succeeds exactly when every slot below top_k can be read |
| Detections.BuildUpToContents | edge_server/edge_ai.py:95-96 | a successful selection is one record per selected slot, in slot order, and top_k is then at most the score tensor's length |
| Detections.BuildUpToFirstError | edge_server/edge_ai.py:96 | a failed selection has the error of the first slot that cannot be read |
| Detections.SlotReadable | edge_server/edge_ai.py:96 | a slot can be read exactly when the score tensor has it and, if the score passes, its record can be built; a missing score slot fails with IndexOutOfRange, a score below the threshold contributes nothing, and a passing slot fails with its record's error |
| Detections.CountIsIgnored | edge_server/edge_ai.py:135 | the count tensor does not influence the records |
| Detections.OneOfThreeSelected | edge_server/edge_ai.py:96 | scores `[0.9, 0.5, 0.05]` at threshold 0.6 select slot 0 only |
| Detections.UnknownIdFallsBack | edge_server/edge_ai.py:140 | an id missing from the labels yields the id value, not a label |
| Annotation.PixelInImage | edge_server/edge_ai.py:162 | a coordinate in [0, 1] gives a pixel in [0, dimension] |
| Annotation.CaptionReadsBack | edge_server/edge_ai.py:165-166 | for a score in [0, 1] the caption is the percentage in [0, 100] as digits, with no superfluous leading zero, that read back as it, then `"% "`, then the titled label |
| Annotation.FontSizeClamped | edge_server/edge_ai.py:172-173 | the font size is 30 × box height / caption height, clamped to [8, 36] |
| Annotation.ObjectCommandsLayout | edge_server/edge_ai.py:158-180 | a record draws exactly when its label is text, its caption has a height and the font loads; otherwise it fails, in that order, with LabelNotText (`.title()` on a float, line 166), ZeroTextHeight (the division at line 173) or FontUnavailable (the font load at line 174); then it draws a black 4px outline, a blue 2px outline, the caption in black with stroke 1 and in blue with stroke 0, 10px inside the box's corner, both at the font size `FontSize` computes from the box's pixel height and the caption's measured height |
| Annotation.ChainSucceeds | edge_server/edge_ai.py:156-180 | the loop finishes without error exactly when no pass raises |
| Annotation.ChainInOrder | edge_server/edge_ai.py:156-180 | when every pass draws four commands, pass k's commands sit at positions 4k to 4k+4 |
| Annotation.ChainStopsAtFailure | edge_server/edge_ai.py:156-180 | a raising pass ends the loop with its error, and only the passes before it were drawn |
| Annotation.AnnotateInOrder | edge_server/edge_ai.py:156-180 | when no record raises, every record's four commands are drawn, in list order |
| Annotation.AnnotateStopsAtFailure | edge_server/edge_ai.py:156-180 | annotation raises exactly when some record raises; it is the first such record's error, and exactly the records before it are drawn |
| Annotation.Canvas.constructor | edge_server/edge_ai.py:152 | an image of the given size with nothing drawn on it |
| Annotation.Canvas.DrawObject | edge_server/edge_ai.py:157-180 | one loop pass appends its record's commands to the image, or raises having drawn nothing |
| Annotation.Canvas.Annotate | edge_server/edge_ai.py:150-183 | the image receives the commands of the loop and the outcome is the loop's error, if any; the image is changed in place |
| Detector.EdgeCocoSsd.constructor | edge_server/edge_ai.py:17-20 | a new detector is not ready, has an empty model path and no interpreter; the labels do not exist until a load stores them |
| Detector.EdgeCocoSsd.Load | edge_server/edge_ai.py:36-68 | a label failure changes nothing; otherwise the labels are stored, then the interpreter is kept if it was built, and `ready` is set only when its tensors were allocated; `ready` is never cleared |
| Detector.Options | edge_server/edge_ai.py:73-76 | each keyword option is the value passed, or the method's default when it is absent |
| Detector.OptionsDefaults | edge_server/edge_ai.py:73-76 | a call without keyword arguments uses `threshold=0.1`, `top_k=3`, `label_image=True`, and explicit values override all three |
| Detector.EdgeCocoSsd.Analyse | edge_server/edge_ai.py:71-105 | without an interpreter, with an interpreter whose tensors were never allocated, or when `invoke()` raises, the call fails; otherwise the result is the selected records, drawn onto the input image when `label_image` is set, and the forward-pass time in milliseconds |

## Left out

- `edge_server/edge_app.py`, the web application and its configuration, is not part of this model.
- The TF-Lite runtime is not modelled. Interpreter construction, `allocate_tensors()` and `invoke()` are the parameters `runtime` and `run` of `Load` and `Analyse`.
- Setting the input tensor (`_set_coco_ssd_input_tensor`, `_get_coco_ssd_input_tensor`, `_get_coco_ssd_input_size`, lines 108-119) is left out: it resizes the image inside PIL, and the model takes the runtime's outputs as given. Its failures are folded into `run` being None.
- The `resample` keyword (line 75) is read but never passed on, so it has no effect; it is not modelled.
- The cv2/numpy helpers at lines 23-33 are not used by the detector itself; they are left out.
- PIL internals are left out: `textsize`, `str.title` and the loading of `data/Nasa.ttf` are parameters of `Renderer`, and an image is the list of draw calls made on it.
- `channels = len(image.getbands())` (line 153) is computed and never used; it is left out.
- Floating point is modelled as exact reals. The model has no float rounding, NaN or infinity. numpy's `squeeze`, dtypes and broadcasting are reduced to sequences of reals. `int(count)` on the count tensor is assumed not to raise.
- `Strings.IsSpace` and `Strings.IsDigit`: the regular expression's `\s` and `\d` are modelled on ASCII only; Unicode whitespace and digits are left out.
- `Labels.LoadLabels`: the file is taken after UTF-8 decoding and universal-newline translation, so line ends are only `\n`; decoding errors count as an unreadable file.
- Logging and timing (lines 39, 46, 52, 63, 89-92) are left out. The two clock readings are parameters of `Analyse`, and `inference_time` is their difference in milliseconds.
- The `try: ... except Exception: raise` blocks only re-raise, so they are modelled as the error passing through.
- `load_image_from_file` refers to `cv2`, which the module never imports; it is one of the helpers left out above.
- The `__main__` block (lines 185-196) is a manual test script and is left out.
- `Detector.EdgeCocoSsd.Load`: `_model_path` is never updated by the code, and the model keeps it unchanged. After a failed reload `ready` stays true, even if the stored interpreter is now one whose tensors are not allocated; the model states this as it is rather than as an invariant connecting `ready` to allocation.
