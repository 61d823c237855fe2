# Zebra / zebroid / horse detector: pipeline model

This project models the detection pipeline of a single-page web app that
finds zebras, zebroids and horses in an uploaded JPEG with a YOLOv7 model.
The whole pipeline lives in `src/app/index.tsx`:

- **Letterbox geometry** (`preprocessing`): the image is padded with black on
  its bottom and right edges to a square whose side is the larger of its two
  sizes, then resized to the 640 × 640 model input. The ratios
  `xRatio = maxSize / cols` and `yRatio = maxSize / rows` are kept to map
  boxes back (module `Letterbox`, file `letterbox.dfy`).
- **Tensor shapes**: the declared input shape `[1, 3, 640, 640]`, the length
  of the zero-filled warm-up tensor (`reduce` over that shape) and the length
  of the blob handed to the session (`Letterbox`).
- **Row decoder** (step 3 of `submitAnalize`): a loop walks the flat output
  in steps of `dims[1]`, reads `x0, y0, x1, y1, classId, score` after a
  leading field of each row, and pushes one box per row, in order, rescaled
  by the letterbox ratio times the display ratio `canvas.width / 640`,
  `canvas.height / 640` (module `Decoder`, file `decoder.dfy`).
- **Class table and drawing loop**: `CLASSES_ATTRS` maps exactly 0, 1 and 2
  to a name and a colour; the drawing loop reads it without a check (module
  `Classes`, file `classes.dfy`).
- **View state**: the `App` component's file, session and five-valued view
  state, with the handlers that change them and the button guards (module
  `ViewState`, class `App`, file `view_state.dfy`).

Sizes are `nat`, ratios and tensor values are `real`. The decoder is a
`method` with a loop proved against the function `DecodeAll`, which
specifies the boxes of the rows of the data; `Offset(i, stride)` is where
row `i` starts, defined by adding the stride once per row and proved equal
to `i * stride`. The drawing loop is a method proved against `Drawn`.

Three behaviours of the code that a reader might not expect:

- The code does not reject a zero-sized image: `preprocessing` and the
  `image.onload` callback divide by `rows`, `cols` and the image's sizes
  unchecked. The model requires positive sizes instead (see "Left out").
- The code decodes every row, whatever its class. The drawing loop reads
  `attrs.color` of the table entry, which throws for an unknown class: the
  boxes before it are drawn, the rest are not, and
  `setViewState("result")` is never reached, so the view stays where it was.
  `Classes.Render` and `ViewState.App.OnImageLoad` model exactly that.
- `submitAnalize` does not check the view state itself; only the disabled
  button keeps a second submit from starting while processing.

## Model

| member | source | states |
|---|---|---|
| `Letterbox.ReduceFromIsProduct` | src/app/index.tsx:81 | folding `(a, b) => a * b` from the left with an accumulator gives the accumulator times the product of the rest |
| `Letterbox.ReduceIsProduct` | src/app/index.tsx:81 | `Reduce`, `reduce` without an initial value over a non-empty shape is the element count of that shape |
| `Letterbox.WarmupLength` | src/app/index.tsx:79-83 | the warm-up tensor has one element per entry of the input shape, 1·3·640·640 |
| `Letterbox.Max` | src/app/index.tsx:39 | `Math.max` of the two sizes is at least each of them and equal to one of them |
| `Letterbox.LetterboxGeometry` | src/app/index.tsx:39-43 | `maxSize` is the maximum of rows and cols; both paddings are non-negative, at least one is 0, and they bring the image to `maxSize` on both axes; `xRatio · cols = maxSize`, `yRatio · rows = maxSize`, both ratios ≥ 1 |
| `Letterbox.PadArguments` | src/app/index.tsx:44-45 | the border passed to `copyMakeBorder` is 0 on top and left, and the padded image is exactly `maxSize × maxSize` |
| `Letterbox.SquareImageUnchanged` | src/app/index.tsx:39-45 | a square image gets no border and both ratios are 1 |
| `Letterbox.WideImageExample` | src/app/index.tsx:39-45 | a 1280 × 720 image has square side 1280, x ratio 1, y ratio 16/9 and a 560-row bottom border only |
| `Letterbox.BlobLength` | src/app/index.tsx:47-54 | the blob of a three-channel image resized to `modelWidth × modelHeight` has the element count of the shape `[1, 3, modelHeight, modelWidth]` |
| `Letterbox.Preprocessing` | src/app/index.tsx:33-62 | `preprocessing` returns a blob of that length and ratios that take cols and rows to `max(rows, cols)` |
| `Letterbox.InferenceTensorMatchesShape` | src/app/index.tsx:122-124 | with `[modelWidth, modelHeight] = MODE_INPUT_SHAPE.slice(2)` the blob has exactly the length the tensor shape `MODE_INPUT_SHAPE` declares, the same as the warm-up tensor |
| `Decoder.OffsetIsProduct` | src/app/index.tsx:134 | the offset reached after `i` steps of `r += dims[1]` is `i · dims[1]` |
| `Decoder.DisplayRatio` | src/app/index.tsx:117-118 | the display ratio `canvas.width / 640` (or height) is non-negative and times 640 gives the canvas side back |
| `Decoder.VisitedOffsets` | src/app/index.tsx:134 | the offsets of `n` rows are 0, stride, 2·stride, …, each one stride past the last, all strictly below the end of the data |
| `Decoder.Row` | src/app/index.tsx:135 | the slice of a row has exactly `stride` fields |
| `Decoder.DecodeRow` | src/app/index.tsx:136-155 | a row's box copies `classId` (field 5) and `score` (field 6) unchanged |
| `Decoder.DecodeRowCorners` | src/app/index.tsx:143-153 | the box's corner is `(x0·xRatio·xRatio1, y0·yRatio·yRatio1)` and its far corner, corner plus width and height, is `(x1·xRatio·xRatio1, y1·yRatio·yRatio1)` |
| `Decoder.DecodeAllLength` | src/app/index.tsx:134-156 | data of `m` whole rows decodes to exactly `m` boxes |
| `Decoder.DecodeAllAt` | src/app/index.tsx:134-156 | box `i` is the box of row `i`: order is preserved |
| `Decoder.RowCount` | src/app/index.tsx:134 | a well-shaped output (size the product of its dims) is exactly a whole number of rows of `dims[1]` fields |
| `Decoder.RowsInside` | src/app/index.tsx:134-135 | every row below the row count lies inside the data, so no slice is short |
| `Decoder.DecodeRowAt` | src/app/index.tsx:135-155 | the loop body at offset `r` reads `classId` and `score` at `r + 5` and `r + 6` of the whole output and the corners at `r + 1 … r + 4`, rescaled; the result is the box of the row starting at `r` |
| `Decoder.DecodeLoop` | src/app/index.tsx:131-156 | the loop yields the decode of all rows, one per row, and visits exactly the offsets 0, stride, … below `size` |
| `Decoder.Decode` | src/app/index.tsx:126-156 | decoding a well-shaped output gives one box per row, in row order |
| `Decoder.BoxOfRow` | src/app/index.tsx:134-153 | row `i` starts at `i·stride`, and box `i` reads `x0 … score` at `i·stride + 1 … i·stride + 6` and rescales its corners |
| `Decoder.DecodeInvertsLetterbox` | src/app/index.tsx:117-153 | with the canvas at the image's size, decoding inverts the letterbox: a point sent to model space by resizing the padded square to 640 comes back to itself on both axes |
| `Decoder.ExampleRow` | src/app/index.tsx:143-153 | corners (0, 0), (100, 50) with ratios 2 and 1 and display ratios 1 give the box (0, 0, 200, 50) |
| `Classes.ClassTable` | src/app/index.tsx:12-31 | `CLASSES_ATTRS` holds exactly the keys 0, 1 and 2, as zebra, zebroid and horse with their colours, the three colours distinct |
| `Classes.LookupDefinedIff` | src/app/index.tsx:161 | `Lookup`, the read `CLASSES_ATTRS[Number(classId)]`, finds an entry exactly for 0, 1 and 2, and that entry is the table's entry for the class; any other value finds nothing |
| `Classes.DrawnIsKnownPrefix` | src/app/index.tsx:158-168 | what is drawn is the boxes before the first unknown class, in order, with their class colour and name; all boxes exactly when every class is known |
| `Classes.Render` | src/app/index.tsx:158-168 | the drawing loop draws `Drawn(boxes)` and completes exactly when every class is known |
| `ViewState.OnloadScaleUniform` | src/app/index.tsx:114-124 | the scale `OnloadScale` that the callback builds from the display ratios and `preprocessing`'s ratios rescales both axes by the same factor, `maxSize / 640`, when the canvas has the image's size |
| `ViewState.App.constructor` | src/app/index.tsx:65-69 | no file, no session, view `initial` |
| `ViewState.App.OnRuntimeInitialized` | src/app/index.tsx:72-88 | the warm-up tensor has the shape's element count; the session is stored only when creation and warm-up succeed |
| `ViewState.App.OnFileChange` | src/app/index.tsx:91-97 | only a first file of type `image/jpeg` is taken, moving the view to `preview`; anything else changes nothing |
| `ViewState.App.SubmitAnalize` | src/app/index.tsx:99-107 | goes on exactly with a file, a session and a canvas, moving to `processing`; an enabled submit button with a canvas always goes on, and afterwards the button is disabled and the preview shown |
| `ViewState.App.OnImageLoad` | src/app/index.tsx:113-171 | when `preprocessing` or `session.run` throws, nothing is decoded or drawn and the view is unchanged; otherwise the boxes are the decode of the output with the letterbox and display ratios, the drawing is `Drawn(boxes)`, and the view moves to `result` exactly when every class is known |
| `ViewState.UploadThenSubmit` | src/app/index.tsx:91-107 | after the session is ready and a JPEG is chosen, submitting with a canvas goes on |

`App.Valid()` is kept by every handler: the view is never `error`, the file
is always a JPEG, the view is `initial` exactly while there is no file, and
`processing` and `result` imply a session. The guards `AllowUpload`,
`AllowSubmit`, `SubmitLoading` and `ShowPreview` are the expressions at
src/app/index.tsx:175-179.

## Left out

- Letterbox.LetterboxGeometry: requires `rows > 0 && cols > 0` (and so do
  `Preprocessing`, `OnloadScale` and `ViewState.App.OnImageLoad` for the
  image's sizes); the code divides by them unchecked, and the `NaN` or
  `Infinity` ratios a zero-sized image would give are not modelled.
- `console.log` calls (src/app/index.tsx:74, 78, 87, 128): logging output
  only, with no effect on the state.
- OpenCV pixel work (`imread`, `cvtColor` RGBA to BGR, the black border
  fill, `blobFromImage`'s resize, scaling by 1/255 and channel swap,
  `Mat.delete`): a foreign library; only the border widths, the resize's
  geometry (`Letterbox.ToModelSpace`) and the blob's length are modelled.
- Letterbox.BlobLength: states only the blob's length, not its values.
- ONNX Runtime (`InferenceSession.create`, `session.run`, the model file):
  external and asynchronous; the output is an arbitrary well-shaped tensor
  passed in. Whether creation and warm-up succeed, and whether
  `preprocessing` and the run in the `image.onload` callback return or
  throw, are parameters.
- Decoder.Decode: requires rows of at least 7 fields and a size that is the
  product of the dims; a short final slice, for which the source would read
  `undefined`, is not modelled.
- Canvas drawing (`strokeRect`, `fillText`, `drawImage`, line width) and the
  label text with `toFixed(0)`: rendering side effects and float formatting;
  drawing is modelled as the list of overlays (colour, name, rectangle,
  score).
- Image decoding, `URL.createObjectURL` and the preview URL: the image's
  width and height are parameters, and the preview URL is non-empty exactly
  when there is a file.
- React hooks, JSX layout, event ordering and the concurrency of the
  asynchronous callbacks (an `image.onload` running while a new file is
  chosen): each handler is modelled as one atomic step.
- IEEE floating point: ratios and coordinates are exact reals.
- `webpack.config.ts`: build configuration without logic.
