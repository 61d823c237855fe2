/** The `preprocessing` step of the detection pipeline: the letterbox geometry
    that pads an image to a square on its bottom and right edges, and the
    tensor shapes fed to the detector. The OpenCV calls that do the pixel work
    (colour conversion, border, resize, normalisation, channel swap) are a
    foreign library; only their geometry and the length of their output are
    modelled. */
module Letterbox {

  /** The detector's declared input shape: batch, channels, height, width. */
  const ModeInputShape: seq<nat> := [1, 3, 640, 640]

  /** The number of elements of a tensor of the given shape. */
  function Product(shape: seq<int>): int
  {
    if shape == [] then 1 else shape[0] * Product(shape[1..])
  }

  /** A shape of non-negative dimensions has a non-negative element count. */
  lemma {:induction false} ProductOfNats(shape: seq<nat>)
    ensures Product(shape) >= 0
  {
    if shape != [] {
      ProductOfNats(shape[1..]);
    }
  }

  /** `shape.reduce((a, b) => a * b)` without an initial value: the fold
      starts from the first element and multiplies left to right. JavaScript
      throws on an empty array, so the shape must not be empty. */
  function Reduce(shape: seq<int>): int
    requires |shape| > 0
  {
    ReduceFrom(shape[0], shape[1..])
  }

  function ReduceFrom(acc: int, rest: seq<int>): int
    decreases |rest|
  {
    if rest == [] then acc else ReduceFrom(acc * rest[0], rest[1..])
  }

  /** Folding from the left with an accumulator multiplies the accumulator by
      the product of what is left. */
  lemma {:induction false} ReduceFromIsProduct(acc: int, rest: seq<int>)
    ensures ReduceFrom(acc, rest) == acc * Product(rest)
    decreases |rest|
  {
    if rest != [] {
      ReduceFromIsProduct(acc * rest[0], rest[1..]);
      assert acc * rest[0] * Product(rest[1..]) == acc * (rest[0] * Product(rest[1..]));
    }
  }

  /** The `reduce` the warm-up uses agrees with the element count of the shape. */
  lemma ReduceIsProduct(shape: seq<int>)
    requires |shape| > 0
    ensures Reduce(shape) == Product(shape)
  {
    ReduceFromIsProduct(shape[0], shape[1..]);
  }

  /** The length of the zero-filled warm-up tensor: it holds one element per
      entry of the declared input shape. */
  function WarmupLength(): (n: int)
    ensures n == Product(ModeInputShape)
    ensures n == 1 * 3 * 640 * 640
  {
    ReduceIsProduct(ModeInputShape);
    Reduce(ModeInputShape)
  }

  /** The larger of two sizes, as `Math.max` computes it. */
  function Max(a: nat, b: nat): (m: nat)
    ensures m >= a && m >= b && (m == a || m == b)
  {
    if a >= b then a else b
  }

  /** What `preprocessing` derives from the image's `rows` and `cols`. */
  datatype Geometry = Geometry(maxSize: nat, xPad: nat, yPad: nat, xRatio: real, yRatio: real)

  /** The padding and the ratios of the letterbox. The source divides by both
      sizes without checking them, so both must be positive. */
  function LetterboxGeometry(rows: nat, cols: nat): (g: Geometry)
    requires rows > 0 && cols > 0
    ensures g.maxSize >= rows && g.maxSize >= cols
    ensures g.maxSize == rows || g.maxSize == cols
    ensures cols + g.xPad == g.maxSize && rows + g.yPad == g.maxSize
    ensures g.xPad == 0 || g.yPad == 0
    ensures g.xRatio * cols as real == g.maxSize as real
    ensures g.yRatio * rows as real == g.maxSize as real
    ensures g.xRatio >= 1.0 && g.yRatio >= 1.0
  {
    var maxSize := Max(rows, cols);
    var xRatio := maxSize as real / cols as real;
    var yRatio := maxSize as real / rows as real;
    RatioAtLeastOne(maxSize, cols, xRatio);
    RatioAtLeastOne(maxSize, rows, yRatio);
    Geometry(maxSize, maxSize - cols, maxSize - rows, xRatio, yRatio)
  }

  lemma RatioAtLeastOne(maxSize: nat, side: nat, ratio: real)
    requires 0 < side <= maxSize
    requires ratio == maxSize as real / side as real
    ensures ratio * side as real == maxSize as real
    ensures ratio >= 1.0
  {
  }

  /** The four border widths handed to `copyMakeBorder`. */
  datatype Border = Border(top: nat, bottom: nat, left: nat, right: nat)

  /** The border: nothing on the top and left, so model coordinates need no
      offset when mapped back, and the padded image is a square whose side is
      the larger of the two sizes. */
  function PadArguments(rows: nat, cols: nat): (b: Border)
    requires rows > 0 && cols > 0
    ensures b.top == 0 && b.left == 0
    ensures b.top + rows + b.bottom == Max(rows, cols)
    ensures b.left + cols + b.right == Max(rows, cols)
  {
    var g := LetterboxGeometry(rows, cols);
    Border(0, g.yPad, 0, g.xPad)
  }

  /** A square image is neither padded nor rescaled. */
  lemma SquareImageUnchanged(side: nat)
    requires side > 0
    ensures PadArguments(side, side) == Border(0, 0, 0, 0)
    ensures LetterboxGeometry(side, side).xRatio == 1.0
    ensures LetterboxGeometry(side, side).yRatio == 1.0
  {
  }

  /** The length of the blob `blobFromImage` produces for one three-channel
      image resized to `modelWidth` by `modelHeight`: a tensor of shape
      [1, 3, modelHeight, modelWidth]. */
  function BlobLength(modelWidth: nat, modelHeight: nat): (n: nat)
    ensures n == Product([1, 3, modelHeight, modelWidth])
  {
    var shape: seq<int> := [1, 3, modelHeight, modelWidth];
    assert Product(shape[3..]) == modelWidth;
    assert Product(shape[2..]) == modelHeight * modelWidth;
    assert Product(shape) == 3 * (modelHeight * modelWidth);
    3 * modelHeight * modelWidth
  }

  /** Where `blobFromImage`'s resize of the padded `maxSize` square sends a
      coordinate of the source image along an axis of `modelSide` pixels. */
  function ToModelSpace(p: real, maxSize: nat, modelSide: nat): real
    requires maxSize > 0
  {
    p * modelSide as real / maxSize as real
  }

  /** The result of `preprocessing`: the input blob (only its length is
      modelled) and the two ratios. */
  datatype Preprocessed = Preprocessed(inputLength: nat, xRatio: real, yRatio: real)

  function Preprocessing(rows: nat, cols: nat, modelWidth: nat, modelHeight: nat): (p: Preprocessed)
    requires rows > 0 && cols > 0
    ensures p.inputLength == Product([1, 3, modelHeight, modelWidth])
    ensures p.xRatio * cols as real == Max(rows, cols) as real
    ensures p.yRatio * rows as real == Max(rows, cols) as real
  {
    var g := LetterboxGeometry(rows, cols);
    Preprocessed(BlobLength(modelWidth, modelHeight), g.xRatio, g.yRatio)
  }

  /** `const [modelWidth, modelHeight] = MODE_INPUT_SHAPE.slice(2)`, then the
      blob is wrapped as a tensor of shape MODE_INPUT_SHAPE: its length is the
      one the shape declares, and the one the warm-up tensor has. */
  lemma InferenceTensorMatchesShape(rows: nat, cols: nat)
    requires rows > 0 && cols > 0
    ensures Preprocessing(rows, cols, ModeInputShape[2], ModeInputShape[3]).inputLength
            == Product(ModeInputShape)
    ensures Preprocessing(rows, cols, ModeInputShape[2], ModeInputShape[3]).inputLength
            == WarmupLength()
  {
  }

  /** A 1280 by 720 image: the square side is 1280, the width is not
      rescaled and the height is stretched by 16/9. */
  lemma WideImageExample()
    ensures LetterboxGeometry(720, 1280).maxSize == 1280
    ensures LetterboxGeometry(720, 1280).xRatio == 1.0
    ensures LetterboxGeometry(720, 1280).yRatio == 16.0 / 9.0
    ensures PadArguments(720, 1280) == Border(0, 560, 0, 0)
  {
  }
}
