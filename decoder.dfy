/** Step 3 of `submitAnalize`: the loop that walks the detector's flat output
    one row at a time and turns every row into a box in canvas coordinates. */
module Decoder {
  import opened Letterbox

  /** A box as `[x, y, width, height]`. */
  datatype Rect = Rect(x: real, y: real, width: real, height: real)

  /** One entry of `boxes`: the class and score are copied from the row. */
  datatype Box = Box(classId: real, probability: real, bounding: Rect)

  /** The letterbox ratios from `preprocessing` and the display ratios
      `xRatio1`, `yRatio1` of the canvas against the 640-pixel model input. */
  datatype Scale = Scale(xRatio: real, yRatio: real, xRatio1: real, yRatio1: real)

  /** The detector's output tensor: its flat data and its dimensions. */
  datatype OutputTensor = OutputTensor(data: seq<real>, dims: seq<nat>)

  /** What the runtime and the model guarantee of the output: `size` is the
      product of the dimensions, and a row (`dims[1]` fields) holds a leading
      field and then `x0, y0, x1, y1, classId, score`. */
  predicate WellShaped(t: OutputTensor)
  {
    |t.dims| >= 2 && t.dims[1] >= 7 && |t.data| == Product(t.dims)
  }

  /** `xRatio1 = canvas.width / 640` (or the height for `yRatio1`). */
  function DisplayRatio(canvasSide: nat): (r: real)
    ensures r >= 0.0 && r * 640.0 == canvasSide as real
  {
    canvasSide as real / 640.0
  }

  /** Where row `i` starts: `stride` added once per earlier row. */
  function Offset(i: nat, stride: nat): nat
  {
    if i == 0 then 0 else Offset(i - 1, stride) + stride
  }

  /** The start of row `i` is `i * stride`. */
  lemma {:induction false} OffsetIsProduct(i: nat, stride: nat)
    ensures Offset(i, stride) == i * stride
  {
    if i > 0 {
      OffsetIsProduct(i - 1, stride);
      assert (i - 1) * stride + stride == i * stride;
    }
  }

  /** Rows start further along the further along they are. */
  lemma {:induction false} OffsetMonotone(i: nat, j: nat, stride: nat)
    requires i <= j
    ensures Offset(i, stride) <= Offset(j, stride)
    decreases j
  {
    if i < j {
      OffsetMonotone(i, j - 1, stride);
    }
  }

  /** The offsets of the first `n` rows, in order. */
  function Visited(n: nat, stride: nat): (offsets: seq<nat>)
    ensures |offsets| == n
  {
    if n == 0 then [] else Visited(n - 1, stride) + [Offset(n - 1, stride)]
  }

  /** The offsets of `n` rows are 0, stride, 2 * stride, ..., each one
      stride past the one before, all strictly below the end of the last
      row. */
  lemma {:induction false} VisitedOffsets(n: nat, stride: nat, k: nat)
    requires k < n
    ensures Visited(n, stride)[k] == k * stride
    ensures k > 0 ==> Visited(n, stride)[k] == Visited(n, stride)[k - 1] + stride
    ensures stride > 0 ==> Visited(n, stride)[k] < Offset(n, stride)
  {
    if k < n - 1 {
      VisitedOffsets(n - 1, stride, k);
    } else {
      OffsetIsProduct(k, stride);
      OffsetMonotone(k, n - 1, stride);
      if k > 0 {
        assert Visited(n, stride)[k - 1] == Visited(n - 1, stride)[k - 1];
        VisitedOffsets(n - 1, stride, k - 1);
        OffsetIsProduct(k - 1, stride);
      }
    }
  }

  /** Row `i` of a flat sequence cut at `stride`. */
  function Row(data: seq<real>, stride: nat, i: nat): (row: seq<real>)
    requires Offset(i + 1, stride) <= |data|
    ensures |row| == stride
  {
    data[Offset(i, stride)..Offset(i, stride) + stride]
  }

  /** The box made of one row, the leading field skipped: the class and the
      score are copied. */
  function DecodeRow(row: seq<real>, s: Scale): (b: Box)
    requires |row| >= 7
    ensures b.classId == row[5] && b.probability == row[6]
  {
    var fields := row[1..];
    var x0, y0, x1, y1 := fields[0], fields[1], fields[2], fields[3];
    var classId, score := fields[4], fields[5];
    var w, h := x1 - x0, y1 - y0;
    Box(classId, score,
        Rect(x0 * s.xRatio * s.xRatio1, y0 * s.yRatio * s.yRatio1,
             w * s.xRatio * s.xRatio1, h * s.yRatio * s.yRatio1))
  }

  /** The box's corners are the row's corners `(x0, y0)` and `(x1, y1)`,
      each rescaled by the letterbox ratio times the display ratio: the width
      and height taken between the corners are rescaled the same way. */
  lemma DecodeRowCorners(row: seq<real>, s: Scale)
    requires |row| >= 7
    ensures var b := DecodeRow(row, s).bounding;
            b.x == row[1] * s.xRatio * s.xRatio1 &&
            b.y == row[2] * s.yRatio * s.yRatio1 &&
            b.x + b.width == row[3] * s.xRatio * s.xRatio1 &&
            b.y + b.height == row[4] * s.yRatio * s.yRatio1
  {
  }

  /** The boxes of the rows of `data`, in row order: the specification of
      the decoding loop. */
  function DecodeAll(data: seq<real>, stride: nat, s: Scale): seq<Box>
    requires stride >= 7
    decreases |data|
  {
    if |data| < stride then []
    else [DecodeRow(data[..stride], s)] + DecodeAll(data[stride..], stride, s)
  }

  /** A flat sequence of `m` whole rows decodes to exactly `m` boxes. */
  lemma {:induction false} DecodeAllLength(data: seq<real>, stride: nat, m: nat, s: Scale)
    requires stride >= 7 && |data| == Offset(m, stride)
    ensures |DecodeAll(data, stride, s)| == m
    decreases m
  {
    if m > 0 {
      DecodeAllLength(data[stride..], stride, m - 1, s);
    }
  }

  /** Box `i` is the box of row `i`: one box per row, in order. */
  lemma {:induction false} DecodeAllAt(data: seq<real>, stride: nat, s: Scale, i: nat)
    requires stride >= 7 && Offset(i + 1, stride) <= |data|
    ensures i < |DecodeAll(data, stride, s)|
    ensures DecodeAll(data, stride, s)[i] == DecodeRow(Row(data, stride, i), s)
    decreases i
  {
    OffsetMonotone(1, i + 1, stride);
    if i > 0 {
      var rest := data[stride..];
      DecodeAllAt(rest, stride, s, i - 1);
      var o := Offset(i - 1, stride);
      assert Offset(i, stride) == o + stride;
      assert rest[o..o + stride] == data[o + stride..o + stride + stride];
      assert Row(rest, stride, i - 1) == Row(data, stride, i);
    }
  }

  /** The boxes decoded before offset `r`, followed by the box of the row at
      `r`, are the boxes decoded before the next offset. */
  lemma DecodeAllStep(data: seq<real>, stride: nat, s: Scale, r: nat, boxes: seq<Box>, box: Box)
    requires stride >= 7 && r + stride <= |data|
    requires boxes + DecodeAll(data[r..], stride, s) == DecodeAll(data, stride, s)
    requires box == DecodeRow(data[r..r + stride], s)
    ensures (boxes + [box]) + DecodeAll(data[r + stride..], stride, s) == DecodeAll(data, stride, s)
  {
    assert data[r..][..stride] == data[r..r + stride];
    assert data[r..][stride..] == data[r + stride..];
  }

  /** The number of rows of a well-shaped output: the output is exactly that
      many rows of `dims[1]` fields. */
  function RowCount(t: OutputTensor): (n: nat)
    requires WellShaped(t)
    ensures Offset(n, t.dims[1]) == |t.data|
  {
    var stride := t.dims[1];
    assert t.dims[1..][1..] == t.dims[2..];
    assert Product(t.dims) == t.dims[0] * Product(t.dims[1..]);
    assert Product(t.dims[1..]) == stride * Product(t.dims[2..]);
    ProductOfNats(t.dims[2..]);
    var n: nat := t.dims[0] * Product(t.dims[2..]);
    OffsetIsProduct(n, stride);
    n
  }

  /** The body of the decoding loop for the row at offset `r`: it slices the
      row, reads `x0, y0, x1, y1, classId, score` after the leading field and
      builds the box of that row. The fields are those at `r + 1` to `r + 6`
      of the whole output, and the box is the row's `DecodeRow`. */
  method DecodeRowAt(output: seq<real>, r: nat, stride: nat, s: Scale) returns (box: Box)
    requires stride >= 7 && r + stride <= |output|
    ensures box.classId == output[r + 5] && box.probability == output[r + 6]
    ensures box.bounding.x == output[r + 1] * s.xRatio * s.xRatio1
    ensures box.bounding.y == output[r + 2] * s.yRatio * s.yRatio1
    ensures box.bounding.x + box.bounding.width == output[r + 3] * s.xRatio * s.xRatio1
    ensures box.bounding.y + box.bounding.height == output[r + 4] * s.yRatio * s.yRatio1
    ensures box == DecodeRow(output[r..r + stride], s)
  {
    var data := output[r..r + stride];
    var x0, y0, x1, y1 := data[1..][0], data[1..][1], data[1..][2], data[1..][3];
    var classId, score := data[1..][4], data[1..][5];
    var w, h := x1 - x0, y1 - y0;
    box := Box(classId, score,
               Rect(x0 * s.xRatio * s.xRatio1, y0 * s.yRatio * s.yRatio1,
                    w * s.xRatio * s.xRatio1, h * s.yRatio * s.yRatio1));
  }

  /** The decoding loop over `output.data` cut at `stride = output.dims[1]`
      (the `for` loop of step 3): `r` runs over 0, stride, 2 * stride, ...
      strictly below `size`; each row yields one box, pushed in row order.
      `offsets` records the values of `r` the loop visits. `rows` is the
      number of whole rows the data holds. */
  method DecodeLoop(output: seq<real>, stride: nat, ghost rows: nat, s: Scale)
    returns (boxes: seq<Box>, ghost offsets: seq<nat>)
    requires stride >= 7 && |output| == Offset(rows, stride)
    ensures boxes == DecodeAll(output, stride, s)
    ensures |boxes| == rows && offsets == Visited(rows, stride)
  {
    var size := |output|;
    boxes, offsets := [], [];
    var r := 0;
    ghost var i: nat := 0;
    while r < size
      invariant i <= rows && r == Offset(i, stride) && r <= size
      invariant boxes + DecodeAll(output[r..], stride, s) == DecodeAll(output, stride, s)
      invariant |boxes| == i && offsets == Visited(i, stride)
      decreases size - r
    {
      if i == rows {
        assert false;
      }
      OffsetMonotone(i + 1, rows, stride);
      var box := DecodeRowAt(output, r, stride, s);
      DecodeAllStep(output, stride, s, r, boxes, box);
      boxes := boxes + [box];
      offsets := offsets + [r];
      r, i := r + stride, i + 1;
    }
    if i < rows {
      OffsetMonotone(i + 1, rows, stride);
    }
  }

  /** Decoding a well-shaped output tensor yields exactly one box per row. */
  method Decode(output: OutputTensor, s: Scale) returns (boxes: seq<Box>)
    requires WellShaped(output)
    ensures boxes == DecodeAll(output.data, output.dims[1], s)
    ensures |boxes| == RowCount(output)
  {
    var rows := RowCount(output);
    ghost var offsets;
    boxes, offsets := DecodeLoop(output.data, output.dims[1], rows, s);
    DecodeAllLength(output.data, output.dims[1], rows, s);
  }

  /** Box `i` reads the fields of row `i` at `o + 1` to `o + 6`, where
      `o = Offset(i, stride)` is `i * stride`: its class
      and score are copied and its corners are the row's corners rescaled. */
  lemma BoxOfRow(data: seq<real>, stride: nat, s: Scale, i: nat)
    requires stride >= 7 && Offset(i + 1, stride) <= |data|
    ensures Offset(i, stride) == i * stride
    ensures var o := Offset(i, stride);
            var boxes := DecodeAll(data, stride, s);
            i < |boxes| && o + 6 < |data| &&
            boxes[i].classId == data[o + 5] &&
            boxes[i].probability == data[o + 6] &&
            boxes[i].bounding.x == data[o + 1] * s.xRatio * s.xRatio1 &&
            boxes[i].bounding.y == data[o + 2] * s.yRatio * s.yRatio1 &&
            boxes[i].bounding.x + boxes[i].bounding.width == data[o + 3] * s.xRatio * s.xRatio1 &&
            boxes[i].bounding.y + boxes[i].bounding.height == data[o + 4] * s.yRatio * s.yRatio1
  {
    OffsetIsProduct(i, stride);
    DecodeAllAt(data, stride, s, i);
    DecodeRowCorners(Row(data, stride, i), s);
  }

  /** Every row of a well-shaped output is whole: row `i` below the row count
      ends inside the data. */
  lemma RowsInside(output: OutputTensor, i: nat)
    requires WellShaped(output) && i < RowCount(output)
    ensures Offset(i + 1, output.dims[1]) <= |output.data|
  {
    OffsetMonotone(i + 1, RowCount(output), output.dims[1]);
  }

  /** The whole pipeline's rescaling undoes the letterbox: when the canvas has
      the image's own size (as `image.onload` sets it), a point of the image
      taken to model space by the resize of the padded square and decoded
      back lands where it started, on both axes. */
  lemma DecodeInvertsLetterbox(rows: nat, cols: nat, px: real, py: real)
    requires rows > 0 && cols > 0
    ensures var g := LetterboxGeometry(rows, cols);
            var s := Scale(g.xRatio, g.yRatio, DisplayRatio(cols), DisplayRatio(rows));
            ToModelSpace(px, g.maxSize, 640) * s.xRatio * s.xRatio1 == px &&
            ToModelSpace(py, g.maxSize, 640) * s.yRatio * s.yRatio1 == py
  {
  }

  /** A row with corners (0, 0) and (100, 50), letterbox ratios 2 and 1 and
      display ratios 1 decodes to the box (0, 0, 200, 50). */
  lemma ExampleRow(classId: real, score: real)
    ensures DecodeRow([0.0, 0.0, 0.0, 100.0, 50.0, classId, score], Scale(2.0, 1.0, 1.0, 1.0))
            == Box(classId, score, Rect(0.0, 0.0, 200.0, 50.0))
  {
  }
}
