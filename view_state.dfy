/** The `App` component's state: the chosen file, the inference session and
    the five-valued view state, with the event handlers that update them and
    the guards that enable the two buttons. */
module ViewState {
  import opened Options
  import opened Letterbox
  import opened Decoder
  import opened Classes

  datatype View = Initial | Preview | Processing | Result | Error

  /** An uploaded file; only its MIME type matters here. */
  datatype File = File(name: string, mimeType: string)

  /** The ratios the `image.onload` callback hands to the decoder for an
      image of `width` by `height` pixels: the canvas is given the image's
      size, so `xRatio1 = width / 640` and `yRatio1 = height / 640`; the
      letterbox ratios come from `preprocessing` at the model's input size. */
  function OnloadScale(width: nat, height: nat): Scale
    requires width > 0 && height > 0
  {
    var p := Preprocessing(height, width, ModeInputShape[2], ModeInputShape[3]);
    Scale(p.xRatio, p.yRatio, DisplayRatio(width), DisplayRatio(height))
  }

  /** Both axes are rescaled by the same factor, the square side over 640:
      the pipeline keeps the image's aspect ratio. */
  lemma OnloadScaleUniform(width: nat, height: nat)
    requires width > 0 && height > 0
    ensures var s := OnloadScale(width, height);
            s.xRatio * s.xRatio1 == Max(height, width) as real / 640.0 &&
            s.yRatio * s.yRatio1 == Max(height, width) as real / 640.0
  {
    var p := Preprocessing(height, width, ModeInputShape[2], ModeInputShape[3]);
    var m := Max(height, width) as real;
    DisplayRescale(p.xRatio, width as real, m);
    DisplayRescale(p.yRatio, height as real, m);
  }

  /** A ratio that takes a side to the square side, times the side over 640,
      is the square side over 640. */
  lemma DisplayRescale(ratio: real, side: real, m: real)
    requires ratio * side == m
    ensures ratio * (side / 640.0) == m / 640.0
  {
  }

  class App {
    var file: Option<File>
    var session: bool
    var viewState: View

    /** The states the handlers can reach: `error` is never set, a file is
        only ever a JPEG, the view leaves `initial` exactly when a file is
        taken, and processing needs a session. */
    ghost predicate Valid()
      reads this
    {
      viewState != Error &&
      (file.Some? ==> file.value.mimeType == "image/jpeg") &&
      (viewState == Initial <==> file.None?) &&
      (viewState == Processing || viewState == Result ==> session)
    }

    /** `allowUpload = !!session` */
    predicate AllowUpload()
      reads this
    {
      session
    }

    /** `allowSubmit = allowUpload && !!file && viewState !== "processing"` */
    predicate AllowSubmit()
      reads this
    {
      AllowUpload() && file.Some? && viewState != Processing
    }

    /** `submitLoading = !session`: the submit button shows a spinner. */
    predicate SubmitLoading()
      reads this
    {
      !session
    }

    /** `showPreview`: the preview is shown while previewing, and while
        processing when there is a file to show. */
    predicate ShowPreview()
      reads this
    {
      viewState == Preview || (viewState == Processing && file.Some?)
    }

    constructor ()
      ensures Valid()
      ensures file == None && !session && viewState == Initial
    {
      file := None;
      session := false;
      viewState := Initial;
    }

    /** The OpenCV runtime-ready callback: create the session, run it once on
        a zero-filled tensor of `reduce` of the input shape, then store it.
        `created` is false when the creation or the warm-up threw, and then
        nothing is stored. */
    method OnRuntimeInitialized(created: bool) returns (warmupLength: int)
      requires Valid()
      modifies this
      ensures Valid()
      ensures warmupLength == Product(ModeInputShape)
      ensures session == (old(session) || created)
      ensures file == old(file) && viewState == old(viewState)
    {
      warmupLength := WarmupLength();
      if created {
        session := true;
      }
    }

    /** `onFileChange`: only a first file of type `image/jpeg` is taken, and
        it moves the view to the preview. */
    method OnFileChange(files: seq<File>)
      requires Valid()
      modifies this
      ensures Valid()
      ensures session == old(session)
      ensures |files| > 0 && files[0].mimeType == "image/jpeg" ==>
                file == Some(files[0]) && viewState == Preview
      ensures !(|files| > 0 && files[0].mimeType == "image/jpeg") ==>
                file == old(file) && viewState == old(viewState)
    {
      var f := if |files| > 0 then Some(files[0]) else None;
      if f.Some? && f.value.mimeType == "image/jpeg" {
        viewState := Preview;
        file := f;
      }
    }

    /** `submitAnalize` up to the point where it waits for the image to load:
        it goes on only with a file, a session and a canvas with a 2D
        context (`canvasReady`), and then moves the view to processing. It
        does not look at the view state itself; the disabled button does. */
    method SubmitAnalize(canvasReady: bool) returns (started: bool)
      requires Valid()
      modifies this
      ensures Valid()
      ensures started <==> old(file).Some? && old(session) && canvasReady
      ensures old(AllowSubmit()) && canvasReady ==> started
      ensures started ==> viewState == Processing && !AllowSubmit() && ShowPreview()
      ensures !started ==> viewState == old(viewState)
      ensures file == old(file) && session == old(session)
    {
      if file.None? || !session || !canvasReady {
        return false;
      }
      viewState := Processing;
      started := true;
    }

    /** The `image.onload` callback for an image of `width` by `height`
        pixels. `ran` says whether `preprocessing` and `session.run` both
        returned; when either throws, nothing is decoded or drawn and the
        view is left as it was. Otherwise, given the detector's `output`:
        decode with the letterbox and display ratios, draw, and move the view
        to the result. If a box's class is not in the table the drawing
        throws and the view is left as it was. The callback is only installed
        by a submit that went on, so there is a file and a session. The
        source divides by both sizes unchecked, so both must be positive. */
    method OnImageLoad(width: nat, height: nat, ran: bool, output: OutputTensor)
      returns (boxes: seq<Box>, drawn: seq<Overlay>)
      requires Valid() && file.Some? && session
      requires width > 0 && height > 0
      requires ran ==> WellShaped(output)
      modifies this
      ensures Valid()
      ensures !ran ==> boxes == [] && drawn == [] && viewState == old(viewState)
      ensures ran ==> boxes == DecodeAll(output.data, output.dims[1], OnloadScale(width, height))
      ensures ran ==> |boxes| == RowCount(output)
      ensures drawn == Drawn(boxes)
      ensures ran ==> viewState == if AllKnown(boxes) then Result else old(viewState)
      ensures file == old(file) && session == old(session)
    {
      var xRatio1 := DisplayRatio(width);
      var yRatio1 := DisplayRatio(height);
      if !ran {
        return [], [];
      }
      var modelWidth, modelHeight := ModeInputShape[2], ModeInputShape[3];
      var input := Preprocessing(height, width, modelWidth, modelHeight);
      InferenceTensorMatchesShape(height, width);
      assert input.inputLength == Product(ModeInputShape);
      boxes := Decode(output, Scale(input.xRatio, input.yRatio, xRatio1, yRatio1));
      var completed;
      drawn, completed := Render(boxes);
      if completed {
        viewState := Result;
      }
    }
  }

  /** A session that is ready and a JPEG that was taken enable the submit
      button, and a submit with a canvas then goes on. */
  method UploadThenSubmit(jpeg: File) returns (started: bool)
    requires jpeg.mimeType == "image/jpeg"
    ensures started
  {
    var app := new App();
    var _ := app.OnRuntimeInitialized(true);
    assert app.AllowUpload();
    app.OnFileChange([jpeg]);
    assert app.AllowSubmit() && app.ShowPreview();
    started := app.SubmitAnalize(true);
    assert app.viewState == Processing && !app.AllowSubmit();
  }
}
