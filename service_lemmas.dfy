/** Properties of `ImageService.convert`: the order of its steps, what each failure stops,
    how failures surface, and what reaches the output stream. */
module ServiceLemmas {
  import opened Wrappers
  import opened Text
  import opened Exceptions
  import opened Imaging
  import T = Trace
  import opened Util
  import UtilLemmas
  import opened Service

  /** Decoding and writing make the steps of the fixed order from the read of the image on,
      none skipped or repeated, up to the one that throws. */
  lemma ConvertImageInPipelineOrder(s: ImageService, data: Bytes, targetFormat: string)
    ensures var run := s.ConvertImageRun(data, targetFormat);
      1 <= |run.steps| <= T.FullLength - 4 && T.InPipelineOrder(run.steps, 4)
  {
    var u := s.imageUtils;
    if u.ReadImageResult(data).Success? {
      var image := u.ReadImageResult(data).value;
      UtilLemmas.WriteImageInPipelineOrder(u, image, targetFormat);
      T.InPipelineOrderAppend([T.ReadImage(data), T.WriteImage(image, targetFormat)],
                              u.WriteImageRun(image, targetFormat).steps, 4);
    }
  }

  /** A conversion makes the steps of the fixed order, from the start, none skipped or
      repeated, up to the one that throws; it always buffers and checks the target. */
  lemma ConvertInPipelineOrder(s: ImageService, data: Bytes, targetFormat: Option<string>)
    ensures var run := s.ConvertRun(data, targetFormat);
      2 <= |run.steps| <= T.FullLength && T.InPipelineOrder(run.steps, 0)
  {
    var u := s.imageUtils;
    if u.ValidateWriteableFormat(targetFormat).Pass? && u.GetImageFormat(data).Success? {
      var format := u.GetImageFormat(data).value;
      if u.ValidateReadableFormat(Some(format)).Pass? {
        var checkSource := [T.ReadAllBytes, T.ValidateWriteableFormat(targetFormat),
                            T.GetImageFormat(data), T.ValidateReadableFormat(Some(format))];
        var convert := s.ConvertImageRun(data, targetFormat.value);
        ConvertImageInPipelineOrder(s, data, targetFormat.value);
        T.InPipelineOrderAppend(checkSource, convert.steps, 0);
        assert s.ConvertRun(data, targetFormat).steps == checkSource + convert.steps;
      }
    }
  }

  /** What the third, fifth and sixth steps of a conversion carry: the buffered bytes, and
      the raster decoded from them with the requested target. */
  lemma ConvertStepsCarryBufferedBytes(s: ImageService, data: Bytes, targetFormat: Option<string>)
    ensures var run := s.ConvertRun(data, targetFormat);
      |run.steps| > 2 ==> run.steps[2] == T.GetImageFormat(data)
    ensures var run := s.ConvertRun(data, targetFormat);
      |run.steps| > 4 ==> run.steps[4] == T.ReadImage(data)
    ensures var run := s.ConvertRun(data, targetFormat);
      |run.steps| > 5 ==>
        && targetFormat.Some?
        && s.imageUtils.ReadImageResult(data).Success?
        && run.steps[5] == T.WriteImage(s.imageUtils.ReadImageResult(data).value, targetFormat.value)
  {
  }

  /** The input is read once, first; format detection and decoding each get exactly the
      buffered bytes. */
  lemma ConvertBuffersOnce(s: ImageService, data: Bytes, targetFormat: Option<string>)
    ensures var run := s.ConvertRun(data, targetFormat);
      |run.steps| > 0 && run.steps[0] == T.ReadAllBytes &&
      forall i :: 0 < i < |run.steps| ==> !run.steps[i].ReadAllBytes?
    ensures var run := s.ConvertRun(data, targetFormat);
      forall i :: 0 <= i < |run.steps| && run.steps[i].GetImageFormat? ==> run.steps[i].data == data
    ensures var run := s.ConvertRun(data, targetFormat);
      forall i :: 0 <= i < |run.steps| && run.steps[i].ReadImage? ==> run.steps[i].data == data
  {
    ConvertInPipelineOrder(s, data, targetFormat);
    ConvertStepsCarryBufferedBytes(s, data, targetFormat);
  }

  /** The target check runs first: if it fails, nothing is detected, decoded or written. */
  lemma ConvertChecksTargetFirst(s: ImageService, data: Bytes, targetFormat: Option<string>)
    requires s.imageUtils.ValidateWriteableFormat(targetFormat).Fail?
    ensures s.ConvertRun(data, targetFormat) ==
      T.Run(Fail(Wrapped(s.imageUtils.ValidateWriteableFormat(targetFormat).error)),
            [T.ReadAllBytes, T.ValidateWriteableFormat(targetFormat)], [])
  {
  }

  /** A target the registry does not hold fails the conversion with the writeable check's
      `WriteFileException` as cause, before anything else runs. */
  lemma ConvertRejectsUnwriteableTarget(s: ImageService, data: Bytes, format: string)
    requires Lower(format) !in s.imageUtils.writeableFormats
    ensures var run := s.ConvertRun(data, Some(format));
      && run.outcome.Fail?
      && run.outcome.error.cause.Some?
      && run.outcome.error.cause.value.kind == WriteFileException
      && run.outcome.error.cause.value.IsConvertException()
      && run.outcome.error.cause.value.message ==
           (if s.imageUtils.writeableFormats == {} then NoWriteableFormats else UnsupportedForWriting + format)
      && run.steps == [T.ReadAllBytes, T.ValidateWriteableFormat(Some(format))]
      && run.written == []
  {
  }

  /** The detected format is checked before decoding: if that check fails, nothing is
      decoded or written, and the check's exception is the cause. */
  lemma ConvertChecksSourceBeforeDecoding(s: ImageService, data: Bytes, targetFormat: Option<string>)
    requires s.imageUtils.ValidateWriteableFormat(targetFormat).Pass?
    requires s.imageUtils.GetImageFormat(data).Success?
    requires s.imageUtils.ValidateReadableFormat(Some(s.imageUtils.GetImageFormat(data).value)).Fail?
    ensures var format := s.imageUtils.GetImageFormat(data).value;
      s.ConvertRun(data, targetFormat) ==
        T.Run(Fail(Wrapped(s.imageUtils.ValidateReadableFormat(Some(format)).error)),
              [T.ReadAllBytes, T.ValidateWriteableFormat(targetFormat), T.GetImageFormat(data),
               T.ValidateReadableFormat(Some(format))], [])
    ensures var run := s.ConvertRun(data, targetFormat);
      run.outcome.Fail? && run.outcome.error.cause.Some? &&
      run.outcome.error.cause.value.kind == ReadFileException &&
      run.outcome.error.cause.value.IsConvertException()
  {
  }

  /** Decoding happens only after both checks have passed on the detected format. */
  lemma ConvertDecodesOnlyCheckedInput(s: ImageService, data: Bytes, targetFormat: Option<string>)
    ensures var run := s.ConvertRun(data, targetFormat);
      var u := s.imageUtils;
      (exists i :: 0 <= i < |run.steps| && run.steps[i].ReadImage?) ==>
        && u.ValidateWriteableFormat(targetFormat).Pass?
        && u.GetImageFormat(data).Success?
        && u.ValidateReadableFormat(Some(u.GetImageFormat(data).value)).Pass?
        && run.steps[3] == T.ValidateReadableFormat(Some(u.GetImageFormat(data).value))
  {
    ConvertInPipelineOrder(s, data, targetFormat);
  }

  /** `writeImage` gets the decoded raster and the requested target format, and only its
      final `write` call reaches the output: a conversion that leaves bytes behind made all
      twelve steps, and if it failed, it failed with the `IOException` of that call. */
  lemma ConvertWritesDecodedImage(s: ImageService, data: Bytes, targetFormat: Option<string>)
    ensures var run := s.ConvertRun(data, targetFormat);
      forall i :: 0 <= i < |run.steps| && run.steps[i].WriteImage? ==>
        && targetFormat.Some?
        && s.imageUtils.ReadImageResult(data).Success?
        && run.steps[i] == T.WriteImage(s.imageUtils.ReadImageResult(data).value, targetFormat.value)
    ensures var run := s.ConvertRun(data, targetFormat);
      run.written != [] ==> |run.steps| == T.FullLength && run.steps[T.FullLength - 1].Write?
    ensures var run := s.ConvertRun(data, targetFormat);
      run.outcome.Fail? && run.written != [] ==>
        run.outcome.error.cause.Some? && run.outcome.error.cause.value.kind == IOException
  {
    ConvertInPipelineOrder(s, data, targetFormat);
    ConvertStepsCarryBufferedBytes(s, data, targetFormat);
  }

  /** Whatever is thrown inside the `try` block reaches the caller as one
      `ConvertException("Error during image conversion")` whose cause is the original. */
  lemma ConvertWrapsEveryFailure(s: ImageService, data: Bytes, targetFormat: Option<string>)
    ensures var run := s.ConvertRun(data, targetFormat);
      var attempt := s.TryConvert(data, targetFormat);
      && (run.outcome.Fail? <==> attempt.outcome.Fail?)
      && (run.outcome.Fail? ==>
            && run.outcome.error.kind == ConvertException
            && run.outcome.error.message == ConversionFailed
            && run.outcome.error.cause == Some(attempt.outcome.error))
      && run.steps == attempt.steps && run.written == attempt.written
  {
  }

  /** A conversion succeeds exactly when every step does; it then runs all twelve steps and
      the output receives the encoding of the normalised decoded raster. */
  lemma ConvertSucceeds(s: ImageService, data: Bytes, targetFormat: Option<string>)
    ensures var run := s.ConvertRun(data, targetFormat);
      var u := s.imageUtils;
      run.outcome.Pass? <==>
        && u.ValidateWriteableFormat(targetFormat).Pass?
        && u.GetImageFormat(data).Success?
        && u.ValidateReadableFormat(Some(u.GetImageFormat(data).value)).Pass?
        && u.ReadImageResult(data).Success?
        && u.WriteImageRun(u.ReadImageResult(data).value, targetFormat.value).outcome.Pass?
    ensures var run := s.ConvertRun(data, targetFormat);
      var u := s.imageUtils;
      run.outcome.Pass? ==>
        && |run.steps| == T.FullLength
        && targetFormat.Some?
        && u.ReadImageResult(data).Success?
        && var writers := u.io.writersByFormatName(targetFormat.value);
           var image := Normalize(u.ReadImageResult(data).value);
           && |writers| > 0
           && run.written == writers[0].encode(image, writers[0].defaultWriteParam).bytes
  {
  }

  /** A 10x10 PNG with transparency converted to "jpeg": the conversion succeeds and the
      encoder is handed a 10x10 raster without alpha, drawn from the decoded pixels. */
  lemma ConvertTransparentPngToJpeg(s: ImageService, data: Bytes, pixels: Pixels)
    requires s.imageUtils.io.probe(data) == Readers(["png"])
    requires s.imageUtils.io.read(data) == Decoded(RasterView(10, 10, true, pixels))
    requires "png" in s.imageUtils.readableFormats && "jpeg" in s.imageUtils.writeableFormats
    requires |s.imageUtils.io.writersByFormatName("jpeg")| > 0
    requires s.imageUtils.io.wrapOutput.Wraps?
    requires var w := s.imageUtils.io.writersByFormatName("jpeg")[0];
      w.encode(RasterView(10, 10, false, DrawnOver(Blank, pixels)), w.defaultWriteParam).Encoded?
    ensures var run := s.ConvertRun(data, Some("jpeg"));
      var w := s.imageUtils.io.writersByFormatName("jpeg")[0];
      && run.outcome == Pass
      && run.steps[11] == T.Write(RasterView(10, 10, false, DrawnOver(Blank, pixels)), w.defaultWriteParam)
  {
    assert Lower("png") == "png";
    assert Lower("jpeg") == "jpeg";
    ConvertInPipelineOrder(s, data, Some("jpeg"));
  }

  /** Bytes no reader claims, target "png": the conversion fails with the detector's
      `IOException` as cause, and nothing is decoded or written. That cause is not a
      `ConvertException`, so only a `catch` of every exception turns it into one. */
  lemma ConvertUnrecognizedInput(s: ImageService, data: Bytes)
    requires s.imageUtils.io.probe(data) == Readers([])
    requires "png" in s.imageUtils.writeableFormats
    ensures s.ConvertRun(data, Some("png")) ==
      T.Run(Fail(Wrapped(IOError(UnsupportedImageFormat))),
            [T.ReadAllBytes, T.ValidateWriteableFormat(Some("png")), T.GetImageFormat(data)], [])
    ensures var run := s.ConvertRun(data, Some("png"));
      run.outcome.Fail? && run.outcome.error.cause.Some? && !run.outcome.error.cause.value.IsConvertException()
  {
    assert Lower("png") == "png";
  }

  /** The writer throwing mid-write: the conversion fails with the writer's `IOException` as
      cause, after all twelve steps, and the output keeps exactly what was streamed before. */
  lemma ConvertWriteFailure(s: ImageService, data: Bytes, targetFormat: Option<string>,
                            partial: Bytes, message: string)
    requires s.imageUtils.ValidateWriteableFormat(targetFormat).Pass?
    requires s.imageUtils.GetImageFormat(data).Success?
    requires s.imageUtils.ValidateReadableFormat(Some(s.imageUtils.GetImageFormat(data).value)).Pass?
    requires s.imageUtils.ReadImageResult(data).Success?
    requires |s.imageUtils.io.writersByFormatName(targetFormat.value)| > 0
    requires s.imageUtils.io.wrapOutput.Wraps?
    requires var w := s.imageUtils.io.writersByFormatName(targetFormat.value)[0];
      w.encode(Normalize(s.imageUtils.ReadImageResult(data).value), w.defaultWriteParam) ==
        EncodeFailed(partial, message)
    ensures var run := s.ConvertRun(data, targetFormat);
      && run.outcome == Fail(Wrapped(IOError(message)))
      && |run.steps| == T.FullLength
      && run.written == partial
  {
  }
}
