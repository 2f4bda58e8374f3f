/** Properties of `ImageUtil`: the format checks and the order of the steps of `writeImage`. */
module UtilLemmas {
  import opened Wrappers
  import opened Text
  import opened Exceptions
  import opened Imaging
  import T = Trace
  import opened Util

  /** The fixed whitelist: case-insensitive, and the message keeps the caller's spelling. */
  lemma ValidateImageFormatExamples(u: ImageUtil)
    ensures u.ValidateImageFormat("PNG") == Pass
    ensures u.ValidateImageFormat("Tiff") == Pass
    ensures u.ValidateImageFormat("jpg") == Pass
    ensures u.ValidateImageFormat("WEBP") == Fail(ConvertError("Invalid format: WEBP"))
  {
    assert Lower("PNG") == "png";
    assert Lower("Tiff") == "tiff";
    assert Lower("jpg") == "jpg";
    assert Lower("WEBP") == "webp";
    assert "webp" !in u.supportedFormats by {
      assert "webp"[0] == 'w';
    }
    assert "Invalid format: " + "WEBP" == "Invalid format: WEBP";
  }

  /** Two spellings of one name are accepted or rejected together, by every check. */
  lemma ValidatorsIgnoreCase(u: ImageUtil, a: string, b: string)
    requires Lower(a) == Lower(b)
    ensures u.ValidateImageFormat(a).Pass? == u.ValidateImageFormat(b).Pass?
    ensures u.ValidateReadableFormat(Some(a)).Pass? == u.ValidateReadableFormat(Some(b)).Pass?
    ensures u.ValidateWriteableFormat(Some(a)).Pass? == u.ValidateWriteableFormat(Some(b)).Pass?
  {
  }

  /** A format the imaging subsystem registers, in any spelling, passes the registry check
      of a freshly built `ImageUtil`. */
  lemma RegisteredFormatsAccepted(u: ImageUtil, name: string, format: string)
    requires u.readableFormats == LowerAll(u.io.readerFormatNames)
    requires u.writeableFormats == LowerAll(u.io.writerFormatNames)
    requires Lower(format) == Lower(name)
    ensures name in u.io.readerFormatNames ==> u.ValidateReadableFormat(Some(format)) == Pass
    ensures name in u.io.writerFormatNames ==> u.ValidateWriteableFormat(Some(format)) == Pass
  {
    if name in u.io.readerFormatNames {
      assert Lower(name) in LowerAll(u.io.readerFormatNames);
    }
    if name in u.io.writerFormatNames {
      assert Lower(name) in LowerAll(u.io.writerFormatNames);
    }
  }

  /** With no writer for the format, `writeImage` stops after the lookup: no alpha removal,
      no output stream, nothing written. */
  lemma WriteImageLookupFirst(u: ImageUtil, image: RasterView, targetFormat: string)
    requires u.io.writersByFormatName(targetFormat) == []
    ensures u.WriteImageRun(image, targetFormat) ==
      T.Run(Fail(ConvertError("No writer found for the format: " + targetFormat)), [T.GetImageWriter(targetFormat)], [])
  {
  }

  /** The steps of `writeImage` are the last six of the pipeline, in order, up to the one
      that throws. */
  lemma WriteImageInPipelineOrder(u: ImageUtil, image: RasterView, targetFormat: string)
    ensures var run := u.WriteImageRun(image, targetFormat);
      1 <= |run.steps| <= 6 && T.InPipelineOrder(run.steps, 6)
  {
  }

  /** The one `write` call comes right after `setOutput`, which comes right after the stream
      is created, and it gets the normalised raster and the writer's default parameters. */
  lemma WriteImagePassesNormalizedImage(u: ImageUtil, image: RasterView, targetFormat: string)
    ensures var run := u.WriteImageRun(image, targetFormat);
      var writers := u.io.writersByFormatName(targetFormat);
      forall i :: 0 <= i < |run.steps| && run.steps[i].Write? ==>
        && i == 5 && |writers| > 0
        && run.steps[i] == T.Write(Normalize(image), writers[0].defaultWriteParam)
        && run.steps[4] == T.SetOutput && run.steps[3] == T.CreateImageOutputStream
    ensures var run := u.WriteImageRun(image, targetFormat);
      forall i :: 0 <= i < |run.steps| && run.steps[i].RemoveAlphaChannel? ==>
        i == 2 && run.steps[i].image == image
  {
  }

  /** `writeImage` succeeds exactly when a writer exists, the stream opens and the writer
      encodes the whole raster. Only the `write` call reaches the output: on success it
      receives the encoding of the normalised raster; when `write` throws an `IOException` it
      keeps what was streamed before the throw; every other failure leaves it untouched. */
  lemma WriteImageOutputOnlyFromWrite(u: ImageUtil, image: RasterView, targetFormat: string)
    ensures var run := u.WriteImageRun(image, targetFormat);
      var writers := u.io.writersByFormatName(targetFormat);
      run.outcome.Pass? <==>
        |writers| > 0 && u.io.wrapOutput.Wraps? &&
        writers[0].encode(Normalize(image), writers[0].defaultWriteParam).Encoded?
    ensures var run := u.WriteImageRun(image, targetFormat);
      var writers := u.io.writersByFormatName(targetFormat);
      run.outcome.Pass? ==>
        |run.steps| == 6 && |writers| > 0 &&
        run.written == writers[0].encode(Normalize(image), writers[0].defaultWriteParam).bytes
    ensures var run := u.WriteImageRun(image, targetFormat);
      var writers := u.io.writersByFormatName(targetFormat);
      |writers| > 0 && u.io.wrapOutput.Wraps? ==>
        match writers[0].encode(Normalize(image), writers[0].defaultWriteParam)
        case EncodeFailed(partial, m) =>
          run.outcome == Fail(IOError(m)) && |run.steps| == 6 && run.written == partial
        case Encoded(_) => true
    ensures var run := u.WriteImageRun(image, targetFormat);
      var writers := u.io.writersByFormatName(targetFormat);
      run.outcome.Fail? &&
      !(|writers| > 0 && u.io.wrapOutput.Wraps? &&
        writers[0].encode(Normalize(image), writers[0].defaultWriteParam).EncodeFailed?) ==>
        run.written == []
  {
  }
}
