/** `com.marco.service.ImageService`: the conversion pipeline and the capability listings. */
module Service {
  import opened Wrappers
  import opened Text
  import opened Exceptions
  import opened Imaging
  import T = Trace
  import opened Util

  const ConversionFailed := "Error during image conversion"

  /** What the `catch` block throws for any exception `e` raised inside the `try` block. */
  function Wrapped(e: Exception): (r: Exception)
    ensures r.IsConvertException() && r.kind == ConvertException
    ensures r.message == ConversionFailed && r.cause == Some(e)
  {
    Exception(ConvertException, ConversionFailed, Some(e))
  }

  class ImageService {
    const imageUtils: ImageUtil

    constructor (imageUtils: ImageUtil)
      ensures this.imageUtils == imageUtils
    {
      this.imageUtils := imageUtils;
    }

    /** The body of the `try` block of `convert`, on the buffered bytes `data`: check the
        target, detect and check the source format, decode, write. The first exception
        ends the run. */
    function TryConvert(data: Bytes, targetFormat: Option<string>): T.Run {
      var checkTarget := [T.ReadAllBytes, T.ValidateWriteableFormat(targetFormat)];
      var target := imageUtils.ValidateWriteableFormat(targetFormat);
      if target.Fail? then T.Run(target, checkTarget, [])
      else
        var detect := checkTarget + [T.GetImageFormat(data)];
        match imageUtils.GetImageFormat(data)
        case Failure(e) => T.Run(Fail(e), detect, [])
        case Success(format) =>
          var checkSource := detect + [T.ValidateReadableFormat(Some(format))];
          var source := imageUtils.ValidateReadableFormat(Some(format));
          if source.Fail? then T.Run(source, checkSource, [])
          else
            var convert := ConvertImageRun(data, targetFormat.value);
            T.Run(convert.outcome, checkSource + convert.steps, convert.written)
    }

    /** The last statement of the `try` block, `writeImage(readImage(data), targetFormat, out)`:
        decode a fresh stream over the buffered bytes and hand the raster to the writer. */
    function ConvertImageRun(data: Bytes, targetFormat: string): T.Run {
      match imageUtils.ReadImageResult(data)
      case Failure(e) => T.Run(Fail(e), [T.ReadImage(data)], [])
      case Success(image) =>
        var write := imageUtils.WriteImageRun(image, targetFormat);
        T.Run(write.outcome, [T.ReadImage(data), T.WriteImage(image, targetFormat)] + write.steps, write.written)
    }

    /** `convert` on the bytes the input stream holds: the `try` block, with every
        exception it raises wrapped by the `catch` block. */
    function ConvertRun(data: Bytes, targetFormat: Option<string>): T.Run {
      var attempt := TryConvert(data, targetFormat);
      var outcome := if attempt.outcome.Fail? then Fail(Wrapped(attempt.outcome.error)) else Pass;
      T.Run(outcome, attempt.steps, attempt.written)
    }

    /** The writer `convert` may reconfigure. */
    function ConvertFrame(targetFormat: Option<string>): set<ImageWriter> {
      if targetFormat.Some? then imageUtils.WriterFrame(targetFormat.value) else {}
    }

    /** `convert(inputStream, outputStream, targetFormat)`. */
    method Convert(inputStream: InputStream, outputStream: OutputStream, targetFormat: Option<string>)
      returns (r: Outcome<Exception>)
      modifies inputStream, outputStream, imageUtils.recorder, ConvertFrame(targetFormat)
      ensures var run := ConvertRun(old(inputStream.remaining), targetFormat);
        && r == run.outcome
        && imageUtils.recorder.steps == old(imageUtils.recorder.steps) + run.steps
        && outputStream.written == old(outputStream.written) + run.written
      ensures inputStream.remaining == []
    {
      var recorder := imageUtils.recorder;
      ghost var before := recorder.steps;
      recorder.steps := recorder.steps + [T.ReadAllBytes];
      var imageData := inputStream.ReadAllBytes();
      ghost var attempt := TryConvert(imageData, targetFormat);
      ghost var checkTarget := [T.ReadAllBytes, T.ValidateWriteableFormat(targetFormat)];
      recorder.steps := recorder.steps + [T.ValidateWriteableFormat(targetFormat)];
      assert recorder.steps == before + checkTarget;
      var target := imageUtils.ValidateWriteableFormat(targetFormat);
      if target.Fail? {
        return Fail(Wrapped(target.error));
      }
      ghost var detect := checkTarget + [T.GetImageFormat(imageData)];
      recorder.steps := recorder.steps + [T.GetImageFormat(imageData)];
      assert recorder.steps == before + detect;
      var format := imageUtils.GetImageFormat(imageData);
      if format.Failure? {
        return Fail(Wrapped(format.error));
      }
      ghost var checkSource := detect + [T.ValidateReadableFormat(Some(format.value))];
      recorder.steps := recorder.steps + [T.ValidateReadableFormat(Some(format.value))];
      assert recorder.steps == before + checkSource;
      var source := imageUtils.ValidateReadableFormat(Some(format.value));
      if source.Fail? {
        return Fail(Wrapped(source.error));
      }
      var converted := ConvertImage(imageData, targetFormat.value, outputStream);
      ghost var convert := ConvertImageRun(imageData, targetFormat.value);
      assert attempt == T.Run(convert.outcome, checkSource + convert.steps, convert.written);
      assert recorder.steps == before + attempt.steps;
      if converted.Fail? {
        return Fail(Wrapped(converted.error));
      }
      r := Pass;
    }

    /** `imageUtils.writeImage(imageUtils.readImage(new ByteArrayInputStream(imageData)),
        targetFormat, outputStream)`. */
    method ConvertImage(imageData: Bytes, targetFormat: string, outputStream: OutputStream)
      returns (r: Outcome<Exception>)
      modifies outputStream, imageUtils.recorder, imageUtils.WriterFrame(targetFormat)
      ensures var run := ConvertImageRun(imageData, targetFormat);
        && r == run.outcome
        && imageUtils.recorder.steps == old(imageUtils.recorder.steps) + run.steps
        && outputStream.written == old(outputStream.written) + run.written
    {
      var recorder := imageUtils.recorder;
      recorder.steps := recorder.steps + [T.ReadImage(imageData)];
      var image := imageUtils.ReadImage(imageData);
      if image.Failure? {
        return Fail(image.error);
      }
      recorder.steps := recorder.steps + [T.WriteImage(image.value.View(), targetFormat)];
      r := imageUtils.WriteImage(image.value, targetFormat, outputStream);
    }

    /** `getWriteableFormats`: the registry's writeable names, lower-cased, without duplicates. */
    function GetWriteableFormats(): (r: set<string>)
      ensures forall y :: y in r <==> exists x :: x in imageUtils.GetWriteableFormats() && Lower(x) == y
      ensures forall y :: y in r ==> IsLowerCase(y)
      ensures forall a, b :: a in r && b in r && Lower(a) == Lower(b) ==> a == b
      ensures r == {} <==> imageUtils.GetWriteableFormats() == {}
      ensures |r| <= |imageUtils.GetWriteableFormats()|
    {
      var names := imageUtils.GetWriteableFormats();
      LowerAllIsLowerCase(names);
      LowerAllNoCaseDuplicates(names);
      LowerAllEmpty(names);
      LowerAllSize(names);
      LowerAll(names)
    }

    /** `getReadableFormats`: the registry's readable names, lower-cased, without duplicates. */
    function GetReadableFormats(): (r: set<string>)
      ensures forall y :: y in r <==> exists x :: x in imageUtils.GetReadableFormats() && Lower(x) == y
      ensures forall y :: y in r ==> IsLowerCase(y)
      ensures forall a, b :: a in r && b in r && Lower(a) == Lower(b) ==> a == b
      ensures r == {} <==> imageUtils.GetReadableFormats() == {}
      ensures |r| <= |imageUtils.GetReadableFormats()|
    {
      var names := imageUtils.GetReadableFormats();
      LowerAllIsLowerCase(names);
      LowerAllNoCaseDuplicates(names);
      LowerAllEmpty(names);
      LowerAllSize(names);
      LowerAll(names)
    }
  }
}
