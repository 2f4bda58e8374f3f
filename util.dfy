/** `com.marco.util.ImageUtil`: format validation, the codec registry, and writing an image. */
module Util {
  import opened Wrappers
  import opened Text
  import opened Exceptions
  import opened Imaging
  import T = Trace

  const NullFormat := "Format cannot be null"
  const NoReadableFormats := "No readable formats configured."
  const NoWriteableFormats := "No writeable formats configured."
  const UnsupportedForReading := "Unsupported format for reading: "
  const UnsupportedForWriting := "Unsupported format for writing: "
  const InvalidStream := "Invalid image stream"
  const UnsupportedImageFormat := "Unsupported image format"
  const InvalidFile := "Invalid file for image conversion"

  /** The registry check shared by the readable and the writeable validators: `kind` is the
      exception class thrown, `empty` the message for an empty set, `unsupported` the prefix
      of the message for a format that is not in the set. */
  function CheckRegistered(formats: set<string>, format: Option<string>, kind: ExceptionKind,
                           empty: string, unsupported: string): (r: Outcome<Exception>)
    ensures format.None? ==> r == Fail(Exception(kind, NullFormat, None))
    ensures format.Some? && formats == {} ==> r == Fail(Exception(kind, empty, None))
    ensures format.Some? && formats != {} && Lower(format.value) !in formats ==>
      r == Fail(Exception(kind, unsupported + format.value, None))
    ensures r.Pass? <==> format.Some? && Lower(format.value) in formats
  {
    match format
    case None => Fail(Exception(kind, NullFormat, None))
    case Some(f) =>
      if formats == {} then Fail(Exception(kind, empty, None))
      else if Lower(f) !in formats then Fail(Exception(kind, unsupported + f, None))
      else Pass
  }

  /** `removeAlphaChannel` on what an encoder can observe: a raster without alpha is kept,
      one with alpha becomes a fresh RGB raster of the same size with the original drawn on it. */
  function Normalize(v: RasterView): (r: RasterView)
    ensures !r.hasAlpha
    ensures r.width == v.width && r.height == v.height
    ensures r == v <==> !v.hasAlpha
    ensures v.hasAlpha ==> r.pixels == DrawnOver(Blank, v.pixels)
  {
    if !v.hasAlpha then v else RasterView(v.width, v.height, false, DrawnOver(Blank, v.pixels))
  }

  /** `getImageWriter` on the writers `ImageIO.getImageWritersByFormatName` yields, in order. */
  function GetImageWriter(writers: seq<ImageWriter>, targetFormat: string): (r: Result<ImageWriter, Exception>)
    ensures r.Success? <==> |writers| > 0
    ensures r.Success? ==> r.value == writers[0]
    ensures r.Failure? ==> r.error == ConvertError("No writer found for the format: " + targetFormat)
  {
    if |writers| == 0 then Failure(ConvertError("No writer found for the format: " + targetFormat))
    else Success(writers[0])
  }

  class ImageUtil {
    const supportedFormats: seq<string> := ["jpg", "jpeg", "png", "gif", "bmp", "tiff"]
    /** The imaging subsystem: the process-wide `ImageIO` statics, made explicit. */
    const io: ImageIO
    const readableFormats: set<string>
    const writeableFormats: set<string>
    /** Where the steps of every call are logged (instrumentation, not program state). */
    const recorder: T.Recorder

    /** The registry is filled once, from what the subsystem reports, lower-cased. */
    constructor (io: ImageIO)
      ensures this.io == io
      ensures readableFormats == LowerAll(io.readerFormatNames)
      ensures writeableFormats == LowerAll(io.writerFormatNames)
      ensures fresh(recorder) && recorder.steps == []
    {
      this.io := io;
      readableFormats := LowerAll(io.readerFormatNames);
      writeableFormats := LowerAll(io.writerFormatNames);
      recorder := new T.Recorder();
    }

    /** `validateImageFormat`: case-insensitive membership in the six fixed names. */
    function ValidateImageFormat(format: string): (r: Outcome<Exception>)
      ensures r.Pass? <==> Lower(format) in {"jpg", "jpeg", "png", "gif", "bmp", "tiff"}
      ensures r.Fail? ==> r.error == ConvertError("Invalid format: " + format)
    {
      if Lower(format) in supportedFormats then Pass
      else Fail(ConvertError("Invalid format: " + format))
    }

    function GetReadableFormats(): set<string> {
      readableFormats
    }

    function GetWriteableFormats(): set<string> {
      writeableFormats
    }

    /** `validateReadableFormat`: throws `ReadFileException` unless the format is registered. */
    function ValidateReadableFormat(format: Option<string>): (r: Outcome<Exception>)
      ensures format.None? ==> r == Fail(ReadFileError(NullFormat))
      ensures format.Some? && readableFormats == {} ==> r == Fail(ReadFileError(NoReadableFormats))
      ensures format.Some? && readableFormats != {} && Lower(format.value) !in readableFormats ==>
        r == Fail(ReadFileError(UnsupportedForReading + format.value))
      ensures r.Pass? <==> format.Some? && Lower(format.value) in readableFormats
    {
      CheckRegistered(readableFormats, format, ReadFileException, NoReadableFormats, UnsupportedForReading)
    }

    /** `validateWriteableFormat`: throws `WriteFileException` unless the format is registered. */
    function ValidateWriteableFormat(format: Option<string>): (r: Outcome<Exception>)
      ensures format.None? ==> r == Fail(WriteFileError(NullFormat))
      ensures format.Some? && writeableFormats == {} ==> r == Fail(WriteFileError(NoWriteableFormats))
      ensures format.Some? && writeableFormats != {} && Lower(format.value) !in writeableFormats ==>
        r == Fail(WriteFileError(UnsupportedForWriting + format.value))
      ensures r.Pass? <==> format.Some? && Lower(format.value) in writeableFormats
    {
      CheckRegistered(writeableFormats, format, WriteFileException, NoWriteableFormats, UnsupportedForWriting)
    }

    /** `getImageFormat`: the format name of the first reader that claims the bytes. */
    function GetImageFormat(data: Bytes): (r: Result<string, Exception>)
      ensures io.probe(data).NoStream? ==> r == Failure(IOError(InvalidStream))
      ensures io.probe(data).Readers? && io.probe(data).formatNames == [] ==>
        r == Failure(IOError(UnsupportedImageFormat))
      ensures r.Success? <==> io.probe(data).Readers? && io.probe(data).formatNames != []
      ensures r.Success? ==> r.value == io.probe(data).formatNames[0]
    {
      match io.probe(data)
      case NoStream => Failure(IOError(InvalidStream))
      case Readers(names) =>
        if names == [] then Failure(IOError(UnsupportedImageFormat)) else Success(names[0])
    }

    /** What `readImage` yields, as seen by an encoder: the decoded raster, a
        `ReadFileException` when the decoder returns `null`, or the decoder's `IOException`. */
    function ReadImageResult(data: Bytes): (r: Result<RasterView, Exception>)
      ensures io.read(data).Decoded? <==> r.Success?
      ensures r.Success? ==> r.value == io.read(data).image
      ensures io.read(data).NoImage? ==> r == Failure(ReadFileError(InvalidFile))
      ensures io.read(data).ReadFailed? ==> r == Failure(IOError(io.read(data).message))
    {
      match io.read(data)
      case Decoded(v) => Success(v)
      case NoImage => Failure(ReadFileError(InvalidFile))
      case ReadFailed(m) => Failure(IOError(m))
    }

    /** `readImage`: `ImageIO.read` hands out a new raster. */
    method ReadImage(data: Bytes) returns (r: Result<BufferedImage, Exception>)
      ensures ReadImageResult(data).Success? ==>
        r.Success? && fresh(r.value) && r.value.View() == ReadImageResult(data).value
      ensures ReadImageResult(data).Failure? ==> r == Failure(ReadImageResult(data).error)
    {
      var decoding := io.read(data);
      if decoding.Decoded? {
        var image := new BufferedImage.FromView(decoding.image);
        r := Success(image);
      } else if decoding.NoImage? {
        r := Failure(ReadFileError(InvalidFile));
      } else {
        r := Failure(IOError(decoding.message));
      }
    }

    /** `removeAlphaChannel`: the same object when there is no alpha channel, otherwise a
        new `TYPE_INT_RGB` raster of the same size with the original drawn onto it. */
    method RemoveAlphaChannel(image: BufferedImage) returns (r: BufferedImage)
      ensures !image.hasAlpha ==> r == image
      ensures image.hasAlpha ==> fresh(r)
      ensures r.View() == Normalize(image.View())
    {
      if !image.hasAlpha {
        return image;
      }
      r := new BufferedImage(image.width, image.height, TypeIntRgb);
      r.DrawImage(image);
    }

    /** The writer `writeImage` may reconfigure: the first one registered for the format. */
    function WriterFrame(targetFormat: string): set<ImageWriter> {
      var writers := io.writersByFormatName(targetFormat);
      if |writers| > 0 then {writers[0]} else {}
    }

    /** What `writeImage` does with a raster: look up the writer, take its default
        parameters, normalise the raster, open a stream over the output, write. */
    function WriteImageRun(image: RasterView, targetFormat: string): T.Run {
      match GetImageWriter(io.writersByFormatName(targetFormat), targetFormat)
      case Failure(e) => T.Run(Fail(e), [T.GetImageWriter(targetFormat)], [])
      case Success(writer) =>
        var param := writer.defaultWriteParam;
        var normalized := Normalize(image);
        var head := [T.GetImageWriter(targetFormat), T.GetDefaultWriteParam, T.RemoveAlphaChannel(image), T.CreateImageOutputStream];
        var all := head + [T.SetOutput, T.Write(normalized, param)];
        match io.wrapOutput
        case WrapFails(m) => T.Run(Fail(IOError(m)), head, [])
        case NoProvider => T.Run(Fail(IllegalStateError(writer.outputNotSetMessage)), all, [])
        case Wraps =>
          var e := writer.encode(normalized, param);
          T.Run(e.Ending(), all, e.Streamed())
    }

    /** `writeImage`. IOExceptions from the subsystem propagate unwrapped. */
    method WriteImage(image: BufferedImage, targetFormat: string, outputStream: OutputStream)
      returns (r: Outcome<Exception>)
      modifies recorder, outputStream, WriterFrame(targetFormat)
      ensures var run := WriteImageRun(image.View(), targetFormat);
        && r == run.outcome
        && recorder.steps == old(recorder.steps) + run.steps
        && outputStream.written == old(outputStream.written) + run.written
      ensures var writers := io.writersByFormatName(targetFormat);
        |writers| > 0 && io.wrapOutput.Wraps? ==>
          writers[0].output != null && fresh(writers[0].output) && writers[0].output.target == outputStream
      ensures var writers := io.writersByFormatName(targetFormat);
        |writers| > 0 && io.wrapOutput.NoProvider? ==> writers[0].output == null
      ensures var writers := io.writersByFormatName(targetFormat);
        |writers| > 0 && io.wrapOutput.WrapFails? && old(allocated(writers[0])) ==>
          writers[0].output == old(writers[0].output)
    {
      ghost var source := image.View();
      ghost var before := recorder.steps;
      recorder.steps := recorder.steps + [T.GetImageWriter(targetFormat)];
      var lookup := GetImageWriter(io.writersByFormatName(targetFormat), targetFormat);
      if lookup.Failure? {
        return Fail(lookup.error);
      }
      var writer := lookup.value;
      recorder.steps := recorder.steps + [T.GetDefaultWriteParam];
      var param := writer.GetDefaultWriteParam();
      recorder.steps := recorder.steps + [T.RemoveAlphaChannel(image.View())];
      var normalized := RemoveAlphaChannel(image);
      recorder.steps := recorder.steps + [T.CreateImageOutputStream];
      ghost var head := [T.GetImageWriter(targetFormat), T.GetDefaultWriteParam, T.RemoveAlphaChannel(source), T.CreateImageOutputStream];
      assert recorder.steps == before + head;
      assert writer == io.writersByFormatName(targetFormat)[0] && param == writer.defaultWriteParam;
      assert normalized.View() == Normalize(source);
      var stream := CreateImageOutputStream(io, outputStream);
      if stream.Failure? {
        return Fail(stream.error);
      }
      recorder.steps := recorder.steps + [T.SetOutput];
      writer.SetOutput(stream.value);
      recorder.steps := recorder.steps + [T.Write(normalized.View(), param)];
      assert recorder.steps == before + head + [T.SetOutput, T.Write(Normalize(source), param)];
      r := writer.Write(normalized, param);
    }
  }
}
