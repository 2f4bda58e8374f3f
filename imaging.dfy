/** The parts of `javax.imageio`, `java.awt.image` and `java.io` the converter talks to.
    What they compute (format sniffing, decoding, encoding, pixel compositing) is not
    modelled: each is an oracle, a function-valued field whose behaviour is left open. */
module Imaging {
  import opened Wrappers
  import opened Exceptions

  type Byte = bv8
  type Bytes = seq<Byte>

  /** Abstract pixel content. Pixel values are not modelled; only where content came from. */
  datatype Pixels =
    | Blank                                  // a freshly allocated raster
    | Raw(id: nat)                           // content produced by a decoder
    | DrawnOver(base: Pixels, top: Pixels)   // `top` drawn at (0, 0) over `base`

  /** The colour-model constants of `BufferedImage` that the converter uses. */
  datatype ImageType = TypeIntRgb | TypeIntArgb {
    predicate HasAlpha() { TypeIntArgb? }
  }

  /** What an encoder can observe of a raster. */
  datatype RasterView = RasterView(width: nat, height: nat, hasAlpha: bool, pixels: Pixels)

  /** `java.awt.image.BufferedImage`: size and colour model are fixed, the pixels are not. */
  class BufferedImage {
    const width: nat
    const height: nat
    const hasAlpha: bool     // `getColorModel().hasAlpha()`
    var pixels: Pixels

    /** `new BufferedImage(width, height, imageType)`. */
    constructor (width: nat, height: nat, imageType: ImageType)
      ensures this.width == width && this.height == height
      ensures hasAlpha == imageType.HasAlpha() && pixels == Blank
    {
      this.width := width;
      this.height := height;
      this.hasAlpha := imageType.HasAlpha();
      pixels := Blank;
    }

    /** A raster as a decoder hands it out. */
    constructor FromView(v: RasterView)
      ensures View() == v
    {
      width := v.width;
      height := v.height;
      hasAlpha := v.hasAlpha;
      pixels := v.pixels;
    }

    function View(): RasterView
      reads this
    {
      RasterView(width, height, hasAlpha, pixels)
    }

    /** `createGraphics()`, `drawImage(src, 0, 0, null)`, `dispose()`. */
    method DrawImage(src: BufferedImage)
      modifies this
      ensures pixels == DrawnOver(old(pixels), old(src.pixels))
    {
      pixels := DrawnOver(pixels, src.pixels);
    }
  }

  /** `java.io.InputStream`: the bytes not yet read. */
  class InputStream {
    var remaining: Bytes

    constructor (data: Bytes)
      ensures remaining == data
    {
      remaining := data;
    }

    /** `readAllBytes()`. */
    method ReadAllBytes() returns (data: Bytes)
      modifies this
      ensures data == old(remaining) && remaining == []
    {
      data := remaining;
      remaining := [];
    }
  }

  /** `java.io.OutputStream`: everything written to it so far. */
  class OutputStream {
    var written: Bytes

    constructor ()
      ensures written == []
    {
      written := [];
    }
  }

  /** `javax.imageio.stream.ImageOutputStream` over a caller's output stream. */
  class ImageOutputStream {
    const target: OutputStream

    constructor (target: OutputStream)
      ensures this.target == target
    {
      this.target := target;
    }
  }

  /** `javax.imageio.ImageWriteParam`, opaque. */
  datatype WriteParam = WriteParam(id: nat)

  /** What one `write` call does with a raster: streams a complete encoding into the sink, or
      throws an `IOException` after `partial` (perhaps nothing) has already reached it. */
  datatype Encoding = Encoded(bytes: Bytes) | EncodeFailed(partial: Bytes, message: string) {
    /** The bytes that reach the sink. */
    function Streamed(): Bytes {
      if Encoded? then bytes else partial
    }

    /** How the `write` call ends. */
    function Ending(): Outcome<Exception> {
      if Encoded? then Pass else Fail(IOError(message))
    }
  }

  /** `javax.imageio.ImageWriter`. `encode` is the oracle for what `write` does with a raster
      and parameters; `outputNotSetMessage` is the message of the `IllegalStateException` this
      writer's `write` throws when no output has been set (each plug-in words it its own way). */
  class ImageWriter {
    const defaultWriteParam: WriteParam
    const encode: (RasterView, WriteParam) -> Encoding
    const outputNotSetMessage: string
    var output: ImageOutputStream?

    constructor (defaultWriteParam: WriteParam, encode: (RasterView, WriteParam) -> Encoding,
                 outputNotSetMessage: string)
      ensures this.defaultWriteParam == defaultWriteParam && this.encode == encode
      ensures this.outputNotSetMessage == outputNotSetMessage
      ensures output == null
    {
      this.defaultWriteParam := defaultWriteParam;
      this.encode := encode;
      this.outputNotSetMessage := outputNotSetMessage;
      output := null;
    }

    /** `getDefaultWriteParam()`. */
    method GetDefaultWriteParam() returns (p: WriteParam)
      ensures p == defaultWriteParam
    {
      p := defaultWriteParam;
    }

    /** `setOutput(stream)`. */
    method SetOutput(stream: ImageOutputStream?)
      modifies this
      ensures output == stream
    {
      output := stream;
    }

    /** `write(null, new IIOImage(image, null, null), param)`: streams the encoding into the
        output's target; on an `IOException` the bytes already streamed stay there; throws
        `IllegalStateException` when no output has been set. */
    method Write(image: BufferedImage, param: WriteParam) returns (r: Outcome<Exception>)
      modifies if output != null then {output.target} else {}
      ensures output == null ==> r == Fail(IllegalStateError(outputNotSetMessage))
      ensures output != null ==>
        var e := encode(image.View(), param);
        r == e.Ending() && output.target.written == old(output.target.written) + e.Streamed()
    {
      if output == null {
        r := Fail(IllegalStateError(outputNotSetMessage));
      } else {
        var e := encode(image.View(), param);
        output.target.written := output.target.written + e.Streamed();
        r := e.Ending();
      }
    }
  }

  /** What `ImageIO.createImageInputStream` and `ImageIO.getImageReaders` report for some bytes:
      no stream at all (`null`), or the format names of the readers that claim them, in order. */
  datatype Probe = NoStream | Readers(formatNames: seq<string>)

  /** What `ImageIO.read` does with some bytes: a raster, `null`, or an `IOException`. */
  datatype Decoding = Decoded(image: RasterView) | NoImage | ReadFailed(message: string)

  /** What `ImageIO.createImageOutputStream` does: a stream, `null`, or an `IOException`. */
  datatype OutputWrapping = Wraps | NoProvider | WrapFails(message: string)

  /** The installed imaging subsystem, read-only after start-up. */
  datatype ImageIO = ImageIO(
    readerFormatNames: set<string>,           // `ImageIO.getReaderFormatNames()`
    writerFormatNames: set<string>,           // `ImageIO.getWriterFormatNames()`
    probe: Bytes -> Probe,
    read: Bytes -> Decoding,
    writersByFormatName: string -> seq<ImageWriter>,   // `ImageIO.getImageWritersByFormatName`
    wrapOutput: OutputWrapping)

  /** `ImageIO.createImageOutputStream(out)`. */
  method CreateImageOutputStream(io: ImageIO, out: OutputStream) returns (r: Result<ImageOutputStream?, Exception>)
    ensures io.wrapOutput.Wraps? ==> r.Success? && r.value != null && fresh(r.value) && r.value.target == out
    ensures io.wrapOutput.NoProvider? ==> r == Success(null)
    ensures io.wrapOutput.WrapFails? ==> r == Failure(IOError(io.wrapOutput.message))
  {
    match io.wrapOutput
    case Wraps =>
      var s := new ImageOutputStream(out);
      r := Success(s);
    case NoProvider =>
      r := Success(null);
    case WrapFails(m) =>
      r := Failure(IOError(m));
  }
}
