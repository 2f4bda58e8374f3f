# Image conversion core of FileConverterAPI, modelled in Dafny

The image module of FileConverterAPI converts an uploaded image to another format. The
model covers two classes.

`ImageService.convert`:
1. Buffers the input stream once.
2. Checks that the target format has a registered writer.
3. Detects the source format from the bytes and checks that it has a registered reader.
4. Decodes the bytes.
5. Hands the raster to `ImageUtil.writeImage`.

Any exception raised on the way reaches the caller as one
`ConvertException("Error during image conversion")` whose cause is the original.

`ImageUtil.writeImage`:
1. Looks up the first writer for the format.
2. Takes the writer's default parameters.
3. Flattens a raster with alpha onto a new RGB raster with `removeAlphaChannel`.
4. Wraps the output stream.
5. Writes.

`ImageUtil` also checks formats against a fixed six-name whitelist (`validateImageFormat`)
and against the codec registry (`validateReadableFormat`, `validateWriteableFormat`).
`ImageService` lists the registered format names lower-cased and de-duplicated.

Modules:

| module | file | models |
|---|---|---|
| `Wrappers` | `wrappers.dfy` | `Option`, `Result`, and `Outcome` (a void call: returns, or throws) |
| `Text` | `text.dfy` | `String.toLowerCase`, and lower-casing a set of names |
| `Exceptions` | `exceptions.dfy` | `ConvertException`, `ReadFileException`, `WriteFileException`, `IOException` and `IllegalStateException`: one datatype with a kind, a message and a cause |
| `Imaging` | `imaging.dfy` | The parts of `javax.imageio`, `java.awt.image` and `java.io` that the core calls |
| `Trace` | `trace.dfy` | The steps of a conversion, their fixed order, and a `Recorder` that logs them |
| `Util` | `util.dfy` | `com.marco.util.ImageUtil` |
| `UtilLemmas` | `util_lemmas.dfy` | Properties of `ImageUtil` |
| `Service` | `service.dfy` | `com.marco.service.ImageService` |
| `ServiceLemmas` | `service_lemmas.dfy` | Properties of `convert` |

How the model is built:
- **Imaging subsystem as values.** The process-wide `ImageIO` statics are one value of
  datatype `Imaging.ImageIO`:
  - the reader and writer format names;
  - `probe`, which answers whether a stream could be opened over some bytes and, if so, which readers claim them;
  - `read`, which returns a raster, `null`, or an `IOException`;
  - the writers for each format name, in order;
  - what `createImageOutputStream` does.
- **Writers.** An `ImageWriter` is a class with a mutable `output`. Its `encode` oracle says
  what one `write` call does: it streams a complete encoding, or it throws an `IOException`
  after some bytes (perhaps none) have already reached the sink. Each writer also carries the
  message its `write` throws when no output has been set, because each plug-in words it its
  own way.
- **Rasters.** `BufferedImage` is a class, so `removeAlphaChannel` can return the same object
  or a fresh one, as the source does. Its pixels are symbolic: `Blank`, `Raw`, or one raster
  drawn over another.
- **Methods against pure runs.** The methods `Convert`, `ConvertImage`, `WriteImage`,
  `ReadImage` and `RemoveAlphaChannel` change state step by step. Each is proved against a
  pure function of the same call:
  - `ConvertRun`, `ConvertImageRun`, `WriteImageRun`, `ReadImageResult` and `Normalize`;
  - `ConvertRun` and `ConvertImageRun` return a `Trace.Run`: the outcome, the steps made, and the bytes appended to the output stream.
- **The step log.** Every step is logged in a ghost `Recorder` just before it is made, as a
  spy in the unit tests would see it. The lemmas in `UtilLemmas` and `ServiceLemmas` state the
  promised properties about those run functions.
- **Members defined by their tests.** `ImageUtil.java` does not define the registry
  validators, `getImageFormat`, `readImage` or the format getters, although
  `ImageService.java:31-36,44,49` calls them. These members follow the assertions of
  `ImageUtilTest.java`, and their rows cite those tests. Where the tests leave a detail open,
  the model makes a choice, listed under "## Left out".

Order and errors:
- `convert` checks the target format before it detects the source format
  (`ImageService.java:31-34`).
- `writeImage` lets the `IOException` of `createImageOutputStream` or `write` propagate
  unwrapped (`ImageUtil.java:63-73`). Its tests expect a
  `WriteFileException("Error writing image: …")` around it. The model follows the code.

## Model

| member | source | states |
|---|---|---|
| Text.LowerChar | converter-image/src/main/java/com/marco/util/ImageUtil.java:24 | Upper-case ASCII letters map to their lower-case letter; every other character is unchanged; no result is an upper-case letter |
| Text.Lower | converter-image/src/main/java/com/marco/util/ImageUtil.java:24 | `toLowerCase` keeps the length and lower-cases each character in place |
| Text.LowerIsLowerCase | converter-image/src/main/java/com/marco/util/ImageUtil.java:24 | The lower-case form contains no upper-case letter |
| Text.LowerOfLowerCase | converter-image/src/main/java/com/marco/util/ImageUtil.java:24 | A string with no upper-case letter is its own lower-case form |
| Text.LowerIdempotent | converter-image/src/main/java/com/marco/util/ImageUtil.java:24 | Lower-casing twice is the same as lower-casing once |
| Text.LowerCaseInsensitive | converter-image/src/main/java/com/marco/util/ImageUtil.java:24 | Strings that differ only in letter case have one lower-case form |
| Text.LowerAll | converter-image/src/main/java/com/marco/service/ImageService.java:44-46 | The set of lower-case forms of the names; its properties are the `Text.LowerAll*` rows (no contract of its own) |
| Text.LowerAllMembers | converter-image/src/main/java/com/marco/service/ImageService.java:44-46 | The listing holds exactly the lower-case forms of the registry's names |
| Text.LowerAllIsLowerCase | converter-image/src/main/java/com/marco/service/ImageService.java:45 | Every listed name is lower-case |
| Text.LowerAllNoCaseDuplicates | converter-image/src/main/java/com/marco/service/ImageService.java:45-46 | No two listed names differ only by case (collecting into a set de-duplicates them) |
| Text.LowerAllIdempotent | converter-image/src/main/java/com/marco/service/ImageService.java:44-46 | Normalising a listing that is already normalised changes nothing |
| Text.LowerAllEmpty | converter-image/src/test/java/com/marco/service/ImageServiceTest.java:38-46 | The listing is empty exactly when the registry's set is empty |
| Text.LowerAllSize | converter-image/src/main/java/com/marco/service/ImageService.java:44-46 | The listing is never larger than the registry's set; proved by induction on the set |
| Text.LowerAllExample | converter-image/src/test/java/com/marco/service/ImageServiceTest.java:24-37 | {PNG, JPEG, Gif, png} lists as exactly {png, jpeg, gif} |
| Exceptions.Exception.IsConvertException | converter-common/src/main/java/com/marco/exception/ConvertException.java:6 | The exception is a `ConvertException` or one of its two subclasses (`instanceof ConvertException`); used by the `ServiceLemmas` rows on causes |
| Util.CheckRegistered | converter-image/src/test/java/com/marco/util/ImageUtilTest.java:46-132 | The shared registry check. Null gives "Format cannot be null"; an empty registry gives its own message; an unregistered name gives the prefix plus the caller's spelling. It passes iff the format is non-null and its lower-case form is registered |
| Util.Normalize | converter-image/src/main/java/com/marco/util/ImageUtil.java:29-48 | The result never has alpha and keeps width and height. It is the input iff the input has no alpha; otherwise it is the input drawn over a blank RGB raster |
| Util.GetImageWriter | converter-image/src/main/java/com/marco/util/ImageUtil.java:50-59 | Succeeds iff some writer is registered for the format, returning the first. Otherwise it fails with ConvertException "No writer found for the format: " + format |
| Util.ImageUtil.constructor | converter-image/src/test/java/com/marco/util/ImageUtilTest.java:73-88 | The two registry sets that the tests reach by reflection. They are filled from the subsystem's reader and writer names, lower-cased (a modelling choice, see "## Left out") |
| Util.ImageUtil.GetReadableFormats | converter-image/src/main/java/com/marco/service/ImageService.java:49 | The getter `getReadableFormats` calls: the registry's readable set (no contract of its own) |
| Util.ImageUtil.GetWriteableFormats | converter-image/src/main/java/com/marco/service/ImageService.java:44 | The getter `getWriteableFormats` calls: the registry's writeable set (no contract of its own) |
| Util.ImageUtil.ValidateImageFormat | converter-image/src/main/java/com/marco/util/ImageUtil.java:20-27 | Passes iff the lower-cased format is one of jpg, jpeg, png, gif, bmp, tiff. Otherwise it fails with ConvertException "Invalid format: " + the caller's spelling |
| Util.ImageUtil.ValidateReadableFormat | converter-image/src/test/java/com/marco/util/ImageUtilTest.java:46-88 | ReadFileException "Format cannot be null" for null, "No readable formats configured." for an empty registry, "Unsupported format for reading: " + format for an unregistered one. Passes iff registered, case-insensitively |
| Util.ImageUtil.ValidateWriteableFormat | converter-image/src/test/java/com/marco/util/ImageUtilTest.java:90-132 | As `ValidateReadableFormat`, with WriteFileException, "No writeable formats configured." and "Unsupported format for writing: " |
| Util.ImageUtil.GetImageFormat | converter-image/src/test/java/com/marco/util/ImageUtilTest.java:185-270 | IOException "Invalid image stream" when no stream opens, "Unsupported image format" when no reader claims the bytes. Succeeds iff some reader does, returning the first reader's format name |
| Util.ImageUtil.ReadImageResult | converter-image/src/test/java/com/marco/util/ImageUtilTest.java:134-182 | Succeeds iff the decoder yields a raster, returning that raster. A `null` raster gives ReadFileException "Invalid file for image conversion"; a decoder IOException propagates with its message |
| Util.ImageUtil.ReadImage | converter-image/src/test/java/com/marco/util/ImageUtilTest.java:134-182 | Returns a fresh raster showing exactly what `ReadImageResult` decodes, or its exception |
| Util.ImageUtil.RemoveAlphaChannel | converter-image/src/main/java/com/marco/util/ImageUtil.java:29-48 | Without alpha: the very same object. With alpha: a fresh object. In both cases what it shows is `Normalize` of the input |
| Util.ImageUtil.WriteImageRun | converter-image/src/main/java/com/marco/util/ImageUtil.java:63-73 | The run of `writeImage` as a value, ending at the first exception. It is the specification the `WriteImage` method is proved against; its properties are the `UtilLemmas` rows |
| Util.ImageUtil.WriteImage | converter-image/src/main/java/com/marco/util/ImageUtil.java:63-73 | Outcome, logged steps and bytes appended to the output are those of `WriteImageRun`. When the stream opens, the writer's output is a fresh image stream over the caller's output stream. When no provider exists, the output is left unset. When `createImageOutputStream` throws, the output of a writer that existed before the call is unchanged |
| UtilLemmas.ValidateImageFormatExamples | converter-image/src/main/java/com/marco/util/ImageUtil.java:20-27 | PNG, Tiff and jpg pass; WEBP fails with "Invalid format: WEBP" |
| UtilLemmas.ValidatorsIgnoreCase | converter-image/src/main/java/com/marco/util/ImageUtil.java:24 | Two spellings of one name are accepted or rejected together by all three checks |
| UtilLemmas.RegisteredFormatsAccepted | converter-image/src/test/java/com/marco/util/ImageUtilTest.java:46-52 | Every name the subsystem registers, in any spelling, passes the matching registry check |
| UtilLemmas.WriteImageLookupFirst | converter-image/src/main/java/com/marco/util/ImageUtil.java:52-56 | With no writer, `writeImage` stops after the lookup, throwing "No writer found for the format: …" and writing nothing |
| UtilLemmas.WriteImageInPipelineOrder | converter-image/src/main/java/com/marco/util/ImageUtil.java:66-72 | The steps of `writeImage` are lookup, parameters, alpha removal, stream, setOutput, write: in that order, none skipped or repeated, up to the one that throws |
| UtilLemmas.WriteImagePassesNormalizedImage | converter-image/src/main/java/com/marco/util/ImageUtil.java:67-72 | The one `write` call is the sixth step, right after `setOutput` and the stream creation. It gets the normalised raster and the writer's default parameters. Alpha removal is the third step and gets the caller's raster |
| UtilLemmas.WriteImageOutputOnlyFromWrite | converter-image/src/main/java/com/marco/util/ImageUtil.java:63-73 | Succeeds iff a writer exists, the stream opens and the writer encodes the whole raster. On success the output gets that encoding of the normalised raster, after all six steps. When `write` throws an `IOException`, the output keeps exactly the bytes streamed before the throw. Every other failure leaves the output untouched |
| Service.Wrapped | converter-image/src/main/java/com/marco/service/ImageService.java:38-41 | The rethrown exception is a ConvertException "Error during image conversion" whose cause is the original |
| Service.ImageService.Convert | converter-image/src/main/java/com/marco/service/ImageService.java:25-42 | Outcome, logged steps and bytes appended to the output are those of `ConvertRun` on the stream's contents; the input stream is drained |
| Service.ImageService.ConvertImage | converter-image/src/main/java/com/marco/service/ImageService.java:36-37 | Outcome, logged steps and output bytes of decode-then-write are those of `ConvertImageRun` |
| Service.ImageService.GetWriteableFormats | converter-image/src/main/java/com/marco/service/ImageService.java:43-47 | Exactly the lower-case forms of the registry's writeable names. All lower-case, no case duplicates, empty iff the registry's set is, never larger than it |
| Service.ImageService.GetReadableFormats | converter-image/src/main/java/com/marco/service/ImageService.java:48-52 | The same, for the readable names |
| Service.ImageService.TryConvert | converter-image/src/main/java/com/marco/service/ImageService.java:28-37 | The `try` block as a run, on the buffered bytes: ending at the first exception, which is left unwrapped. It is a specification function; its properties are the `ServiceLemmas` rows |
| Service.ImageService.ConvertImageRun | converter-image/src/main/java/com/marco/service/ImageService.java:36-37 | Decode-then-write as a run. It is the specification of `ConvertImage`; its order is `ServiceLemmas.ConvertImageInPipelineOrder` |
| Service.ImageService.ConvertRun | converter-image/src/main/java/com/marco/service/ImageService.java:25-42 | `convert` as a run: the `try` block with the `catch` block's wrapping. It is the specification of `Convert`; its properties are the `ServiceLemmas` rows |
| ServiceLemmas.ConvertImageInPipelineOrder | converter-image/src/main/java/com/marco/service/ImageService.java:36-37 | Decode-then-write makes 1 to 8 consecutive steps of the fixed order, starting at the decode, up to the one that throws |
| ServiceLemmas.ConvertStepsCarryBufferedBytes | converter-image/src/main/java/com/marco/service/ImageService.java:34-37 | The detection step and the decode step get the buffered bytes. The `writeImage` step gets the decoded raster and the requested target |
| ServiceLemmas.ConvertInPipelineOrder | converter-image/src/main/java/com/marco/service/ImageService.java:28-37 | A conversion makes between 2 and 12 consecutive steps of the fixed order, starting from the read of the input, up to the one that throws |
| ServiceLemmas.ConvertBuffersOnce | converter-image/src/main/java/com/marco/service/ImageService.java:29-37 | The input is read once, first. Format detection and decoding both get exactly the buffered bytes |
| ServiceLemmas.ConvertChecksTargetFirst | converter-image/src/main/java/com/marco/service/ImageService.java:29-31 | A failing target check ends the run after two steps, with the wrapped WriteFileException and nothing written |
| ServiceLemmas.ConvertRejectsUnwriteableTarget | converter-image/src/main/java/com/marco/service/ImageService.java:31 | An unregistered target (any case) fails before detection. The cause is a WriteFileException, and so a ConvertException, naming the format, or saying that no writeable formats are configured |
| ServiceLemmas.ConvertChecksSourceBeforeDecoding | converter-image/src/main/java/com/marco/service/ImageService.java:33-34 | A detected format that the registry cannot read ends the run after four steps, with the wrapped ReadFileException (a ConvertException); nothing is decoded or written |
| ServiceLemmas.ConvertDecodesOnlyCheckedInput | converter-image/src/main/java/com/marco/service/ImageService.java:31-36 | Decoding happens only when the target check, detection and the source check on the detected name have all passed |
| ServiceLemmas.ConvertWritesDecodedImage | converter-image/src/main/java/com/marco/service/ImageService.java:36-37 | `writeImage` gets the raster decoded from the buffered bytes and the requested target. Only the final `write` reaches the output: a run that leaves bytes behind made all twelve steps, and if it failed, the cause is that call's IOException |
| ServiceLemmas.ConvertWrapsEveryFailure | converter-image/src/main/java/com/marco/service/ImageService.java:28-41 | `convert` fails iff its `try` block throws, then with the wrapping ConvertException around that very exception; steps and output are the `try` block's |
| ServiceLemmas.ConvertSucceeds | converter-image/src/main/java/com/marco/service/ImageService.java:25-42 | Succeeds iff every check, detection, decoding and the write succeed. Success makes all twelve steps, and the output gets the first writer's encoding of the normalised decoded raster |
| ServiceLemmas.ConvertTransparentPngToJpeg | converter-image/src/main/java/com/marco/util/ImageUtil.java:29-48 | A 10x10 PNG with alpha converted to jpeg succeeds; the encoder gets a 10x10 raster without alpha drawn from the decoded pixels |
| ServiceLemmas.ConvertUnrecognizedInput | converter-image/src/test/java/com/marco/util/ImageUtilTest.java:217-240 | Bytes no reader claims fail with the wrapped IOException "Unsupported image format" after three steps; nothing is decoded or written. That cause is not a ConvertException, which is why `convert` catches every exception |
| ServiceLemmas.ConvertWriteFailure | converter-image/src/main/java/com/marco/util/ImageUtil.java:72 | A writer that throws an IOException mid-write fails the conversion, wrapped, after all twelve steps. The output keeps exactly what was streamed before the throw |

## Left out

- `ImageController` (HTTP upload, the response headers, Spring wiring and dependency injection): outside this core.
- The `ConvertService` interface: it only declares `convert`.
- Pixel values, colour models and compositing: rasters are symbolic. `Graphics2D` is collapsed into one `DrawImage`; `createGraphics` and `dispose` have no observable effect here.
- The codecs themselves: decoding and encoding are oracles of the imaging subsystem, so no round trip between a format's encoder and decoder is claimed.
- The `IIOImage` wrapper and the `null` stream metadata passed to `write`: they carry nothing the model observes.
- `readAllBytes` throwing `IOException`: the input stream is modelled as a byte buffer that always drains.
- Flushing and closing the image output stream: the source never closes it. How much of a failed write got past the stream's cache into the output stream is part of the writer oracle's answer, not derived.
- The lower-cased registry and the case-insensitive registry lookup (`Util.ImageUtil.constructor`, `Util.CheckRegistered`) are modelling choices. No test fixes them: the tests pass only "png", "xyz" and `null`, and `ImageService.java:45,50` lower-cases the getters' sets again, which suggests they may hold mixed-case names.
- `ImageIO.getImageWritersByFormatName` builds a new writer object on every `next()`. In the model the oracle hands out the same `ImageWriter` objects on every call. Nothing `writeImage` observes depends on this, because it takes one writer per call.
- `e.printStackTrace()`: console output.
- `Util.ImageUtil.ValidateImageFormat`: a `null` format (a `NullPointerException` in the source) is not modelled, because the parameter is a Dafny string.
- `Service.ImageService.GetWriteableFormats`, `Service.ImageService.GetReadableFormats`: a `null` set from the registry (a `NullPointerException`, asserted by `ImageServiceTest.java:48-57`) is not modelled, because the registry's sets are Dafny sets.
- `Text.LowerChar`, `Text.Lower`, `Text.LowerOfLowerCase`: case folding is for ASCII letters only. `LowerChar` leaves every other character unchanged, and `LowerOfLowerCase` holds only under that restriction. Java's locale-dependent and Unicode case mapping, which also lower-cases non-ASCII capitals, is not modelled.
- `Util.ImageUtil.WriteImage`: the `WriteFileException("Error writing image: …")` wrapping that `ImageUtilTest.java:318-392` expects is not modelled, because `writeImage` (`ImageUtil.java:63-73`) lets the `IOException` propagate.
- The order of the registry checks (null first, then an empty registry, then an unregistered name): `ImageUtilTest.java:72-88,116-132` fix that an empty registry is reported before an unregistered name; checking null before the empty registry is a modelling choice no test decides. An empty format string is simply unregistered; no separate "invalid format" error exists.
- Concurrency and thread safety: the imaging subsystem is read-only after start-up, so it is not modelled.
- `Trace.Recorder`: ghost instrumentation standing in for the Mockito spies of the tests; not part of the program.
