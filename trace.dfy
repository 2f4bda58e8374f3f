/** The steps of one conversion, in the order the code makes them, and what a run leaves behind. */
module Trace {
  import opened Wrappers
  import opened Exceptions
  import opened Imaging

  /** One call made during a conversion. Each step is recorded by the code that makes the
      call, just before making it, so a call that throws is the last step recorded. */
  datatype Step =
    | ReadAllBytes                                        // inputStream.readAllBytes()
    | ValidateWriteableFormat(format: Option<string>)     // imageUtils.validateWriteableFormat
    | GetImageFormat(data: Bytes)                         // imageUtils.getImageFormat on a stream over data
    | ValidateReadableFormat(format: Option<string>)      // imageUtils.validateReadableFormat
    | ReadImage(data: Bytes)                              // imageUtils.readImage on a stream over data
    | WriteImage(image: RasterView, targetFormat: string) // imageUtils.writeImage
    | GetImageWriter(targetFormat: string)                // getImageWriter
    | GetDefaultWriteParam                                // writer.getDefaultWriteParam()
    | RemoveAlphaChannel(image: RasterView)               // removeAlphaChannel
    | CreateImageOutputStream                             // ImageIO.createImageOutputStream(out)
    | SetOutput                                           // writer.setOutput(stream)
    | Write(image: RasterView, param: WriteParam)         // writer.write(null, image, param)

  /** The position of each kind of step in the one order a conversion runs them. */
  function Rank(s: Step): nat {
    match s
    case ReadAllBytes => 0
    case ValidateWriteableFormat(_) => 1
    case GetImageFormat(_) => 2
    case ValidateReadableFormat(_) => 3
    case ReadImage(_) => 4
    case WriteImage(_, _) => 5
    case GetImageWriter(_) => 6
    case GetDefaultWriteParam => 7
    case RemoveAlphaChannel(_) => 8
    case CreateImageOutputStream => 9
    case SetOutput => 10
    case Write(_, _) => 11
  }

  /** Number of steps in a complete conversion. */
  const FullLength := 12

  /** The steps are consecutive steps of the fixed order, starting at position `start`:
      none skipped, none repeated, none out of order. */
  ghost predicate InPipelineOrder(steps: seq<Step>, start: nat) {
    forall i :: 0 <= i < |steps| ==> Rank(steps[i]) == start + i
  }

  lemma {:induction false} InPipelineOrderAppend(a: seq<Step>, b: seq<Step>, start: nat)
    requires InPipelineOrder(a, start) && InPipelineOrder(b, start + |a|)
    ensures InPipelineOrder(a + b, start)
  {
    forall i | 0 <= i < |a + b| ensures Rank((a + b)[i]) == start + i {
      if i < |a| {
        assert (a + b)[i] == a[i];
      } else {
        assert (a + b)[i] == b[i - |a|];
      }
    }
  }

  /** What one call leaves behind: how it ended, the steps it made, and the bytes it
      appended to the caller's output stream. */
  datatype Run = Run(outcome: Outcome<Exception>, steps: seq<Step>, written: Bytes)

  /** The log a spy would keep: every step made, in order. */
  class Recorder {
    ghost var steps: seq<Step>

    constructor ()
      ensures steps == []
    {
      steps := [];
    }
  }
}
