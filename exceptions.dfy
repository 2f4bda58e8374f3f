/** The exceptions the converter throws or lets through, folded into one datatype. */
module Exceptions {
  import opened Wrappers

  /** `ReadFileException` and `WriteFileException` extend `ConvertException`;
      the other two kinds come from the Java and imaging libraries. */
  datatype ExceptionKind =
    | ConvertException
    | ReadFileException
    | WriteFileException
    | IOException
    | IllegalStateException

  /** A thrown exception: its class, its message and the exception it wraps. */
  datatype Exception = Exception(kind: ExceptionKind, message: string, cause: Option<Exception>) {
    /** True of `ConvertException` and its two subclasses. */
    predicate IsConvertException() {
      kind.ConvertException? || kind.ReadFileException? || kind.WriteFileException?
    }
  }

  function ConvertError(message: string): Exception {
    Exception(ConvertException, message, None)
  }

  function ReadFileError(message: string): Exception {
    Exception(ReadFileException, message, None)
  }

  function WriteFileError(message: string): Exception {
    Exception(WriteFileException, message, None)
  }

  function IOError(message: string): Exception {
    Exception(IOException, message, None)
  }

  function IllegalStateError(message: string): Exception {
    Exception(IllegalStateException, message, None)
  }
}
