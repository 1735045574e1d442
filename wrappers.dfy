/** Option and Result, the two shapes every fallible operation of the model returns. */
module Wrappers {
  datatype Option<T> = None | Some(value: T)

  /** A Python exception is `Err` with its class name and message. */
  datatype Error = Error(kind: string, message: string)

  datatype Result<T> = Ok(value: T) | Err(error: Error)

  /** The outcome of one external tool run (COLMAP, ffmpeg, a converter):
      a zero exit code, or a non-zero one with what the tool wrote to stderr. */
  datatype ToolOutcome = ToolOk | ToolFail(stderr: string)

  /** What an HTTP endpoint answers: the body it returns, or the status and
      detail of the `HTTPException` it raises. */
  datatype Reply<T> = Reply(body: T) | Refused(status: nat, detail: string)
}
