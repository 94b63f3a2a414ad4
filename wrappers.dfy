/** Option and Result, plus the errors the CLI raises. A thrown `Error` of the
    TypeScript code becomes an `Err` value here. */
module Wrappers {

  datatype Option<+T> = None | Some(value: T) {
    function GetOr(default: T): T {
      match this
      case Some(v) => v
      case None => default
    }
  }

  /** The errors the modelled code throws, one constructor per throw site. */
  datatype Error =
    | ModelNotSupported(model: string)              // encoding_for_model has no encoding for the model
    | TokenBudgetExceeded(total: nat, maxTokens: int) // counted input tokens above maxTokens
    | RemoteCallFailed(reason: string)              // the provider call rejected
    | MissingChoice                                 // choices[0] absent: reading .message throws
    | InvalidJson                                   // extractJson: JSON.parse failed
    | InvalidExtractedJson                          // extractJsonV2: no fenced json block
    | ExtractedJsonParseFailed                      // extractJsonV2: JSON.parse of the block failed
    | FilenameTooLong                               // createFile: generated filename over 100 characters
    | ReadFailed(path: string)                      // a file read failed or gave empty content
    | AnalysisParseFailed                           // pickFileFromAnalysis: JSON.parse of the analysis failed

  datatype Result<+T> = Ok(value: T) | Err(error: Error)
}
