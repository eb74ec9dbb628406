/** src/http2/error.rs: stream errors and connection errors. */
module H2Errors {
  datatype ErrorCode =
    | NoError | ProtocolError | InternalError | FlowControlError | SettingsTimeout
    | StreamClosedError | FrameSizeError | RefusedStream | Cancel | CompressionError
    | ConnectError | EnhanceYourCalm | InadequateSecurity | Http11Required

  datatype H2Error = StreamError(code: ErrorCode) | ConnectionError(code: ErrorCode)
}
