/** The error value of the front end (src/error.rs). Reporting it to stderr
    is I/O and is not part of the model; every caller in the scanner and the
    parser passes no location, so `line` is always `None` here. */
module Errors {
  import opened Wrappers

  datatype LoxError = LoxError(line: Option<nat>, msg: string)

  /** `LoxError::error(None, msg)` as the scanner and the parser call it. */
  function ErrorAt(msg: string): LoxError
  {
    LoxError(None, msg)
  }

  const UnterminatedString: string := "Unterminated string"
  const UnexpectedCharacter: string := "Unexpected character"
  const ExpectRightParen: string := "Expect ')' after expression."
  const UnknownTokenType: string := "Unknown token type"
}
