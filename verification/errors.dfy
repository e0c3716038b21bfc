/** The error values that travel through the router's contexts. */
module Errors {
  import opened Options
  import Bitset

  datatype Error =
    | /** An error returned by user code (a handler, middleware or parser), known only by identity. */
      Opaque(id: nat, text: string)
    | /** `*filter.Error` of the v2 filter package: the violated filter bits and a reason. */
      FilterError(f: Bitset.Bits, reason: string)
    | /** `*FilterError` of the first-generation package. */
      LegacyFilterError(f: Bitset.Bits, reason: string)
    | /** `*RuleError` of the first-generation router: the failing rule and a reason. */
      RuleError(rule: Bitset.Bits, reason: string)
    | /** `*tokLengthErr` of the custom-parser example. */
      TokLengthError

  /** The text `Error()` returns. */
  function Text(e: Error): string {
    match e
    case Opaque(_, t) => t
    case FilterError(_, reason) => reason
    case LegacyFilterError(_, reason) => reason
    case RuleError(_, reason) => reason
    case TokLengthError => "not enough tokens to parse message"
  }

  /** What a command parser hands back: the tokens and a possibly-nil error. */
  datatype Parsed = Parsed(toks: seq<string>, err: Option<Error>)
}
