/**
 * The first-generation invocation context (`context.go`): the record a filtered command or event
 * handler receives, and the conversion of a failing filter into an error.
 */
module LegacyContext {
  import opened Options
  import opened Discord
  import Errors
  import Text
  import Bitset
  import ArgMap
  import Tokens
  import Filter
  import LegacyFilter

  datatype Context = Context(
    filter: LegacyFilter.Filter,
    session: Option<Session>,
    message: Option<Message>,
    prefix: string,
    alias: string,
    args: Option<ArgMap.Args<ArgMap.Any>>,
    toks: Tokens.Toks,
    err: Option<Errors.Error>,
    fmtFilterErr: LegacyFilter.Filter -> string)

  /** `defaultFmtFilterErr`: `filter fail code '<n>'`, the same text the v2 filter package uses. */
  function DefaultFmtFilterErr(f: LegacyFilter.Filter): string {
    Filter.FmtErrDefault(f)
  }

  /**
   * `filterToErr`: a filter error that carries `f` and whose text is the context's rendering of
   * `f`; no other field of the context is consulted.
   */
  function FilterToErr(c: Context, f: LegacyFilter.Filter): (e: Errors.Error)
    ensures e.LegacyFilterError? && LegacyFilter.ErrorFilter(e) == f
    ensures Errors.Text(e) == c.fmtFilterErr(f)
  {
    Errors.LegacyFilterError(f, c.fmtFilterErr(f))
  }

  /** Two contexts that render `f` alike convert it to the same error, whatever else they hold. */
  lemma FilterToErrOnlyFormat(c1: Context, c2: Context, f: LegacyFilter.Filter)
    requires c1.fmtFilterErr(f) == c2.fmtFilterErr(f)
    ensures FilterToErr(c1, f) == FilterToErr(c2, f)
  {
  }

  /**
   * `NewContext`: the zero filter, no session, message, args or error, empty prefix, alias and
   * tokens, and the default filter rendering.
   */
  function NewContext(): (c: Context)
    ensures c.filter == {} && c.session.None? && c.message.None? && c.args.None? && c.err.None?
    ensures c.prefix == "" && c.alias == "" && Tokens.Len(c.toks) == 0 && c.toks.raw == ""
    ensures forall f :: c.fmtFilterErr(f) == DefaultFmtFilterErr(f)
  {
    Context({}, None, None, "", "", None, Tokens.Toks([], ""), None, DefaultFmtFilterErr)
  }

  /** A fresh context renders a failing filter as `filter fail code '<n>'`, `n` its integer value. */
  lemma NewContextErrorText(f: LegacyFilter.Filter)
    ensures Errors.Text(FilterToErr(NewContext(), f)) == "filter fail code '" + Text.Decimal(Bitset.Value(f)) + "'"
  {
  }
}
