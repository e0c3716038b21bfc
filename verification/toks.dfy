/** The first-generation token carrier (`toks.go`): the whitespace fields of a command and its raw text. */
module Tokens {
  import Text

  datatype Toks = Toks(toks: seq<string>, raw: string)

  /** `Toks.Get`'s pair: the token and whether the index was in range. */
  datatype Got = Got(tok: string, ok: bool)

  /** `Len`: the number of tokens. */
  function Len(t: Toks): (n: nat)
    ensures n == |t.toks|
  {
    |t.toks|
  }

  /**
   * `Get`: the token at index `i` when `0 <= i < Len(t)`, otherwise `("", false)`. A nil token
   * slice has no valid index, which is the same answer as the empty one.
   */
  function Get(t: Toks, i: int): (r: Got)
    ensures r.ok <==> 0 <= i < Len(t)
    ensures r.ok ==> r.tok == t.toks[i]
    ensures !r.ok ==> r.tok == ""
  {
    if i >= Len(t) || i < 0 then Got("", false) else Got(t.toks[i], true)
  }

  /** Reading every in-range index with `Get` gives back the token slice. */
  lemma GetAll(t: Toks)
    ensures seq(Len(t), i requires 0 <= i < Len(t) => Get(t, i).tok) == t.toks
  {
  }

  /**
   * `newToks`: the raw text is kept, and the tokens are its whitespace fields: none is empty
   * or holds whitespace, blank text gives none, and together they hold every non-space
   * character of the text in order.
   */
  function NewToks(s: string): (t: Toks)
    ensures t.raw == s
    ensures forall i :: 0 <= i < Len(t) ==> |t.toks[i]| > 0 && Text.NoSpace(t.toks[i])
    ensures Len(t) == 0 <==> Text.Blank(s)
    ensures Text.Concat(t.toks) == Text.NonSpace(s)
  {
    Text.FieldsEmptyIffBlank(s);
    Text.FieldsKeepsText(s);
    Toks(Text.Fields(s), s)
  }
}
