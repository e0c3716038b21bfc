/**
 * The v2 message filter (`v2/filter/filter.go`): a set of exclusion flags and the check that
 * evaluates them against a message. Every violated flag is reported, not just the first.
 */
module Filter {
  import opened Options
  import opened Discord
  import opened Bitset
  import Errors
  import Text

  type Filter = Bits

  const MsgFromSelf: Filter := {0}
  const MsgFromBot: Filter := {1}
  const MsgFromWebhook: Filter := {2}
  const MsgNoContent: Filter := {3}
  const MsgIsPrivate: Filter := {4}
  const MsgIsGuildText: Filter := {5}

  /** `New`: the OR of all given filters; `New()` is the empty filter. */
  function New(filters: seq<Filter>): (r: Filter)
    ensures forall i :: 0 <= i < |filters| ==> Contains(r, filters[i])
    ensures |filters| == 0 ==> r == {}
  {
    Combine(filters)
  }

  /** A flag is in `New(filters)` exactly when one of the arguments carries it, and nothing else is. */
  lemma NewHasFlag(filters: seq<Filter>, k: nat)
    requires k < 64
    ensures Contains(New(filters), Bit(k)) <==> exists i :: 0 <= i < |filters| && Contains(filters[i], Bit(k))
  {
    CombineHasBit(filters, k);
  }

  /** `New(filters)` is the smallest filter containing every argument. */
  lemma NewLeast(filters: seq<Filter>, h: Filter)
    requires forall i :: 0 <= i < |filters| ==> Contains(h, filters[i])
    ensures Contains(h, New(filters))
  {
    CombineLeast(filters, h);
  }

  /** `Contains`: every bit of `g` is set in `f`. */
  predicate Contains(f: Filter, g: Filter) {
    Ignores(f, g)
  }

  predicate Ignores(f: Filter, g: Filter) {
    Includes(f, g)
  }

  /** The two channel lookups that consult the session's cache and the REST API. */
  datatype Channels = Channels(fromDM: (Session, Message) -> bool, fromGuild: (Session, Message) -> bool)

  /** `Validate`'s pair: whether the message may be handled, and the violated flags. */
  datatype Verdict = Verdict(ok: bool, failed: Filter)

  /**
   * The message cannot be judged: the message or session is missing, or an enabled identity
   * check needs an author, a state cache or a cached self user that is missing.
   */
  predicate Indeterminate(f: Filter, ses: Option<Session>, msg: Option<Message>) {
    || msg.None? || ses.None?
    || (Ignores(f, MsgFromSelf)
        && (msg.value.author.None? || ses.value.state.None? || ses.value.state.value.user.None?))
    || (Ignores(f, MsgFromBot) && msg.value.author.None?)
  }

  /** `Validate`: checks each enabled flag in turn and ORs together the ones the message violates. */
  function Validate(f: Filter, ses: Option<Session>, msg: Option<Message>, ch: Channels): (r: Verdict)
    ensures Indeterminate(f, ses, msg) ==> r == Verdict(false, {})
    ensures !Indeterminate(f, ses, msg) ==> (r.ok <==> r.failed == {})
  {
    if msg.None? || ses.None? then Verdict(false, {})
    else
      var m, s := msg.value, ses.value;
      if Ignores(f, MsgFromSelf) && (m.author.None? || s.state.None? || s.state.value.user.None?) then
        Verdict(false, {})
      else
        var failed1 := Mark({}, Ignores(f, MsgFromSelf) && m.author.value.id == s.state.value.user.value.id, MsgFromSelf);
        if Ignores(f, MsgFromBot) && m.author.None? then
          Verdict(false, {})
        else
          var failed2 := Mark(failed1, Ignores(f, MsgFromBot) && m.author.value.bot, MsgFromBot);
          var failed3 := Mark(failed2, Ignores(f, MsgFromWebhook) && |m.webhookId| != 0, MsgFromWebhook);
          var failed4 := Mark(failed3, Ignores(f, MsgNoContent) && |m.content| == 0, MsgNoContent);
          var failed5 := Mark(failed4, Ignores(f, MsgIsPrivate) && ch.fromDM(s, m), MsgIsPrivate);
          var failed6 := Mark(failed5, Ignores(f, MsgIsGuildText) && ch.fromGuild(s, m), MsgIsGuildText);
          Verdict(failed6 == {}, failed6)
  }

  /**
   * The reported flags are exactly the enabled ones the message violates: each flag fails
   * precisely when it is enabled and the message has the property it excludes, and no other
   * bit is ever reported.
   */
  lemma ValidateFlags(f: Filter, ses: Option<Session>, msg: Option<Message>, ch: Channels)
    requires !Indeterminate(f, ses, msg)
    ensures var r, m, s := Validate(f, ses, msg, ch), msg.value, ses.value;
      && (Includes(r.failed, MsgFromSelf) <==>
            Ignores(f, MsgFromSelf) && m.author.value.id == s.state.value.user.value.id)
      && (Includes(r.failed, MsgFromBot) <==> Ignores(f, MsgFromBot) && m.author.value.bot)
      && (Includes(r.failed, MsgFromWebhook) <==> Ignores(f, MsgFromWebhook) && |m.webhookId| != 0)
      && (Includes(r.failed, MsgNoContent) <==> Ignores(f, MsgNoContent) && |m.content| == 0)
      && (Includes(r.failed, MsgIsPrivate) <==> Ignores(f, MsgIsPrivate) && ch.fromDM(s, m))
      && (Includes(r.failed, MsgIsGuildText) <==> Ignores(f, MsgIsGuildText) && ch.fromGuild(s, m))
      && r.failed <= {0, 1, 2, 3, 4, 5}
  {
  }

  /** Only enabled flags are ever reported. */
  lemma ValidateWithin(f: Filter, ses: Option<Session>, msg: Option<Message>, ch: Channels)
    ensures Contains(f, Validate(f, ses, msg, ch).failed)
  {
  }

  /** The default rendering of a failing filter, `filter fail code '<n>'`. */
  function FmtErrDefault(f: Filter): string {
    "filter fail code '" + Text.Decimal(Value(f)) + "'"
  }

  /** `Filter.AsError`: an error carrying the filter and its default reason. */
  function AsError(f: Filter): (e: Errors.Error)
    ensures e.FilterError? && ErrorFilter(e) == f
    ensures Errors.Text(e) == FmtErrDefault(f)
  {
    Errors.FilterError(f, FmtErrDefault(f))
  }

  /** `Error.Filter`: the violated filter stored in the error. */
  function ErrorFilter(e: Errors.Error): Filter
    requires e.FilterError?
  {
    e.f
  }
}
