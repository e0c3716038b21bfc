/**
 * The first-generation router (`router.go`): prefix lookup and trimming, and the two message
 * pipelines it registers, `makeCommand` for prefixed commands and `msgEvent` for plain message
 * events. Each pipeline invocation is a function from the incoming event to the calls it makes
 * on the user's handler, in order.
 */
module LegacyRouter {
  import opened Options
  import opened Discord
  import opened Bitset
  import Errors
  import Text
  import ArgMap
  import Tokens
  import Routes
  import HandlerRule

  /** The router's rule type, used here as a flag word like the `rule.go` rules. */
  type Rule = Bits

  /** The router's invocation context. */
  datatype Ctx = Ctx(
    rule: Rule,
    session: Option<Session>,
    message: Option<Message>,
    prefix: string,
    alias: string,
    args: Option<ArgMap.Args<ArgMap.Any>>,
    toks: seq<string>,
    err: Option<Errors.Error>)

  /** `NewContext`: the rule `NewRule()` gives, and every other field empty. */
  function NewContext(newRule: Rule): (c: Ctx)
    ensures c.rule == newRule && c.session.None? && c.message.None? && c.args.None? && c.err.None?
    ensures c.prefix == "" && c.alias == "" && |c.toks| == 0
  {
    Ctx(newRule, None, None, "", "", None, [], None)
  }

  /** `defaultFmtRule`: `rule id <n> failed`. */
  function DefaultFmtRule(r: Rule): string {
    "rule id " + Text.Decimal(Value(r)) + " failed"
  }

  /** `ruleToErr`: a rule error that carries the failing rule and its rendering. */
  function RuleToErr(r: Rule): (e: Errors.Error)
    ensures e.RuleError? && e.rule == r
    ensures Errors.Text(e) == DefaultFmtRule(r)
  {
    Errors.RuleError(r, DefaultFmtRule(r))
  }

  /** A `Prefixer`: `Load(serverID)` (prefix and ok) and `Default()`. */
  datatype Prefixer = Prefixer(load: string -> Option<string>, default: string)

  /** `getGuildPrefix`: the guild's loaded prefix, or the default when the prefixer has none. */
  function GetGuildPrefix(p: Prefixer, guildId: string): (prefix: string)
    ensures p.load(guildId).Some? ==> prefix == p.load(guildId).value
    ensures p.load(guildId).None? ==> prefix == p.default
  {
    match p.load(guildId)
    case Some(prefix) => prefix
    case None => p.default
  }

  /**
   * `trimPrefix`: an empty prefix accepts the command as it is (even an empty one); otherwise the
   * command must start with the prefix, and the remainder is returned even when it is empty.
   * A failure comes with an empty string.
   */
  function TrimPrefix(command: string, prefix: string): (r: Routes.Trimmed)
    ensures prefix == "" ==> r == Routes.Trimmed(command, true)
    ensures prefix != "" ==> (r.ok <==> Text.HasPrefix(command, prefix))
    ensures prefix != "" && r.ok ==> prefix + r.cmd == command
    ensures !r.ok ==> r.cmd == ""
  {
    if prefix == "" then Routes.Trimmed(command, true)
    else
      var c := Text.TrimPrefix(command, prefix);
      if c == command then Routes.Trimmed("", false)
      else Routes.Trimmed(c, true)
  }

  /**
   * The v2 `trimPrefix` accepts exactly the trims of this one that leave a non-empty command,
   * and then agrees on it; an empty command under an empty prefix, or a command that is exactly
   * its prefix, is accepted here with an empty remainder and refused by v2.
   */
  lemma TrimPrefixVersusV2(command: string, prefix: string)
    ensures Routes.TrimCommand(command, prefix).ok <==> TrimPrefix(command, prefix).ok && TrimPrefix(command, prefix).cmd != ""
    ensures Routes.TrimCommand(command, prefix).ok ==> Routes.TrimCommand(command, prefix).cmd == TrimPrefix(command, prefix).cmd
    ensures TrimPrefix("", "") == Routes.Trimmed("", true) && !Routes.TrimCommand("", "").ok
    ensures TrimPrefix("!", "!") == Routes.Trimmed("", true) && !Routes.TrimCommand("!", "!").ok
  {
    var v1, v2 := TrimPrefix(command, prefix), Routes.TrimCommand(command, prefix);
    if v2.ok {
      assert prefix + v2.cmd == command;
      if prefix != "" {
        assert command[..|prefix|] == prefix;
        assert prefix + v1.cmd == command;
      }
    }
    if v1.ok && v1.cmd != "" && prefix != "" {
      assert command[..|prefix|] == prefix;
    }
  }

  /** The user's `Command` implementation: `Match`, `Parse` and `Handle` (`Catch` is observed as a call). */
  datatype Command = Command(
    match_: string -> Option<string>,
    parse: string -> ParseResult,
    handle: Ctx -> Option<Errors.Error>)

  /** `Parse`'s pair: the args (possibly nil) and a possibly-nil error. */
  datatype ParseResult = ParseResult(args: Option<ArgMap.Args<ArgMap.Any>>, err: Option<Errors.Error>)

  /** `rule.allow(ctx)`: the rule's own check, which this snapshot does not define. */
  type Allow = (Rule, Ctx) -> HandlerRule.Verdict

  /** The events a registered handler receives; only message creation is acted upon. */
  datatype Event = MessageCreate(msg: Message) | OtherEvent

  /** A call the pipeline makes on the user's handler, with the context it passes. */
  datatype Call = HandleCall(ctx: Ctx) | CatchCall(ctx: Ctx)

  /** `ctx.Rule = *rule`: the context with the given rule installed, if any. */
  function Installed(ctx: Ctx, rule: Option<Rule>): (c: Ctx)
    ensures c.(rule := ctx.rule) == ctx
    ensures rule.Some? ==> c.rule == rule.value
  {
    if rule.Some? then ctx.(rule := rule.value) else ctx
  }

  /**
   * The rule check and handler call shared by both pipelines (router.go:186-197 and 242-253),
   * once a context is ready. `Catch` is called exactly once, last, and `Handle` at most once,
   * first; `Handle` runs exactly when no rule is given or the rule allows the context. Every call
   * sees the context with the rule installed and nothing else changed but the error: `Handle`
   * sees the incoming error, `Catch` sees `Handle`'s result or, when the rule rejects, the rule
   * error of the failing rule.
   */
  function Judge(ctx: Ctx, rule: Option<Rule>, handle: Ctx -> Option<Errors.Error>, allow: Allow): (calls: seq<Call>)
    ensures 1 <= |calls| <= 2
    ensures calls[|calls| - 1].CatchCall? && forall i :: 0 <= i < |calls| - 1 ==> calls[i].HandleCall?
    ensures |calls| == 2 <==> rule.None? || allow(rule.value, Installed(ctx, rule)).ok
    ensures forall i :: 0 <= i < |calls| ==> calls[i].ctx.(err := ctx.err) == Installed(ctx, rule)
    ensures rule.Some? ==> forall i :: 0 <= i < |calls| ==> calls[i].ctx.rule == rule.value
    ensures |calls| == 2 ==> calls[0].ctx.err == ctx.err && calls[1].ctx.err == handle(calls[0].ctx)
    ensures |calls| == 1 ==> rule.Some? && calls[0].ctx.err == Some(RuleToErr(allow(rule.value, Installed(ctx, rule)).rule))
  {
    match rule
    case Some(r) =>
      var c := ctx.(rule := r);
      var v := allow(r, c);
      if v.ok then [HandleCall(c), CatchCall(c.(err := handle(c)))]
      else [CatchCall(c.(err := Some(RuleToErr(v.rule))))]
    case None =>
      [HandleCall(ctx), CatchCall(ctx.(err := handle(ctx)))]
  }

  /** What the prefix step leaves of a message: its content with the guild's prefix trimmed. */
  function CommandText(px: Prefixer, msg: Message): Routes.Trimmed {
    TrimPrefix(msg.content, GetGuildPrefix(px, msg.guildId))
  }

  /** The context `makeCommand` builds for a matched command, before parsing. */
  function CommandContext(newRule: Rule, s: Option<Session>, msg: Message, prefix: string, alias: string, cmd: string): (c: Ctx)
    ensures c.session == s && c.message == Some(msg) && c.prefix == prefix && c.alias == alias
    ensures c.toks == Tokens.NewToks(cmd).toks && c.err.None? && c.args.None? && c.rule == newRule
  {
    NewContext(newRule).(session := s, alias := alias, prefix := prefix, message := Some(msg), toks := Tokens.NewToks(cmd).toks)
  }

  /**
   * `makeCommand`'s handler, for one event. Anything but a message, a message whose prefix does
   * not trim, or a command `Match` refuses makes no call at all. A `Parse` error is handed to
   * `Catch` alone; otherwise the args are stored and the rule check decides between `Handle`
   * and a rule error, with `Catch` called once, last.
   */
  function MakeCommand(c: Command, rule: Option<Rule>, px: Prefixer, allow: Allow, newRule: Rule,
                       s: Option<Session>, ev: Event): (calls: seq<Call>)
    ensures ev.OtherEvent? ==> calls == []
    ensures ev.MessageCreate? && !CommandText(px, ev.msg).ok ==> calls == []
    ensures ev.MessageCreate? && CommandText(px, ev.msg).ok && c.match_(CommandText(px, ev.msg).cmd).None? ==> calls == []
    ensures |calls| > 0 ==> calls[|calls| - 1].CatchCall? && forall i :: 0 <= i < |calls| - 1 ==> calls[i].HandleCall?
    ensures |calls| > 0 ==>
      var cmd := CommandText(px, ev.msg).cmd;
      var ctx := CommandContext(newRule, s, ev.msg, GetGuildPrefix(px, ev.msg.guildId), c.match_(cmd).value, cmd);
      var parsed := c.parse(cmd);
      if parsed.err.Some? then calls == [CatchCall(ctx.(err := parsed.err))]
      else
        var ready := Installed(ctx.(args := parsed.args), rule);
        && (|calls| == 2 <==> rule.None? || allow(rule.value, ready).ok)
        && (forall i :: 0 <= i < |calls| ==> calls[i].ctx.(err := None) == ready)
        && (|calls| == 2 ==> calls[0].ctx.err.None? && calls[1].ctx.err == c.handle(calls[0].ctx))
        && (|calls| == 1 ==> rule.Some? && calls[0].ctx.err == Some(RuleToErr(allow(rule.value, ready).rule)))
  {
    match ev
    case OtherEvent => []
    case MessageCreate(msg) =>
      var prefix := GetGuildPrefix(px, msg.guildId);
      var trimmed := TrimPrefix(msg.content, prefix);
      if !trimmed.ok then []
      else
        var cmd := trimmed.cmd;
        match c.match_(cmd)
        case None => []
        case Some(alias) =>
          var ctx := CommandContext(newRule, s, msg, prefix, alias, cmd);
          var parsed := c.parse(cmd);
          if parsed.err.Some? then [CatchCall(ctx.(err := parsed.err))]
          else Judge(ctx.(args := parsed.args), rule, c.handle, allow)
  }

  /** The context `msgEvent` builds for a message: the session, the message and the fields of its content. */
  function EventContext(newRule: Rule, s: Option<Session>, msg: Message): (c: Ctx)
    ensures c.session == s && c.message == Some(msg) && c.toks == Tokens.NewToks(msg.content).toks
    ensures c.err.None? && c.args.None? && c.rule == newRule && c.prefix == "" && c.alias == ""
  {
    NewContext(newRule).(session := s, message := Some(msg), toks := Tokens.NewToks(msg.content).toks)
  }

  /**
   * `msgEvent`'s handler, for one event: every message gets a fresh context holding the session,
   * the message and the fields of its content, then the rule check; `Catch` is always called
   * exactly once, last. Anything but a message makes no call.
   */
  function MsgEvent(handle: Ctx -> Option<Errors.Error>, rule: Option<Rule>, allow: Allow, newRule: Rule,
                    s: Option<Session>, ev: Event): (calls: seq<Call>)
    ensures ev.OtherEvent? <==> calls == []
    ensures ev.MessageCreate? ==>
      var ready := Installed(EventContext(newRule, s, ev.msg), rule);
      && calls[|calls| - 1].CatchCall? && (forall i :: 0 <= i < |calls| - 1 ==> calls[i].HandleCall?)
      && (|calls| == 2 <==> rule.None? || allow(rule.value, ready).ok)
      && (forall i :: 0 <= i < |calls| ==> calls[i].ctx.(err := None) == ready)
      && (|calls| == 2 ==> calls[0].ctx.err.None? && calls[1].ctx.err == handle(calls[0].ctx))
      && (|calls| == 1 ==> rule.Some? && calls[0].ctx.err == Some(RuleToErr(allow(rule.value, ready).rule)))
  {
    match ev
    case OtherEvent => []
    case MessageCreate(msg) => Judge(EventContext(newRule, s, msg), rule, handle, allow)
  }

  /** In either pipeline a `Handle` call never sees an error, and `Catch` sees `Handle`'s result. */
  lemma HandleThenCatch(c: Command, rule: Option<Rule>, px: Prefixer, allow: Allow, newRule: Rule,
                        s: Option<Session>, ev: Event)
    ensures var calls := MakeCommand(c, rule, px, allow, newRule, s, ev);
      |calls| == 2 ==> calls[0].ctx.err.None? && calls[1].ctx == calls[0].ctx.(err := c.handle(calls[0].ctx))
    ensures var calls := MsgEvent(c.handle, rule, allow, newRule, s, ev);
      |calls| == 2 ==> calls[0].ctx.err.None? && calls[1].ctx == calls[0].ctx.(err := c.handle(calls[0].ctx))
  {
  }

  /** A rejecting rule suppresses `Handle`: `Catch` alone runs, with the rule error of the failing rule. */
  lemma RuleRejects(c: Command, r: Rule, px: Prefixer, allow: Allow, newRule: Rule, s: Option<Session>, ev: Event)
    requires |MakeCommand(c, Some(r), px, allow, newRule, s, ev)| > 0
    requires c.parse(CommandText(px, ev.msg).cmd).err.None?
    ensures var calls := MakeCommand(c, Some(r), px, allow, newRule, s, ev);
      && calls[0].ctx.rule == r
      && (!allow(r, calls[0].ctx.(err := None)).ok <==> |calls| == 1)
      && (|calls| == 1 ==> calls[0].ctx.err == Some(RuleToErr(allow(r, calls[0].ctx.(err := None)).rule)))
  {
  }

  /** The same for `msgEvent`: a rejecting rule leaves `Catch` alone, with the rule error of the failing rule. */
  lemma RuleRejectsEvent(handle: Ctx -> Option<Errors.Error>, r: Rule, allow: Allow, newRule: Rule, s: Option<Session>, msg: Message)
    ensures var calls := MsgEvent(handle, Some(r), allow, newRule, s, MessageCreate(msg));
      && calls[0].ctx.rule == r
      && (!allow(r, calls[0].ctx.(err := None)).ok <==> |calls| == 1)
      && (|calls| == 1 ==> calls[0].ctx.err == Some(RuleToErr(allow(r, calls[0].ctx.(err := None)).rule)))
  {
  }
}
