/**
 * The first-generation message filter (`filter.go`): five exclusion flags, and a check that
 * reports every enabled flag a message violates. Unlike the v2 filter it has no webhook flag
 * and decides private versus guild from the message's guild ID alone.
 */
module LegacyFilter {
  import opened Options
  import opened Discord
  import opened Bitset
  import Errors
  import V2 = Filter

  type Filter = Bits

  const MessagesSelf: Filter := {0}
  const MessagesBot: Filter := {1}
  const MessagesEmpty: Filter := {2}
  const MessagesPrivate: Filter := {3}
  const MessagesGuild: Filter := {4}

  /** `NewFilter`: the OR of all given filters; `NewFilter()` is zero. The loop is the v2 `New`'s. */
  function NewFilter(filters: seq<Filter>): (r: Filter)
    ensures forall i :: 0 <= i < |filters| ==> Contains(r, filters[i])
    ensures |filters| == 0 ==> r == {}
  {
    V2.New(filters)
  }

  /** `NewFilter(filters)` is the smallest filter containing every argument. */
  lemma NewFilterLeast(filters: seq<Filter>, h: Filter)
    requires forall i :: 0 <= i < |filters| ==> Contains(h, filters[i])
    ensures Contains(h, NewFilter(filters))
  {
    CombineLeast(filters, h);
  }

  /** A flag is in `NewFilter(filters)` exactly when one of the arguments carries it. */
  lemma NewFilterHasFlag(filters: seq<Filter>, k: nat)
    requires k < 64
    ensures Contains(NewFilter(filters), Bit(k)) <==> exists i :: 0 <= i < |filters| && Contains(filters[i], Bit(k))
  {
    CombineHasBit(filters, k);
  }

  /** `Contains` and its synonym `filters`: `f & g == g`. */
  predicate Contains(f: Filter, g: Filter) {
    Includes(f, g)
  }

  /** `allow`'s pair: whether the message may be handled, and the violated flags. */
  datatype Verdict = Verdict(ok: bool, failed: Filter)

  /**
   * The message cannot be judged: the message or session is missing, or an enabled identity
   * check needs an author, a state cache or a cached self user that is missing.
   */
  predicate Indeterminate(f: Filter, ses: Option<Session>, msg: Option<Message>) {
    || msg.None? || ses.None?
    || (Contains(f, MessagesSelf)
        && (msg.value.author.None? || ses.value.state.None? || ses.value.state.value.user.None?))
    || (Contains(f, MessagesBot) && msg.value.author.None?)
  }

  /**
   * `allow`, reading the context's message and session: checks each enabled flag in turn and ORs
   * together the ones the message violates.
   */
  function Allow(f: Filter, ses: Option<Session>, msg: Option<Message>): (r: Verdict)
    ensures Indeterminate(f, ses, msg) ==> r == Verdict(false, {})
    ensures !Indeterminate(f, ses, msg) ==> (r.ok <==> r.failed == {})
  {
    if msg.None? || ses.None? then Verdict(false, {})
    else
      var m, s := msg.value, ses.value;
      if Contains(f, MessagesSelf) && (m.author.None? || s.state.None? || s.state.value.user.None?) then
        Verdict(false, {})
      else
        var failed1 := Mark({}, Contains(f, MessagesSelf) && m.author.value.id == s.state.value.user.value.id, MessagesSelf);
        if Contains(f, MessagesBot) && m.author.None? then
          Verdict(false, {})
        else
          var failed2 := Mark(failed1, Contains(f, MessagesBot) && m.author.value.bot, MessagesBot);
          var failed3 := Mark(failed2, Contains(f, MessagesEmpty) && |m.content| == 0, MessagesEmpty);
          var failed4 := Mark(failed3, Contains(f, MessagesPrivate) && |m.guildId| == 0, MessagesPrivate);
          var failed5 := Mark(failed4, Contains(f, MessagesGuild) && |m.guildId| != 0, MessagesGuild);
          Verdict(failed5 == {}, failed5)
  }

  /**
   * The reported flags are exactly the enabled ones the message violates, and no other bit is
   * ever reported.
   */
  lemma AllowFlags(f: Filter, ses: Option<Session>, msg: Option<Message>)
    requires !Indeterminate(f, ses, msg)
    ensures var r, m, s := Allow(f, ses, msg), msg.value, ses.value;
      && (Includes(r.failed, MessagesSelf) <==>
            Contains(f, MessagesSelf) && m.author.value.id == s.state.value.user.value.id)
      && (Includes(r.failed, MessagesBot) <==> Contains(f, MessagesBot) && m.author.value.bot)
      && (Includes(r.failed, MessagesEmpty) <==> Contains(f, MessagesEmpty) && |m.content| == 0)
      && (Includes(r.failed, MessagesPrivate) <==> Contains(f, MessagesPrivate) && |m.guildId| == 0)
      && (Includes(r.failed, MessagesGuild) <==> Contains(f, MessagesGuild) && |m.guildId| != 0)
      && r.failed <= {0, 1, 2, 3, 4}
  {
  }

  /** Only enabled flags are ever reported. */
  lemma AllowWithin(f: Filter, ses: Option<Session>, msg: Option<Message>)
    ensures Contains(f, Allow(f, ses, msg).failed)
  {
  }

  /** A filter excluding both private and guild messages never lets a message through. */
  lemma BothChannelsNeverPass(f: Filter, ses: Option<Session>, msg: Option<Message>)
    requires Contains(f, MessagesPrivate) && Contains(f, MessagesGuild)
    ensures !Allow(f, ses, msg).ok
  {
    if !Indeterminate(f, ses, msg) {
      AllowFlags(f, ses, msg);
    }
  }

  /** The session of a bot whose own account is `selfId`. */
  function SessionOf(selfId: string): Option<Session> {
    Some(Session(Some(State(Some(User(selfId, false))))))
  }

  /** A message with an author, in the guild `guildId` ("" for a DM). */
  function MessageOf(guildId: string, content: string, authorId: string, bot: bool): Option<Message> {
    Some(Message(Some(User(authorId, bot)), content, "", guildId, "c1"))
  }

  /**
   * Recorded outcomes: the zero filter passes another user's DM; violations accumulate, so the
   * bot's own empty guild message fails both flags of `NewFilter(MessagesBot, MessagesEmpty)`,
   * and its guild message fails both flags of `NewFilter(MessagesGuild, MessagesSelf)`.
   */
  lemma AllowAccumulates()
    ensures Allow(NewFilter([]), SessionOf("sayoribot"), MessageOf("", "my message", "sayoriuser", false))
            == Verdict(true, {})
    ensures Allow(NewFilter([MessagesBot, MessagesEmpty]), SessionOf("sayoribot"), MessageOf("myguildid", "", "sayoribot", true))
            == Verdict(false, Or(MessagesBot, MessagesEmpty))
    ensures Allow(NewFilter([MessagesGuild, MessagesSelf]), SessionOf("sayoribot"), MessageOf("myguildid", "hi", "sayoribot", true))
            == Verdict(false, Or(MessagesGuild, MessagesSelf))
  {
    assert Combine([MessagesBot]) == {1} by {
      assert [MessagesBot][..0] == [];
    }
    assert Combine([MessagesBot, MessagesEmpty]) == {1, 2} by {
      assert [MessagesBot, MessagesEmpty][..1] == [MessagesBot];
    }
    assert Combine([MessagesGuild]) == {4} by {
      assert [MessagesGuild][..0] == [];
    }
    assert Combine([MessagesGuild, MessagesSelf]) == {0, 4} by {
      assert [MessagesGuild, MessagesSelf][..1] == [MessagesGuild];
    }
  }

  /** `FilterError.Filter`: the violated filter stored in the error. */
  function ErrorFilter(e: Errors.Error): Filter
    requires e.LegacyFilterError?
  {
    e.f
  }
}
