/**
 * The first-generation "handle X" rules (`rule.go`): a flag set that ENABLES handling of a kind
 * of message, and a check that reports the first kind the message belongs to but the rule does
 * not enable.
 */
module HandlerRule {
  import opened Bitset

  type Rule = Bits

  const HandleSelf: Rule := {0}
  const HandleBot: Rule := {1}
  const HandleEmptyContent: Rule := {2}
  const HandlePrivateMsgs: Rule := {3}
  const HandleGuildMsgs: Rule := {4}

  /** `NewEventHandlerRule`: the OR of the given rules; no rules is the zero rule. */
  function NewEventHandlerRule(rules: seq<Rule>): (r: Rule)
    ensures forall i :: 0 <= i < |rules| ==> IsRuleEnabled(r, rules[i])
    ensures |rules| == 0 ==> r == {}
  {
    Combine(rules)
  }

  /** `NewEventHandlerRule` is the least rule enabling every argument. */
  lemma NewEventHandlerRuleLeast(rules: seq<Rule>, h: Rule)
    requires forall i :: 0 <= i < |rules| ==> IsRuleEnabled(h, rules[i])
    ensures IsRuleEnabled(h, NewEventHandlerRule(rules))
  {
    CombineLeast(rules, h);
  }

  /** `IsRuleEnabled`: `e & rule == rule`. */
  predicate IsRuleEnabled(e: Rule, rule: Rule) {
    Includes(e, rule)
  }

  /** `Allow`'s result: pass, or the single failing rule. */
  datatype Verdict = Verdict(ok: bool, rule: Rule)

  /**
   * Check number `k` (0 self, 1 bot, 2 empty content, 3 private, 4 guild) fires: the message is of
   * that kind and the rule does not enable handling it.
   */
  predicate Fires(e: Rule, k: nat, authorId: string, userId: string, authorIsBot: bool, contentLen: int, guildIdLen: int) {
    && k < 5
    && !IsRuleEnabled(e, Bit(k))
    && match k
       case 0 => authorId == userId
       case 1 => authorIsBot
       case 2 => contentLen == 0
       case 3 => guildIdLen == 0
       case _ => guildIdLen != 0
  }

  /**
   * `Allow`: passes iff no check fires; otherwise reports exactly the first check that fires, as
   * a single bit that the rule does not enable.
   */
  function Allow(e: Rule, authorId: string, userId: string, authorIsBot: bool, contentLen: int, guildIdLen: int): (r: Verdict)
    ensures r.ok <==> forall k :: 0 <= k < 5 ==> !Fires(e, k, authorId, userId, authorIsBot, contentLen, guildIdLen)
    ensures r.ok ==> r.rule == {}
    ensures !r.ok ==> (exists k :: 0 <= k < 5 && r.rule == Bit(k)
                        && Fires(e, k, authorId, userId, authorIsBot, contentLen, guildIdLen)
                        && (forall j :: 0 <= j < k ==> !Fires(e, j, authorId, userId, authorIsBot, contentLen, guildIdLen)))
    ensures !r.ok ==> !IsRuleEnabled(e, r.rule)
  {
    if !IsRuleEnabled(e, HandleSelf) && authorId == userId then
      assert Fires(e, 0, authorId, userId, authorIsBot, contentLen, guildIdLen);
      Verdict(false, HandleSelf)
    else if !IsRuleEnabled(e, HandleBot) && authorIsBot then
      assert Fires(e, 1, authorId, userId, authorIsBot, contentLen, guildIdLen);
      Verdict(false, HandleBot)
    else if !IsRuleEnabled(e, HandleEmptyContent) && contentLen == 0 then
      assert Fires(e, 2, authorId, userId, authorIsBot, contentLen, guildIdLen);
      Verdict(false, HandleEmptyContent)
    else if !IsRuleEnabled(e, HandlePrivateMsgs) && guildIdLen == 0 then
      assert Fires(e, 3, authorId, userId, authorIsBot, contentLen, guildIdLen);
      Verdict(false, HandlePrivateMsgs)
    else if !IsRuleEnabled(e, HandleGuildMsgs) && guildIdLen != 0 then
      assert Fires(e, 4, authorId, userId, authorIsBot, contentLen, guildIdLen);
      Verdict(false, HandleGuildMsgs)
    else
      Verdict(true, {})
  }

  /**
   * A rule enabling neither private nor guild messages rejects every message that gets past the
   * self, bot and empty-content checks.
   */
  lemma NoChannelRejectsAll(e: Rule, authorId: string, userId: string, authorIsBot: bool, contentLen: int, guildIdLen: int)
    requires !IsRuleEnabled(e, HandlePrivateMsgs) && !IsRuleEnabled(e, HandleGuildMsgs)
    ensures !Allow(e, authorId, userId, authorIsBot, contentLen, guildIdLen).ok
  {
    assert Fires(e, if guildIdLen == 0 then 3 else 4, authorId, userId, authorIsBot, contentLen, guildIdLen);
  }

  /** The two recorded outcomes: the empty rule rejects a plain DM as private; a self-authored bot message is rejected as self first. */
  lemma AllowExamples()
    ensures Allow(NewEventHandlerRule([]), "sayoriuser", "sayoribot", false, |"my message"|, |""|)
      == Verdict(false, HandlePrivateMsgs)
    ensures Allow(NewEventHandlerRule([HandleBot, HandleEmptyContent]), "sayoribot", "sayoribot", true, |""|, |"myguildid"|)
      == Verdict(false, HandleSelf)
  {
    assert Combine([HandleBot]) == {1} by {
      assert [HandleBot][..0] == [];
    }
    assert Combine([HandleBot, HandleEmptyContent]) == {1, 2} by {
      assert [HandleBot, HandleEmptyContent][..1] == [HandleBot];
    }
  }
}
