/**
 * The `setup` command: read the target channel and the period from either
 * surface, check that the channel can be fetched, then change the
 * configuration, persist it, restart monitoring and confirm.
 */
module SetupCommand {
  import opened Wrappers
  import opened Strings
  import opened Stats
  import opened Monitor

  const UsageText := "Usage: `!setup <#channel_or_id> [interval_minutes]`"
  const InvalidChannelText := "Invalid channel. Please provide a valid channel mention or ID."
  const ConfirmationLead := "Setup complete! Automatic updates will be sent to "
  const ConfirmationTail := " minute(s)."

  /** The confirmation up to the period: the channel written as a mention. */
  function ConfirmationHead(channelId: string): string {
    ConfirmationLead + "<#" + channelId + ">" + " every "
  }

  /** The confirmation naming the channel and the period in minutes. */
  function Confirmation(channelId: string, intervalMins: int): string {
    ConfirmationHead(channelId) + IntText(intervalMins) + ConfirmationTail
  }

  /** The confirmation holds at least its fixed opening and closing words. */
  lemma ConfirmationLength(channelId: string, intervalMins: int)
    ensures |Confirmation(channelId, intervalMins)| >= |ConfirmationLead| + |ConfirmationTail|
  {
  }

  // ---------------------------------------------------------------------
  // The channel argument: the first match of /<#(\d+)>/, else the argument itself
  // ---------------------------------------------------------------------

  /** The digits of a channel mention "<#digits>" that `s` starts with. */
  function MentionAt(s: string): (r: Option<string>)
    ensures r.Some? ==> r.value != [] && AllDigits(r.value)
    ensures r.Some? ==> |s| >= |r.value| + 3 && s[0] == '<' && s[1] == '#' && s[2..|r.value| + 2] == r.value
                        && s[|r.value| + 2] == '>'
  {
    if |s| >= 2 && s[0] == '<' && s[1] == '#' then
      var n := DigitsPrefix(s[2..], 10);
      if n > 0 && n + 2 < |s| && s[n + 2] == '>' then Some(s[2..n + 2]) else None
    else None
  }

  /** The leftmost position from `k` on at which a channel mention starts, as a regular expression scans. */
  function FindMentionFrom(s: string, k: nat): (r: Option<nat>)
    requires k <= |s|
    ensures r.Some? ==> k <= r.value < |s| && MentionAt(s[r.value..]).Some?
    ensures r.Some? ==> forall j :: k <= j < r.value ==> MentionAt(s[j..]).None?
    ensures r.None? ==> forall j :: k <= j <= |s| ==> MentionAt(s[j..]).None?
    decreases |s| - k
  {
    if MentionAt(s[k..]).Some? then Some(k)
    else if k == |s| then None
    else FindMentionFrom(s, k + 1)
  }

  /** `arg.match(/<#(\d+)>/) || [null, arg]`, then element 1. */
  function ChannelFromArg(arg: string): string {
    match FindMentionFrom(arg, 0)
    case Some(i) => MentionAt(arg[i..]).value
    case None => arg
  }

  lemma MentionAtMention(d: string, rest: string)
    requires d != [] && AllDigits(d)
    ensures MentionAt("<#" + d + ">" + rest) == Some(d)
  {
    var s := "<#" + d + ">" + rest;
    assert s[2..] == d + (">" + rest);
    DigitsPrefixOf(d, ">" + rest, 10);
    assert s[2..|d| + 2] == d;
  }

  /** A mention is read as the channel it names, whatever follows it. */
  lemma ChannelFromMention(d: string, rest: string)
    requires d != [] && AllDigits(d)
    ensures ChannelFromArg("<#" + d + ">" + rest) == d
  {
    var s := "<#" + d + ">" + rest;
    MentionAtMention(d, rest);
    assert s[0..] == s;
  }

  /** An argument holding no '<' is taken verbatim as the channel id. */
  lemma ChannelFromRawId(arg: string)
    requires '<' !in arg
    ensures ChannelFromArg(arg) == arg
  {
  }

  /** No mention starts inside a text without '<'. */
  lemma {:induction false} NoMentionBefore(p: string, s: string)
    requires '<' !in p
    ensures forall j :: 0 <= j < |p| ==> MentionAt((p + s)[j..]).None?
  {
    forall j | 0 <= j < |p|
      ensures MentionAt((p + s)[j..]).None?
    {
      assert (p + s)[j..][0] == p[j];
    }
  }

  /** The first mention after text without '<' is the one read, whatever follows it. */
  lemma ChannelAfterPlainText(p: string, d: string, rest: string, s: string)
    requires '<' !in p
    requires d != [] && AllDigits(d)
    requires s == p + ("<#" + d + ">" + rest)
    ensures ChannelFromArg(s) == d
  {
    assert s[|p|..] == "<#" + d + ">" + rest;
    MentionAtMention(d, rest);
    NoMentionBefore(p, "<#" + d + ">" + rest);
    assert FindMentionFrom(s, 0) == Some(|p|);
  }

  lemma LeadHasNoMention()
    ensures '<' !in ConfirmationLead
  {
    assert '<' !in "Setup complete! " && '<' !in "Automatic updates " && '<' !in "will be sent to ";
  }

  /** Reading the confirmation back with the same rule gives the configured channel. */
  lemma ConfirmationNamesChannel(channelId: string, intervalMins: int)
    requires channelId != [] && AllDigits(channelId)
    ensures ChannelFromArg(Confirmation(channelId, intervalMins)) == channelId
  {
    var rest := " every " + IntText(intervalMins) + ConfirmationTail;
    ConfirmationLayout(channelId, rest, intervalMins);
    LeadHasNoMention();
    ChannelAfterPlainText(ConfirmationLead, channelId, rest, Confirmation(channelId, intervalMins));
  }

  lemma ConfirmationLayout(channelId: string, rest: string, intervalMins: int)
    requires rest == " every " + IntText(intervalMins) + ConfirmationTail
    ensures Confirmation(channelId, intervalMins) == ConfirmationLead + ("<#" + channelId + ">" + rest)
  {
    Regroup(ConfirmationLead, "<#" + channelId + ">", " every ", IntText(intervalMins), ConfirmationTail);
  }

  lemma Regroup(a: string, b: string, c: string, d: string, e: string)
    ensures a + b + c + d + e == a + (b + (c + d + e))
  {
  }

  lemma DropPrefix(a: string, b: string)
    ensures (a + b)[|a|..] == b
  {
  }

  /** Reading the confirmation's period back with parseInt gives the configured minutes. */
  lemma ConfirmationNamesInterval(channelId: string, intervalMins: int)
    ensures ParseInt(Confirmation(channelId, intervalMins)[|ConfirmationHead(channelId)|..]) == Some(intervalMins)
  {
    ConfirmationPeriodAt(channelId, intervalMins);
    ParseIntTextPrefix(intervalMins, ConfirmationTail);
  }

  lemma ConfirmationPeriodAt(channelId: string, intervalMins: int)
    ensures Confirmation(channelId, intervalMins)[|ConfirmationHead(channelId)|..] == IntText(intervalMins) + ConfirmationTail
  {
    var head, text := ConfirmationHead(channelId), IntText(intervalMins);
    assert head + text + ConfirmationTail == head + (text + ConfirmationTail);
    DropPrefix(head, text + ConfirmationTail);
  }

  // ---------------------------------------------------------------------
  // The period in minutes
  // ---------------------------------------------------------------------

  /** Free text: parseInt of the second argument when it is present, 1 when it is NaN or below 1, else 1. */
  function FreeTextInterval(args: seq<string>): (mins: int)
    ensures mins >= 1
    ensures (|args| >= 2 && args[1] != "" && ParseInt(args[1]).Some? && ParseInt(args[1]).value >= 1)
              ==> mins == ParseInt(args[1]).value
    ensures (|args| < 2 || args[1] == "" || ParseInt(args[1]).None? || ParseInt(args[1]).value < 1)
              ==> mins == 1
  {
    if |args| >= 2 && args[1] != "" then
      match ParseInt(args[1])
      case Some(n) => if n < 1 then 1 else n
      case None => 1
    else 1
  }

  /** Structured surface: `options.getInteger('interval') || 1`, so absent and 0 both mean 1. */
  function InteractionInterval(option: Option<int>): (mins: int)
    ensures option.None? || option.value == 0 ==> mins == 1
    ensures option.Some? && option.value != 0 ==> mins == option.value
    ensures option.None? || option.value >= 0 ==> mins >= 1
  {
    if option.None? || option.value == 0 then 1 else option.value
  }

  /** A positive period written as a number is read back unchanged. */
  lemma FreeTextIntervalOfNumber(channelArg: string, n: int)
    requires n >= 1
    ensures FreeTextInterval([channelArg, IntText(n)]) == n
  {
    ParseIntText(n);
    assert IntText(n) == Decimal(n);
  }

  // ---------------------------------------------------------------------
  // The command
  // ---------------------------------------------------------------------

  datatype Request =
    | ShowUsage                                      // free text without arguments
    | ChannelMissing                                 // structured surface without its required channel
    | Configure(channelId: string, intervalMins: int)

  /** What the invocation asks for, before anything is checked or changed. */
  function ParseRequest(inv: Invocation): (r: Request)
    ensures r.ShowUsage? <==> inv.FreeText? && inv.args == []
    ensures r.ChannelMissing? <==> inv.Interaction? && inv.channelOption.None?
    ensures r.Configure? && inv.FreeText? ==>
              r.channelId == ChannelFromArg(inv.args[0]) && r.intervalMins == FreeTextInterval(inv.args)
    ensures r.Configure? && inv.Interaction? ==>
              r.channelId == inv.channelOption.value && r.intervalMins == InteractionInterval(inv.intervalOption)
    ensures r.Configure? && (inv.FreeText? || inv.intervalOption.None? || inv.intervalOption.value >= 0) ==>
              r.intervalMins >= 1
  {
    match inv
    case Interaction(channel, interval) =>
      if channel.None? then ChannelMissing else Configure(channel.value, InteractionInterval(interval))
    case FreeText(args) =>
      if args == [] then ShowUsage else Configure(ChannelFromArg(args[0]), FreeTextInterval(args))
  }

  /** `!setup <#id> n` with a positive number asks for that channel every n minutes. */
  lemma MentionAndNumber(d: string, n: int)
    requires d != [] && AllDigits(d) && n >= 1
    ensures ParseRequest(FreeText(["<#" + d + ">", IntText(n)])) == Configure(d, n)
  {
    ChannelFromMention(d, []);
    assert "<#" + d + ">" + [] == "<#" + d + ">";
    FreeTextIntervalOfNumber("<#" + d + ">", n);
  }

  /** `!setup <#id> text` with no digit in the text falls back to one minute instead of failing. */
  lemma MentionAndText(d: string, t: string)
    requires d != [] && AllDigits(d)
    requires forall i :: 0 <= i < |t| ==> !IsDigit(t[i])
    ensures ParseRequest(FreeText(["<#" + d + ">", t])) == Configure(d, 1)
  {
    ChannelFromMention(d, []);
    assert "<#" + d + ">" + [] == "<#" + d + ">";
    ParseIntNaN(t);
  }

  /**
   * The argument handling at the top of execute: the channel id and the
   * period in minutes, starting from one minute and replaced as the
   * arguments allow.
   */
  method ReadRequest(inv: Invocation) returns (request: Request)
    ensures request == ParseRequest(inv)
  {
    var channelId: string;
    var intervalMins := 1;

    if inv.Interaction? {
      if inv.channelOption.None? {
        return ChannelMissing;
      }
      channelId := inv.channelOption.value;
      intervalMins := InteractionInterval(inv.intervalOption);
    } else {
      var args := inv.args;
      if args == [] {
        return ShowUsage;
      }
      channelId := ChannelFromArg(args[0]);
      if |args| >= 2 && args[1] != "" {
        intervalMins := FreeTextInterval(args);
      }
    }
    request := Configure(channelId, intervalMins);
  }

  /**
   * What the guarded part of execute does from state `s` once the channel has
   * been fetched: the configuration changes in place; a failed save is caught
   * by the same handler as a failed fetch, so monitoring is not restarted and
   * the reply is the invalid-channel one; a successful save is followed by
   * the restart of monitoring at the new period, then the confirmation.
   */
  function Committed(s: BotState, channelId: string, intervalMins: int, channels: set<string>, writeOk: bool,
                     readings: Option<Readings>): Outcome
  {
    var c := Config(Some(channelId), intervalMins * 60000);
    if !writeOk then Outcome(s.(config := c), [Replied(Text(InvalidChannelText))])
    else Outcome(Restarted(s.(config := c, saved := Some(c))),
                 [Saved(c)] + RestartEvents(s.monitorInterval, c, GetSystemStats(readings), channels, s.nextHandle)
                 + [Replied(Text(Confirmation(channelId, intervalMins)))])
  }

  /** The guarded part of execute once the channel has been fetched: change the configuration, save, restart, confirm. */
  method Commit(bot: Bot, channelId: string, intervalMins: int, channels: set<string>, writeOk: bool,
                readings: Option<Readings>)
    requires bot.Valid()
    modifies bot
    ensures bot.Valid()
    ensures bot.State() == Committed(old(bot.State()), channelId, intervalMins, channels, writeOk, readings).after
    ensures bot.log == old(bot.log) + Committed(old(bot.State()), channelId, intervalMins, channels, writeOk, readings).events
  {
    ghost var s := bot.State();
    var c := Config(Some(channelId), intervalMins * 60000);
    bot.config := c;
    var written := bot.SaveConfig(writeOk);
    ghost var saving := bot.log;
    if !written {
      bot.Emit(Replied(Text(InvalidChannelText)));
      assert bot.State() == s.(config := c);
      assert Committed(s, channelId, intervalMins, channels, writeOk, readings)
          == Outcome(s.(config := c), [Replied(Text(InvalidChannelText))]);
      return;
    }
    ghost var saved := bot.State();
    assert saved == s.(config := c, saved := Some(c));
    Restart(bot, channelId, intervalMins, channels, readings);
    RestartedFields(saved, bot.State());
    ghost var restart := RestartEvents(s.monitorInterval, c, GetSystemStats(readings), channels, s.nextHandle);
    ghost var reply := Replied(Text(Confirmation(channelId, intervalMins)));
    CommittedSaved(s, channelId, intervalMins, channels, readings);
    AppendThree(old(bot.log), [Saved(c)], restart, [reply]);
  }

  /** The outcome of the guarded part when the save succeeds, spelled out. */
  lemma CommittedSaved(s: BotState, channelId: string, intervalMins: int, channels: set<string>,
                       readings: Option<Readings>)
    ensures var c := Config(Some(channelId), intervalMins * 60000);
            var r := Committed(s, channelId, intervalMins, channels, true, readings);
            && r.after == Restarted(s.(config := c, saved := Some(c)))
            && r.events == [Saved(c)] + RestartEvents(s.monitorInterval, c, GetSystemStats(readings), channels, s.nextHandle)
                           + [Replied(Text(Confirmation(channelId, intervalMins)))]
  {
  }

  lemma AppendThree(log: seq<Event>, a: seq<Event>, b: seq<Event>, c: seq<Event>)
    ensures log + a + b + c == log + (a + b + c)
  {
  }

  /** The guarded part always ends with exactly one response. */
  lemma AppliedResponds(s: BotState, channelId: string, intervalMins: int, channels: set<string>, writeOk: bool,
                        readings: Option<Readings>)
    ensures Responses(Applied(s, channelId, intervalMins, channels, writeOk, readings).events) == 1
  {
    var c := Config(Some(channelId), intervalMins * 60000);
    if channelId in channels && writeOk {
      var restart := RestartEvents(s.monitorInterval, c, GetSystemStats(readings), channels, s.nextHandle);
      var reply := Replied(Text(Confirmation(channelId, intervalMins)));
      ResponsesOne(Saved(c));
      ResponsesOne(reply);
      ResponsesAppend([Saved(c)], restart);
      ResponsesAppend([Saved(c)] + restart, [reply]);
      assert Applied(s, channelId, intervalMins, channels, writeOk, readings).events == [Saved(c)] + restart + [reply];
    } else {
      ResponsesOne(Replied(Text(InvalidChannelText)));
      assert Applied(s, channelId, intervalMins, channels, writeOk, readings).events == [Replied(Text(InvalidChannelText))];
    }
  }

  /** The end of the guarded part once the configuration is saved: monitoring restarted, then the confirmation. */
  method Restart(bot: Bot, channelId: string, intervalMins: int, channels: set<string>, readings: Option<Readings>)
    requires bot.Valid()
    modifies bot
    ensures bot.Valid()
    ensures bot.config == old(bot.config) && bot.saved == old(bot.saved)
    ensures bot.monitorInterval == Some(old(bot.nextHandle)) && bot.nextHandle == old(bot.nextHandle) + 1
    ensures bot.timers == map[old(bot.nextHandle) := bot.config.interval]
    ensures bot.log == old(bot.log) + RestartEvents(old(bot.monitorInterval), bot.config, GetSystemStats(readings),
                                                    channels, old(bot.nextHandle))
                                    + [Replied(Text(Confirmation(channelId, intervalMins)))]
    ensures Gained(bot.log, old(bot.log), 1)
  {
    bot.StartMonitoring(readings, channels);
    ghost var restarted := bot.log;
    bot.Emit(Replied(Text(Confirmation(channelId, intervalMins))));
    GainedTrans(old(bot.log), restarted, bot.log, 0, 1);
  }

  /**
   * What the guarded part of execute does from state `s` for a chosen channel
   * and period: an unfetchable channel changes nothing but the reply.
   */
  function Applied(s: BotState, channelId: string, intervalMins: int, channels: set<string>, writeOk: bool,
                   readings: Option<Readings>): Outcome
  {
    if channelId !in channels then Outcome(s, [Replied(Text(InvalidChannelText))])
    else Committed(s, channelId, intervalMins, channels, writeOk, readings)
  }

  /**
   * The guarded part of execute for a chosen channel and period: the channel
   * is fetched first, and when that fails nothing changes but the reply.
   */
  method Apply(bot: Bot, channelId: string, intervalMins: int, channels: set<string>, writeOk: bool,
               readings: Option<Readings>)
    requires bot.Valid()
    modifies bot
    ensures bot.Valid()
    ensures bot.State() == Applied(old(bot.State()), channelId, intervalMins, channels, writeOk, readings).after
    ensures bot.log == old(bot.log) + Applied(old(bot.State()), channelId, intervalMins, channels, writeOk, readings).events
  {
    if channelId !in channels {
      bot.Emit(Replied(Text(InvalidChannelText)));
      return;
    }
    Commit(bot, channelId, intervalMins, channels, writeOk, readings);
  }

  /**
   * What execute does from state `s`: the usage reply and a missing slash
   * channel change nothing, and a channel and period read from the arguments
   * go to the guarded part.
   */
  function Executed(s: BotState, inv: Invocation, channels: set<string>, writeOk: bool, readings: Option<Readings>)
    : Outcome
  {
    match ParseRequest(inv)
    case ShowUsage => Outcome(s, [Replied(Text(UsageText))])
    case ChannelMissing => Outcome(s, [])
    case Configure(channelId, intervalMins) => Applied(s, channelId, intervalMins, channels, writeOk, readings)
  }

  /**
   * execute: on free text without arguments, the usage reply and nothing
   * else; a structured invocation without its channel fails before the
   * guarded part (`ok` false); otherwise the guarded part runs on the
   * channel and period read from the arguments.
   */
  method Execute(bot: Bot, inv: Invocation, channels: set<string>, writeOk: bool, readings: Option<Readings>)
    returns (ok: bool)
    requires bot.Valid()
    modifies bot
    ensures bot.Valid()
    ensures ok <==> !ParseRequest(inv).ChannelMissing?
    ensures bot.State() == Executed(old(bot.State()), inv, channels, writeOk, readings).after
    ensures bot.log == old(bot.log) + Executed(old(bot.State()), inv, channels, writeOk, readings).events
    ensures Gained(bot.log, old(bot.log), if ok then 1 else 0)
  {
    var request := ReadRequest(inv);
    match request
    case ShowUsage =>
      bot.Emit(Replied(Text(UsageText)));
      ok := true;
    case ChannelMissing =>
      ok := false;
      NothingGained(bot.log);
    case Configure(channelId, intervalMins) =>
      ok := true;
      Apply(bot, channelId, intervalMins, channels, writeOk, readings);
      AppliedResponds(old(bot.State()), channelId, intervalMins, channels, writeOk, readings);
      GainedAppend(old(bot.log), Applied(old(bot.State()), channelId, intervalMins, channels, writeOk, readings).events);
  }
}
