/**
 * The `stop` command: forget the report channel, persist that, cancel the
 * timer and confirm.
 */
module StopCommand {
  import opened Wrappers
  import opened Monitor

  const StoppedText := "Automatic updates have been stopped."

  /**
   * What execute does from state `s`: the channel is forgotten and the period
   * kept; a saved configuration is followed by stopping the timer and the
   * confirmation, while a failed save ends the command there, with nothing
   * else changed and nothing replied.
   */
  function Executed(s: BotState, writeOk: bool): Outcome
  {
    var c := Config(None, s.config.interval);
    if writeOk then Outcome(BotState(c, None, map[], s.nextHandle, Some(c)),
                            [Saved(c)] + ClearEvents(s.monitorInterval) + [Replied(Text(StoppedText))])
    else Outcome(s.(config := c), [])
  }

  /**
   * execute: the channel is cleared in place (the period is kept), then the
   * configuration is saved. A failed save escapes to the caller (`ok` false)
   * before the timer is touched or anything is replied; otherwise the timer
   * is stopped and the confirmation sent.
   */
  method Execute(bot: Bot, writeOk: bool) returns (ok: bool)
    requires bot.Valid()
    modifies bot
    ensures bot.Valid()
    ensures ok == writeOk && !HasChannel(bot.config)
    ensures bot.State() == Executed(old(bot.State()), writeOk).after
    ensures bot.log == old(bot.log) + Executed(old(bot.State()), writeOk).events
    ensures Gained(bot.log, old(bot.log), if ok then 1 else 0)
  {
    bot.config := bot.config.(channelId := None);
    ok := bot.SaveConfig(writeOk);
    if !ok {
      return;
    }
    ghost var saving := bot.log;
    bot.StopMonitoring();
    ghost var stopped := bot.log;
    GainedTrans(old(bot.log), saving, stopped, 0, 0);
    bot.Emit(Replied(Text(StoppedText)));
    GainedTrans(old(bot.log), stopped, bot.log, 0, 1);
  }

  /**
   * Stopping twice: the second call finds no channel and no timer, saves the
   * same configuration again and gives the same reply; the state is the one
   * the first call left.
   */
  method ExecuteTwice(bot: Bot, writeOk: bool) returns (first: bool, second: bool)
    requires bot.Valid()
    modifies bot
    ensures first == writeOk && second == writeOk
    ensures bot.Valid()
    ensures writeOk ==>
              && bot.config == Config(None, old(bot.config.interval))
              && bot.saved == Some(bot.config)
              && bot.monitorInterval == None && bot.timers == map[] && bot.nextHandle == old(bot.nextHandle)
              && bot.log == old(bot.log) + [Saved(bot.config)] + ClearEvents(old(bot.monitorInterval))
                              + [Replied(Text(StoppedText))] + [Saved(bot.config), Replied(Text(StoppedText))]
    ensures !writeOk ==>
              && bot.State() == old(bot.State()).(config := Config(None, old(bot.config.interval)))
              && bot.log == old(bot.log)
  {
    first := Execute(bot, writeOk);
    ghost var afterFirst := bot.log;
    second := Execute(bot, writeOk);
    if writeOk {
      assert ClearEvents(None) == [];
      assert bot.log == afterFirst + [Saved(bot.config), Replied(Text(StoppedText))];
    }
  }
}
