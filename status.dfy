/**
 * The `status` command: one report on demand, answered through the surface
 * it was asked on. It neither reads nor changes the configuration or the
 * timer.
 */
module StatusCommand {
  import opened Wrappers
  import opened Stats
  import opened Monitor

  const FailedText := "Failed to fetch system stats."

  /** What the answer carries: the report when there is a snapshot, the failure text otherwise. */
  function Answer(stats: Option<Snapshot>): (c: Content)
    ensures c.Embed? <==> stats.Some?
    ensures stats.Some? ==> c == Embed(stats.value)
    ensures stats.None? ==> c == Text(FailedText)
  {
    if stats.Some? then Embed(stats.value) else Text(FailedText)
  }

  /**
   * The effects of one status request: on the structured surface the reply is
   * deferred before the statistics are collected and the answer edits it in;
   * on the message surface the answer is a plain reply.
   */
  function StatusEvents(isInteraction: bool, stats: Option<Snapshot>): (evs: seq<Event>)
    ensures Responses(evs) == 1 && Deliveries(evs) == 0
    ensures Deferred in evs <==> isInteraction
    ensures isInteraction ==> |evs| == 3 && evs[0] == Deferred && evs[1] == StatsRequested
    ensures !isInteraction ==> |evs| == 2 && evs[0] == StatsRequested
    ensures evs[|evs| - 1].Edited? <==> isInteraction
    ensures evs[|evs| - 1].Replied? <==> !isInteraction
    ensures (evs[|evs| - 1].Edited? || evs[|evs| - 1].Replied?) && evs[|evs| - 1].content == Answer(stats)
  {
    var lead := if isInteraction then [Deferred, StatsRequested] else [StatsRequested];
    var answer := if isInteraction then Edited(Answer(stats)) else Replied(Answer(stats));
    QuietEvents(lead);
    ResponsesAppend(lead, [answer]);
    DeliveriesAppend(lead, [answer]);
    lead + [answer]
  }

  /** execute: defer (structured surface only), collect, then answer once. */
  method Execute(bot: Bot, isInteraction: bool, readings: Option<Readings>)
    modifies bot`log
    ensures bot.log == old(bot.log) + StatusEvents(isInteraction, GetSystemStats(readings))
    ensures Gained(bot.log, old(bot.log), 1)
  {
    if isInteraction {
      bot.Emit(Deferred);
    } else {
      NothingGained(bot.log);
    }
    ghost var deferred := bot.log;
    bot.Emit(StatsRequested);
    ghost var asked := bot.log;
    GainedTrans(old(bot.log), deferred, asked, 0, 0);
    var stats := GetSystemStats(readings);
    if stats.Some? {
      var payload := Embed(stats.value);
      if isInteraction {
        bot.Emit(Edited(payload));
      } else {
        bot.Emit(Replied(payload));
      }
    } else {
      var errorMsg := FailedText;
      if isInteraction {
        bot.Emit(Edited(Text(errorMsg)));
      } else {
        bot.Emit(Replied(Text(errorMsg)));
      }
    }
    GainedTrans(old(bot.log), asked, bot.log, 0, 1);
    StatusLog(old(bot.log), isInteraction, stats);
  }

  /** The log after the steps of execute, one after another, is the log followed by StatusEvents. */
  lemma StatusLog(log: seq<Event>, isInteraction: bool, stats: Option<Snapshot>)
    ensures log + (if isInteraction then [Deferred] else []) + [StatsRequested]
              + [if isInteraction then Edited(Answer(stats)) else Replied(Answer(stats))]
            == log + StatusEvents(isInteraction, stats)
  {
  }
}
