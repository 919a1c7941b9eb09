/**
 * The process-wide monitor: the configuration (target channel and period),
 * the single repeating timer that delivers reports, the configuration file,
 * and the effects the bot has on the outside world, in the order they happen.
 */
module Monitor {
  import opened Wrappers
  import opened Stats

  /** Where reports go (None stands for null) and how often, in milliseconds. */
  datatype Config = Config(channelId: Option<string>, interval: int)

  const DefaultConfig := Config(None, 60000)

  /** JavaScript truthiness of `config.channelId`: present and not the empty string. */
  predicate HasChannel(c: Config) {
    c.channelId.Some? && c.channelId.value != ""
  }

  /** What a reply carries: plain text, text only the invoker sees, or the report embed built from a snapshot. */
  datatype Content = Text(text: string) | EphemeralText(text: string) | Embed(snapshot: Snapshot)

  /** One outward effect of the bot. */
  datatype Event =
    | Saved(config: Config)                         // the configuration file written
    | TimerCleared(handle: nat)                     // clearInterval
    | TimerArmed(handle: nat, period: int)          // setInterval
    | StatsRequested                                // the statistics collector called
    | Posted(channelId: string, snapshot: Snapshot) // a report sent to a channel
    | Deferred                                      // interaction.deferReply
    | Replied(content: Content)                     // reply
    | Edited(content: Content)                      // interaction.editReply
    | FollowedUp(content: Content)                  // interaction.followUp

  /** What a command handler is given by the surface it was invoked from. */
  datatype Invocation =
    | Interaction(channelOption: Option<string>, intervalOption: Option<int>)
    | FreeText(args: seq<string>)

  /** `after` is `before` with further events appended. */
  predicate Extends(after: seq<Event>, before: seq<Event>) {
    |before| <= |after| && after[..|before|] == before
  }

  /** A final response to a command: a reply, an edited reply or a follow-up. */
  predicate IsResponse(e: Event) {
    e.Replied? || e.Edited? || e.FollowedUp?
  }

  /** The number of final responses (reply, edited reply, follow-up) among `evs`. */
  function Responses(evs: seq<Event>): nat {
    if evs == [] then 0
    else (if IsResponse(evs[0]) then 1 else 0) + Responses(evs[1..])
  }

  /** The number of reports sent among `evs`. */
  function Deliveries(evs: seq<Event>): nat {
    if evs == [] then 0 else (if evs[0].Posted? then 1 else 0) + Deliveries(evs[1..])
  }

  /** A single event is one response or none. */
  lemma ResponsesOne(e: Event)
    ensures Responses([e]) == if IsResponse(e) then 1 else 0
  {
    assert [e][1..] == [];
  }

  lemma {:induction false} ResponsesAppend(a: seq<Event>, b: seq<Event>)
    ensures Responses(a + b) == Responses(a) + Responses(b)
  {
    if a != [] {
      assert (a + b)[1..] == a[1..] + b;
      ResponsesAppend(a[1..], b);
    } else {
      assert a + b == b;
    }
  }

  lemma {:induction false} DeliveriesAppend(a: seq<Event>, b: seq<Event>)
    ensures Deliveries(a + b) == Deliveries(a) + Deliveries(b)
  {
    if a != [] {
      assert (a + b)[1..] == a[1..] + b;
      DeliveriesAppend(a[1..], b);
    } else {
      assert a + b == b;
    }
  }

  /** Events none of which is a response or a report hold none. */
  lemma {:induction false} QuietEvents(evs: seq<Event>)
    requires forall i :: 0 <= i < |evs| ==> !IsResponse(evs[i]) && !evs[i].Posted?
    ensures Responses(evs) == 0 && Deliveries(evs) == 0
  {
    if evs != [] {
      QuietEvents(evs[1..]);
    }
  }

  /** `after` is `before` with events appended that hold `n` final responses. */
  predicate Gained(after: seq<Event>, before: seq<Event>, n: nat) {
    Extends(after, before) && Responses(after[|before|..]) == n
  }

  lemma NothingGained(log: seq<Event>)
    ensures Gained(log, log, 0)
  {
    assert log[|log|..] == [];
  }

  lemma GainedAppend(before: seq<Event>, added: seq<Event>)
    ensures Gained(before + added, before, Responses(added))
  {
    assert (before + added)[|before|..] == added;
  }

  /** Growth composes: the responses gained in two steps add up. */
  lemma GainedTrans(a: seq<Event>, b: seq<Event>, c: seq<Event>, m: nat, n: nat)
    requires Gained(b, a, m) && Gained(c, b, n)
    ensures Gained(c, a, m + n)
  {
    assert c[..|b|] == b;
    assert c[|a|..] == b[|a|..] + c[|b|..];
    ResponsesAppend(b[|a|..], c[|b|..]);
  }

  function ClearEvents(handle: Option<nat>): (evs: seq<Event>)
    ensures Responses(evs) == 0 && Deliveries(evs) == 0
  {
    if handle.Some? then [TimerCleared(handle.value)] else []
  }

  /**
   * The effects of one report cycle under configuration `c`, when the collector
   * yields `stats` and `channels` are the channel ids that can be fetched.
   */
  function UpdateEvents(c: Config, stats: Option<Snapshot>, channels: set<string>): (evs: seq<Event>)
    ensures StatsRequested in evs <==> HasChannel(c)
    ensures Deliveries(evs) <= 1
    ensures Deliveries(evs) == 1 <==> HasChannel(c) && stats.Some? && c.channelId.value in channels
    ensures forall e :: e in evs && e.Posted? ==> HasChannel(c) && stats.Some? && e == Posted(c.channelId.value, stats.value)
    ensures Responses(evs) == 0
  {
    if !HasChannel(c) then []
    else if stats.None? || c.channelId.value !in channels then [StatsRequested]
    else [StatsRequested, Posted(c.channelId.value, stats.value)]
  }

  /**
   * The effects of startMonitoring: the held timer (if any) cleared, one
   * report cycle, then the new timer armed at the configured period.
   */
  function RestartEvents(held: Option<nat>, c: Config, stats: Option<Snapshot>, channels: set<string>,
                         handle: nat): (evs: seq<Event>)
    ensures Responses(evs) == 0
    ensures Deliveries(evs) == Deliveries(UpdateEvents(c, stats, channels)) && Deliveries(evs) <= 1
    ensures |evs| >= 1 && evs[|evs| - 1] == TimerArmed(handle, c.interval)
    ensures held.Some? ==> evs[0] == TimerCleared(held.value)
  {
    var cleared := ClearEvents(held);
    var update := UpdateEvents(c, stats, channels);
    var armed := [TimerArmed(handle, c.interval)];
    ResponsesAppend(cleared, update);
    ResponsesAppend(cleared + update, armed);
    DeliveriesAppend(cleared, update);
    DeliveriesAppend(cleared + update, armed);
    cleared + update + armed
  }

  /** The state startMonitoring leaves: the next handle held, live alone at the configured period. */
  function Restarted(s: BotState): (r: BotState)
  {
    s.(monitorInterval := Some(s.nextHandle), timers := map[s.nextHandle := s.config.interval],
       nextHandle := s.nextHandle + 1)
  }

  /** A state whose fields are those startMonitoring leaves is the restarted one. */
  lemma RestartedFields(before: BotState, after: BotState)
    requires after.config == before.config && after.saved == before.saved
    requires after.monitorInterval == Some(before.nextHandle) && after.nextHandle == before.nextHandle + 1
    requires after.timers == map[before.nextHandle := after.config.interval]
    ensures after == Restarted(before)
  {
  }

  /** The log after the steps of startMonitoring, one after another, is the log followed by RestartEvents. */
  lemma RestartLog(log: seq<Event>, held: Option<nat>, c: Config, stats: Option<Snapshot>, channels: set<string>,
                   handle: nat)
    ensures log + ClearEvents(held) + UpdateEvents(c, stats, channels) + [TimerArmed(handle, c.interval)]
            == log + RestartEvents(held, c, stats, channels, handle)
  {
  }

  /** The fields of a `Bot` other than its effect log, as one value. */
  datatype BotState = BotState(config: Config, monitorInterval: Option<nat>, timers: map<nat, int>, nextHandle: nat,
                               saved: Option<Config>)

  /** What a command does from a given state: the state it leaves and the events it adds to the log. */
  datatype Outcome = Outcome(after: BotState, events: seq<Event>)

  /** The bot process: its module-level state and the outside world it touches. */
  class Bot {
    var config: Config
    /** The handle of the repeating timer the bot holds, None when it holds none. */
    var monitorInterval: Option<nat>
    /** The runtime's live repeating timers, by handle, with their periods in milliseconds. */
    var timers: map<nat, int>
    var nextHandle: nat
    /** The configuration file: None when it is missing or does not parse. */
    var saved: Option<Config>
    var log: seq<Event>

    /** The only live timer is the one the bot holds, and handles are never reused. */
    ghost predicate Valid()
      reads this`timers, this`nextHandle, this`monitorInterval
    {
      && (forall h :: h in timers ==> h < nextHandle)
      && (monitorInterval.None? ==> timers == map[])
      && (monitorInterval.Some? ==> timers.Keys == {monitorInterval.value})
    }

    /** Everything but the effect log. */
    ghost function State(): BotState
      reads this`config, this`monitorInterval, this`timers, this`nextHandle, this`saved
    {
      BotState(config, monitorInterval, timers, nextHandle, saved)
    }

    /** The process at start-up, before the configuration file is read. */
    constructor (stored: Option<Config>)
      ensures Valid()
      ensures config == DefaultConfig && monitorInterval == None && timers == map[] && nextHandle == 0
      ensures saved == stored && log == []
    {
      config := DefaultConfig;
      monitorInterval := None;
      timers := map[];
      nextHandle := 0;
      saved := stored;
      log := [];
    }

    /** Appends one event to the log. */
    method Emit(e: Event)
      modifies this`log
      ensures log == old(log) + [e]
      ensures Gained(log, old(log), if IsResponse(e) then 1 else 0)
    {
      log := log + [e];
      GainedAppend(old(log), [e]);
    }

    /** saveConfig: writes the configuration, unless the write fails (`writeOk` false), which the caller sees as an error. */
    method SaveConfig(writeOk: bool) returns (ok: bool)
      modifies this`saved, this`log
      ensures ok == writeOk
      ensures saved == if ok then Some(config) else old(saved)
      ensures log == old(log) + if ok then [Saved(config)] else []
      ensures Gained(log, old(log), 0)
    {
      ok := writeOk;
      if ok {
        saved := Some(config);
        log := log + [Saved(config)];
        GainedAppend(old(log), [Saved(config)]);
      } else {
        NothingGained(log);
      }
    }

    /**
     * sendUpdate: nothing without a channel; otherwise ask for a snapshot, and
     * post it when there is one and the channel can be fetched. A failed fetch
     * or send is swallowed.
     */
    method SendUpdate(readings: Option<Readings>, channels: set<string>)
      modifies this`log
      ensures log == old(log) + UpdateEvents(config, GetSystemStats(readings), channels)
    {
      if !HasChannel(config) {
        return;
      }
      log := log + [StatsRequested];
      var stats := GetSystemStats(readings);
      if stats.None? {
        return;
      }
      var channelId := config.channelId.value;
      if channelId !in channels {
        return;
      }
      log := log + [Posted(channelId, stats.value)];
    }

    /**
     * startMonitoring: clear the held timer if any, run one report cycle at once,
     * then arm one new repeating timer at the current period.
     */
    method StartMonitoring(readings: Option<Readings>, channels: set<string>)
      requires Valid()
      modifies this
      ensures Valid()
      ensures config == old(config) && saved == old(saved)
      ensures monitorInterval == Some(old(nextHandle)) && nextHandle == old(nextHandle) + 1
      ensures timers == map[old(nextHandle) := config.interval]
      ensures log == old(log) + RestartEvents(old(monitorInterval), config, GetSystemStats(readings), channels,
                                              old(nextHandle))
      ensures Gained(log, old(log), 0)
    {
      ClearHeld();
      SendUpdate(readings, channels);
      Arm();
      RestartLog(old(log), old(monitorInterval), config, GetSystemStats(readings), channels, old(nextHandle));
      GainedAppend(old(log), RestartEvents(old(monitorInterval), config, GetSystemStats(readings), channels,
                                           old(nextHandle)));
    }

    /** `if (monitorInterval) clearInterval(monitorInterval)`: the held timer stops, the handle is kept. */
    method ClearHeld()
      requires Valid()
      modifies this`timers, this`log
      ensures timers == map[]
      ensures log == old(log) + ClearEvents(monitorInterval)
    {
      if monitorInterval.Some? {
        timers := timers - {monitorInterval.value};
        log := log + [TimerCleared(monitorInterval.value)];
      }
    }

    /** setInterval at the current period; the new handle is the one the bot holds. */
    method Arm()
      modifies this`timers, this`monitorInterval, this`nextHandle, this`log
      ensures monitorInterval == Some(old(nextHandle)) && nextHandle == old(nextHandle) + 1
      ensures timers == old(timers)[old(nextHandle) := config.interval]
      ensures log == old(log) + [TimerArmed(old(nextHandle), config.interval)]
    {
      var handle := nextHandle;
      timers := timers[handle := config.interval];
      monitorInterval := Some(handle);
      nextHandle := nextHandle + 1;
      log := log + [TimerArmed(handle, config.interval)];
    }

    /** stopMonitoring: clear the held timer and forget it; nothing happens when none is held. */
    method StopMonitoring()
      requires Valid()
      modifies this
      ensures Valid()
      ensures config == old(config) && saved == old(saved) && nextHandle == old(nextHandle)
      ensures monitorInterval == None && timers == map[]
      ensures log == old(log) + ClearEvents(old(monitorInterval))
      ensures Gained(log, old(log), 0)
      ensures old(monitorInterval).None? ==> State() == old(State()) && log == old(log)
    {
      if monitorInterval.Some? {
        timers := timers - {monitorInterval.value};
        log := log + [TimerCleared(monitorInterval.value)];
        monitorInterval := None;
      }
      GainedAppend(old(log), ClearEvents(old(monitorInterval)));
    }

    /**
     * loadConfig: a missing or unparsable file leaves the configuration as it is;
     * a parsed one replaces it wholesale and starts monitoring when it names a channel.
     */
    method LoadConfig(readings: Option<Readings>, channels: set<string>)
      requires Valid()
      modifies this
      ensures Valid() && saved == old(saved)
      ensures old(saved).None? ==> State() == old(State()) && log == old(log)
      ensures old(saved).Some? ==> config == old(saved).value
      ensures old(saved).Some? && !HasChannel(config) ==>
                && monitorInterval == old(monitorInterval) && timers == old(timers)
                && nextHandle == old(nextHandle) && log == old(log)
      ensures old(saved).Some? && HasChannel(config) ==>
                && monitorInterval == Some(old(nextHandle)) && nextHandle == old(nextHandle) + 1
                && timers == map[old(nextHandle) := config.interval]
                && log == old(log) + RestartEvents(old(monitorInterval), config, GetSystemStats(readings), channels,
                                                  old(nextHandle))
    {
      if saved.None? {
        return;
      }
      config := saved.value;
      if HasChannel(config) {
        StartMonitoring(readings, channels);
      }
    }

    /** A live timer fires: one report cycle under the configuration as it is now. */
    method Tick(handle: nat, readings: Option<Readings>, channels: set<string>)
      requires handle in timers
      modifies this`log
      ensures log == old(log) + UpdateEvents(config, GetSystemStats(readings), channels)
    {
      SendUpdate(readings, channels);
    }
  }

  /**
   * Process start-up: the bot with its configuration loaded from `stored`.
   * Without a usable file it runs on the defaults and starts no timer.
   */
  method Boot(stored: Option<Config>, readings: Option<Readings>, channels: set<string>) returns (bot: Bot)
    ensures fresh(bot) && bot.Valid() && bot.saved == stored
    ensures stored.None? ==> bot.config == DefaultConfig && bot.timers == map[] && bot.log == []
    ensures stored.Some? ==> bot.config == stored.value
    ensures stored.Some? ==> |bot.timers| == (if HasChannel(stored.value) then 1 else 0)
    ensures stored.Some? && HasChannel(stored.value) ==> bot.timers == map[0 := stored.value.interval]
    ensures stored.Some? && HasChannel(stored.value) ==>
              bot.log == RestartEvents(None, stored.value, GetSystemStats(readings), channels, 0)
    ensures stored.Some? && !HasChannel(stored.value) ==> bot.log == []
    ensures Deliveries(bot.log) <= 1
  {
    bot := new Bot(stored);
    bot.LoadConfig(readings, channels);
    if stored.Some? && HasChannel(stored.value) {
      assert bot.log == RestartEvents(None, bot.config, GetSystemStats(readings), channels, 0);
    }
  }
}
