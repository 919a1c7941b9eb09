/**
 * The two entry points of the bot: chat messages starting with '!' and
 * structured (slash) command invocations. Each is filtered, tokenized where
 * needed, looked up in the command registry and handed to the command, and a
 * command that fails gets the generic error reply.
 */
module Dispatch {
  import opened Wrappers
  import opened Strings
  import opened Stats
  import opened Monitor
  import SetupCommand
  import StopCommand
  import StatusCommand

  const AdminText := "You must be an administrator to use this bot."
  const GenericText := "There was an error while executing this command!"

  // ---------------------------------------------------------------------
  // Splitting on runs of spaces: `s.split(/ +/)`
  // ---------------------------------------------------------------------

  /** The index of the first space in `s`, or |s| when there is none. */
  function SpaceIndex(s: string): (i: nat)
    ensures i <= |s|
    ensures forall j :: 0 <= j < i ==> s[j] != ' '
    ensures i < |s| ==> s[i] == ' '
  {
    if s == [] || s[0] == ' ' then 0 else 1 + SpaceIndex(s[1..])
  }

  /** The length of the leading run of spaces of `s`. */
  function LeadingSpaces(s: string): (c: nat)
    ensures c <= |s|
    ensures forall j :: 0 <= j < c ==> s[j] == ' '
    ensures c < |s| ==> s[c] != ' '
  {
    if s != [] && s[0] == ' ' then 1 + LeadingSpaces(s[1..]) else 0
  }

  /** `s` without its leading run of spaces. */
  function SkipSpaces(s: string): (r: string)
    ensures |r| <= |s| && r == s[|s| - |r|..]
    ensures r == [] || r[0] != ' '
    ensures s != [] && s[0] == ' ' ==> |r| < |s|
    ensures forall j :: 0 <= j < |s| - |r| ==> s[j] == ' '
  {
    s[LeadingSpaces(s)..]
  }

  predicate NoSpace(t: string) {
    forall j :: 0 <= j < |t| ==> t[j] != ' '
  }

  /**
   * String.prototype.split with the separator / +/: the pieces between maximal
   * runs of spaces, with an empty first (last) piece when `s` starts (ends)
   * with a space, and [""] for the empty text.
   */
  function Split(s: string): (ts: seq<string>)
    ensures |ts| >= 1
    ensures forall k :: 0 <= k < |ts| ==> NoSpace(ts[k])
    decreases |s|
  {
    var i := SpaceIndex(s);
    if i == |s| then [s]
    else
      var rest := SkipSpaces(s[i..]);
      [s[..i]] + Split(rest)
  }

  /** A non-empty run of spaces: what the separator / +/ matches. */
  predicate SpaceRun(r: string) {
    r != [] && forall j :: 0 <= j < |r| ==> r[j] == ' '
  }

  predicate SpaceRuns(seps: seq<string>) {
    forall k :: 0 <= k < |seps| ==> SpaceRun(seps[k])
  }

  /** The pieces written out with the separators `seps` between neighbours. */
  function JoinWith(ts: seq<string>, seps: seq<string>): string
    requires ts != [] && |seps| == |ts| - 1
  {
    if |ts| == 1 then ts[0] else ts[0] + seps[0] + JoinWith(ts[1..], seps[1..])
  }

  /** A token: non-empty and free of white space (so also of spaces). */
  predicate IsToken(t: string) {
    t != [] && forall j :: 0 <= j < |t| ==> !IsWhitespace(t[j])
  }

  lemma SpaceIndexOf(t: string, rest: string)
    requires NoSpace(t)
    requires rest == [] || rest[0] == ' '
    ensures SpaceIndex(t + rest) == |t|
  {
    var s := t + rest;
    assert forall j :: 0 <= j < |t| ==> s[j] == t[j];
    assert |t| < |s| ==> s[|t|] == rest[0];
  }

  lemma {:induction false} LeadingSpacesOf(run: string, tail: string)
    requires forall j :: 0 <= j < |run| ==> run[j] == ' '
    requires tail == [] || tail[0] != ' '
    ensures LeadingSpaces(run + tail) == |run|
  {
    if run != [] {
      assert (run + tail)[0] == ' ' && (run + tail)[1..] == run[1..] + tail;
      LeadingSpacesOf(run[1..], tail);
    } else {
      assert run + tail == tail;
    }
  }

  /** Splitting tokens written with runs of spaces between them gives the tokens back. */
  lemma {:induction false} SplitJoin(ts: seq<string>, seps: seq<string>)
    requires ts != [] && |seps| == |ts| - 1 && SpaceRuns(seps)
    requires forall k :: 0 <= k < |ts| ==> IsToken(ts[k])
    ensures Split(JoinWith(ts, seps)) == ts
  {
    var t := ts[0];
    assert IsToken(t);
    if |ts| == 1 {
      SpaceIndexOf(t, []);
      assert t + [] == t;
    } else {
      assert SpaceRun(seps[0]);
      JoinEnds(ts[1..], seps[1..]);
      SplitCons(t, seps[0], JoinWith(ts[1..], seps[1..]));
      SplitJoin(ts[1..], seps[1..]);
      assert ts == [t] + ts[1..];
    }
  }

  /**
   * A piece without spaces, a run of spaces and a text not starting with a
   * space split as the piece followed by that text's pieces.
   */
  lemma SplitCons(t: string, run: string, tail: string)
    requires NoSpace(t) && SpaceRun(run)
    requires tail == [] || tail[0] != ' '
    ensures Split(t + run + tail) == [t] + Split(tail)
  {
    var s := t + (run + tail);
    assert t + run + tail == s;
    SpaceIndexOf(t, run + tail);
    assert s[..|t|] == t && s[|t|..] == run + tail;
    LeadingSpacesOf(run, tail);
    assert SkipSpaces(run + tail) == tail;
  }

  /** Text written from tokens starts with the first token's first character and ends with the last token's last. */
  lemma {:induction false} JoinEnds(ts: seq<string>, seps: seq<string>)
    requires ts != [] && |seps| == |ts| - 1
    requires forall k :: 0 <= k < |ts| ==> IsToken(ts[k])
    ensures IsToken(ts[0]) && IsToken(ts[|ts| - 1])
    ensures var s := JoinWith(ts, seps); s != [] && s[0] == ts[0][0] && s[|s| - 1] == ts[|ts| - 1][|ts[|ts| - 1]| - 1]
  {
    assert IsToken(ts[0]) && IsToken(ts[|ts| - 1]);
    if |ts| > 1 {
      JoinEnds(ts[1..], seps[1..]);
    }
  }

  /** The runs of spaces that Split cuts `s` at, in order. */
  function Cuts(s: string): seq<string>
    decreases |s|
  {
    var i := SpaceIndex(s);
    if i == |s| then []
    else
      var n := LeadingSpaces(s[i..]);
      [s[i..i + n]] + Cuts(s[i + n..])
  }

  /** The pieces strictly between the first and the last are non-empty. */
  predicate InnerNonEmpty(ts: seq<string>) {
    forall k :: 0 < k < |ts| - 1 ==> ts[k] != []
  }

  /**
   * Every text is its pieces written back with the runs of spaces it was cut
   * at, and no piece between two runs is empty: the pieces are the maximal
   * space-free stretches of the text.
   */
  lemma {:induction false} SplitRejoin(s: string)
    ensures |Cuts(s)| == |Split(s)| - 1 && SpaceRuns(Cuts(s))
    ensures JoinWith(Split(s), Cuts(s)) == s
    ensures InnerNonEmpty(Split(s))
    decreases |s|
  {
    var i := SpaceIndex(s);
    if i < |s| {
      var n := LeadingSpaces(s[i..]);
      var r := s[i + n..];
      CutStep(s, i, n);
      ThreeParts(s, i, i + n);
      SplitRejoin(r);
      RejoinStep(s[..i], s[i..i + n], r, Split(r), Cuts(r));
      FirstPiece(r);
      InnerCons(s[..i], Split(r));
    }
  }

  /** One step of Split and Cuts on a text holding a space at `i`, followed by `n` spaces in all. */
  lemma CutStep(s: string, i: nat, n: nat)
    requires i == SpaceIndex(s) && i < |s| && n == LeadingSpaces(s[i..])
    ensures n >= 1 && i + n <= |s| && SpaceRun(s[i..i + n])
    ensures i + n == |s| || s[i + n] != ' '
    ensures Split(s) == [s[..i]] + Split(s[i + n..])
    ensures Cuts(s) == [s[i..i + n]] + Cuts(s[i + n..])
  {
    RunAt(s, i, n);
    SplitAt(s, i, n);
    CutsAt(s, i, n);
  }

  lemma SplitAt(s: string, i: nat, n: nat)
    requires i == SpaceIndex(s) && i < |s| && n == LeadingSpaces(s[i..])
    ensures Split(s) == [s[..i]] + Split(s[i + n..])
  {
    DropTwice(s, i, n);
  }

  lemma CutsAt(s: string, i: nat, n: nat)
    requires i == SpaceIndex(s) && i < |s| && n == LeadingSpaces(s[i..])
    ensures Cuts(s) == [s[i..i + n]] + Cuts(s[i + n..])
  {
  }

  lemma RunAt(s: string, i: nat, n: nat)
    requires i < |s| && s[i] == ' ' && n == LeadingSpaces(s[i..])
    ensures n >= 1 && i + n <= |s| && SpaceRun(s[i..i + n])
    ensures i + n == |s| || s[i + n] != ' '
  {
    var u := s[i..];
    var run := s[i..i + n];
    assert u[0] == ' ';
    forall j | 0 <= j < n
      ensures run[j] == ' '
    {
      assert run[j] == u[j];
    }
  }

  lemma DropTwice(s: string, i: nat, n: nat)
    requires i + n <= |s|
    ensures s[i..][n..] == s[i + n..]
  {
  }

  lemma ThreeParts(s: string, i: nat, j: nat)
    requires i <= j <= |s|
    ensures s == s[..i] + s[i..j] + s[j..]
  {
    assert s[..j] == s[..i] + s[i..j];
  }

  lemma RejoinStep(p: string, run: string, r: string, ts: seq<string>, cs: seq<string>)
    requires SpaceRun(run) && ts != [] && |cs| == |ts| - 1 && SpaceRuns(cs) && JoinWith(ts, cs) == r
    ensures |[run] + cs| == |[p] + ts| - 1 && SpaceRuns([run] + cs)
    ensures JoinWith([p] + ts, [run] + cs) == p + run + r
  {
    assert ([p] + ts)[1..] == ts && ([run] + cs)[1..] == cs;
  }

  lemma InnerCons(p: string, ts: seq<string>)
    requires ts != [] && InnerNonEmpty(ts) && (|ts| > 1 ==> ts[0] != [])
    ensures InnerNonEmpty([p] + ts)
  {
    forall k | 0 < k < |[p] + ts| - 1
      ensures ([p] + ts)[k] != []
    {
      assert ([p] + ts)[k] == ts[k - 1];
    }
  }

  /** A text not starting with a space has a non-empty first piece, unless it is empty. */
  lemma FirstPiece(r: string)
    requires r == [] || r[0] != ' '
    ensures r == [] || Split(r)[0] != []
  {
  }

  predicate NonEmptyPieces(ts: seq<string>) {
    forall k :: 0 <= k < |ts| ==> ts[k] != []
  }

  /** A text without leading or trailing spaces and not empty splits into non-empty pieces only. */
  lemma {:induction false} SplitTokensNonEmpty(s: string)
    requires s != [] && s[0] != ' ' && s[|s| - 1] != ' '
    ensures NonEmptyPieces(Split(s))
    decreases |s|
  {
    var i := SpaceIndex(s);
    if i < |s| {
      var r := SkipSpaces(s[i..]);
      LastKept(s[i..]);
      SplitTokensNonEmpty(r);
      SplitStep(s);
      NonEmptyCons(s[..i], Split(r));
    } else {
      assert Split(s) == [s];
    }
  }

  /** One step of Split on a text holding a space. */
  lemma SplitStep(s: string)
    requires SpaceIndex(s) < |s|
    ensures Split(s) == [s[..SpaceIndex(s)]] + Split(SkipSpaces(s[SpaceIndex(s)..]))
  {
  }

  lemma NonEmptyCons(t: string, ts: seq<string>)
    requires t != [] && NonEmptyPieces(ts)
    ensures NonEmptyPieces([t] + ts)
  {
    forall k | 0 <= k < |[t] + ts|
      ensures ([t] + ts)[k] != []
    {
      assert k > 0 ==> ([t] + ts)[k] == ts[k - 1];
    }
  }

  lemma LastKept(u: string)
    requires u != [] && u[|u| - 1] != ' '
    ensures SkipSpaces(u) != [] && SkipSpaces(u)[|SkipSpaces(u)| - 1] == u[|u| - 1]
  {
    var r := SkipSpaces(u);
    var last := u[|u| - 1];
    assert r == [] ==> last == ' ';
  }

  // ---------------------------------------------------------------------
  // Command names
  // ---------------------------------------------------------------------

  /** String.prototype.toLowerCase on the ASCII letters; every other character is kept. */
  function LowerChar(c: char): char {
    if 'A' <= c <= 'Z' then (c as int - 'A' as int + 'a' as int) as char else c
  }

  function Lower(s: string): (r: string)
    ensures |r| == |s| && forall i :: 0 <= i < |s| ==> r[i] == LowerChar(s[i])
  {
    if s == [] then [] else [LowerChar(s[0])] + Lower(s[1..])
  }

  datatype Command = Setup | Status | Stop

  /** The name each command registers under. */
  function Name(c: Command): string {
    match c
    case Setup => "setup"
    case Status => "status"
    case Stop => "stop"
  }

  /** `client.commands.get(name)`: the command registered under exactly `name`. */
  function Lookup(name: string): (r: Option<Command>)
    ensures r.Some? ==> Name(r.value) == name
    ensures r.None? ==> forall c: Command :: Name(c) != name
  {
    if name == "setup" then Some(Setup)
    else if name == "status" then Some(Status)
    else if name == "stop" then Some(Stop)
    else None
  }

  /** Every command is found under its own name. */
  lemma LookupName(c: Command)
    ensures Lookup(Name(c)) == Some(c)
  {
  }

  /** The registered names are already lower case, so a name typed in any case reaches its command. */
  lemma LowerName(c: Command)
    ensures Lower(Name(c)) == Name(c)
  {
  }

  // ---------------------------------------------------------------------
  // Routing
  // ---------------------------------------------------------------------

  /** A chat message as the handler sees it: from a bot or not, from an administrator or not, and its text. */
  datatype ChatMessage = ChatMessage(fromBot: bool, isAdmin: bool, content: string)

  /** A structured invocation: whether it is a chat-input command, its name and its options. */
  datatype SlashCommand = SlashCommand(isChatInput: bool, commandName: string,
                                       channelOption: Option<string>, intervalOption: Option<int>)

  datatype Route =
    | Ignored                                     // not for this bot: no effect at all
    | Rejected                                    // a command from a non-administrator: refused with a reply
    | Unknown(name: string)                       // no command under that name: no effect at all
    | Dispatched(command: Command, args: seq<string>)

  predicate StartsWithBang(content: string) {
    content != [] && content[0] == '!'
  }

  /** `message.content.slice(1).trim().split(/ +/)`. */
  function Tokens(content: string): (ts: seq<string>)
    requires StartsWithBang(content)
    ensures |ts| >= 1
  {
    Split(Trim(content[1..]))
  }

  /** The arguments after the command name are words: never empty and free of spaces. */
  lemma ArgsAreWords(content: string)
    requires StartsWithBang(content)
    ensures var ts := Tokens(content); forall k :: 1 <= k < |ts| ==> ts[k] != [] && NoSpace(ts[k])
  {
    var t := Trim(content[1..]);
    if t != [] {
      SplitTokensNonEmpty(t);
    } else {
      assert Split(t) == [t];
    }
  }

  /** Where a chat message goes: the bot filter, then the administrator check, then the registry. */
  function RouteMessage(m: ChatMessage): (r: Route)
    ensures r.Ignored? <==> m.fromBot || !StartsWithBang(m.content)
    ensures r.Rejected? <==> !m.fromBot && StartsWithBang(m.content) && !m.isAdmin
    ensures r.Unknown? <==>
              !m.fromBot && StartsWithBang(m.content) && m.isAdmin && Lookup(Lower(Tokens(m.content)[0])).None?
    ensures r.Unknown? ==> r.name == Lower(Tokens(m.content)[0])
    ensures r.Dispatched? ==>
              && m.isAdmin && StartsWithBang(m.content)
              && Name(r.command) == Lower(Tokens(m.content)[0]) && r.args == Tokens(m.content)[1..]
  {
    if m.fromBot || !StartsWithBang(m.content) then Ignored
    else if !m.isAdmin then Rejected
    else
      var tokens := Tokens(m.content);
      var name := Lower(tokens[0]);
      match Lookup(name)
      case None => Unknown(name)
      case Some(c) => Dispatched(c, tokens[1..])
  }

  /** Where a structured invocation goes: chat-input commands only, then the registry. */
  function RouteInteraction(i: SlashCommand): (r: Route)
    ensures r.Ignored? <==> !i.isChatInput
    ensures !r.Rejected?
    ensures r.Unknown? <==> i.isChatInput && Lookup(i.commandName).None?
    ensures r.Dispatched? ==> Name(r.command) == i.commandName && r.args == []
  {
    if !i.isChatInput then Ignored
    else match Lookup(i.commandName)
      case None => Unknown(i.commandName)
      case Some(c) => Dispatched(c, [])
  }

  /**
   * An administrator's "!" followed by a command name in any case and its
   * arguments, written with runs of spaces between them, reaches that command
   * with exactly those arguments.
   */
  lemma RouteWrittenCommand(c: Command, name: string, args: seq<string>, seps: seq<string>)
    requires IsToken(name) && Lower(name) == Name(c)
    requires forall k :: 0 <= k < |args| ==> IsToken(args[k])
    requires |seps| == |args| && SpaceRuns(seps)
    ensures RouteMessage(ChatMessage(false, true, "!" + JoinWith([name] + args, seps))) == Dispatched(c, args)
  {
    var ts := [name] + args;
    assert forall k :: 0 <= k < |ts| ==> IsToken(ts[k]) by {
      forall k | 0 <= k < |ts| ensures IsToken(ts[k]) {
        assert k > 0 ==> ts[k] == args[k - 1];
      }
    }
    TokensOfJoined(ts, seps);
    LookupName(c);
  }

  /** The tokens of "!" followed by tokens written with runs of spaces between them are those tokens. */
  lemma TokensOfJoined(ts: seq<string>, seps: seq<string>)
    requires ts != [] && |seps| == |ts| - 1 && SpaceRuns(seps)
    requires forall k :: 0 <= k < |ts| ==> IsToken(ts[k])
    ensures StartsWithBang("!" + JoinWith(ts, seps)) && Tokens("!" + JoinWith(ts, seps)) == ts
  {
    var body := JoinWith(ts, seps);
    assert ("!" + body)[1..] == body;
    JoinEnds(ts, seps);
    var last := ts[|ts| - 1];
    assert !IsWhitespace(body[0]) && !IsWhitespace(last[|last| - 1]);
    assert Trim(body) == body;
    SplitJoin(ts, seps);
  }

  // ---------------------------------------------------------------------
  // Failures
  // ---------------------------------------------------------------------

  /** `interaction.replied || interaction.deferred` after the events `evs` of the failed command. */
  predicate Acknowledged(evs: seq<Event>) {
    Deferred in evs || exists i :: 0 <= i < |evs| && evs[i].Replied?
  }

  /**
   * The reply to a command that failed after producing `evs`: a plain reply on
   * the message surface; on the structured surface a private follow-up when
   * the invocation was already answered or deferred, else a private reply.
   */
  function FaultResponse(isInteraction: bool, evs: seq<Event>): (e: Event)
    ensures IsResponse(e)
    ensures e.content == Text(GenericText) || e.content == EphemeralText(GenericText)
    ensures e.content.EphemeralText? <==> isInteraction
    ensures e.FollowedUp? <==> isInteraction && Acknowledged(evs)
  {
    if !isInteraction then Replied(Text(GenericText))
    else if Acknowledged(evs) then FollowedUp(EphemeralText(GenericText))
    else Replied(EphemeralText(GenericText))
  }

  /** The structured surface never replies twice: after an answer or a deferral the error goes out as a follow-up. */
  lemma FaultAfterDeferral(evs: seq<Event>)
    requires Deferred in evs
    ensures FaultResponse(true, evs) == FollowedUp(EphemeralText(GenericText))
  {
  }

  // ---------------------------------------------------------------------
  // Running a command
  // ---------------------------------------------------------------------

  /** Whether the command runs to completion or escapes with an error. */
  predicate Succeeds(command: Command, inv: Invocation, writeOk: bool) {
    match command
    case Setup => !SetupCommand.ParseRequest(inv).ChannelMissing?
    case Status => true
    case Stop => writeOk
  }

  /** What the command does from state `s`: the state it leaves and the events it adds. */
  function Executed(command: Command, inv: Invocation, s: BotState, channels: set<string>, writeOk: bool,
                    readings: Option<Readings>): Outcome
  {
    match command
    case Setup => SetupCommand.Executed(s, inv, channels, writeOk, readings)
    case Status => Outcome(s, StatusCommand.StatusEvents(inv.Interaction?, GetSystemStats(readings)))
    case Stop => StopCommand.Executed(s, writeOk)
  }

  /** A response carrying the generic error text. */
  predicate IsFault(e: Event) {
    IsResponse(e) && (e.content == Text(GenericText) || e.content == EphemeralText(GenericText))
  }

  lemma {:induction false} Silent(evs: seq<Event>)
    requires Responses(evs) == 0
    ensures forall k :: 0 <= k < |evs| ==> !IsResponse(evs[k])
  {
    if evs != [] {
      Silent(evs[1..]);
      assert forall k :: 1 <= k < |evs| ==> evs[k] == evs[1..][k - 1];
    }
  }

  /** No event among `evs` is the generic error reply. */
  predicate FaultFree(evs: seq<Event>) {
    forall k :: 0 <= k < |evs| ==> !IsFault(evs[k])
  }

  /**
   * A command that completes adds exactly one response and none is the generic
   * error reply; one that fails adds nothing at all.
   */
  lemma ExecutedResponds(command: Command, inv: Invocation, s: BotState, channels: set<string>, writeOk: bool,
                         readings: Option<Readings>)
    ensures var evs := Executed(command, inv, s, channels, writeOk, readings).events;
            && Responses(evs) == (if Succeeds(command, inv, writeOk) then 1 else 0)
            && (!Succeeds(command, inv, writeOk) ==> evs == [])
            && FaultFree(evs)
  {
    match command
    case Setup => SetupResponds(inv, s, channels, writeOk, readings);
    case Status => StatusResponds(inv.Interaction?, GetSystemStats(readings));
    case Stop => StopResponds(s, writeOk);
  }

  lemma SetupResponds(inv: Invocation, s: BotState, channels: set<string>, writeOk: bool, readings: Option<Readings>)
    ensures var evs := SetupCommand.Executed(s, inv, channels, writeOk, readings).events;
            && Responses(evs) == (if SetupCommand.ParseRequest(inv).ChannelMissing? then 0 else 1)
            && (SetupCommand.ParseRequest(inv).ChannelMissing? ==> evs == [])
            && FaultFree(evs)
  {
    var evs := SetupCommand.Executed(s, inv, channels, writeOk, readings).events;
    var r := SetupCommand.ParseRequest(inv);
    if r.ShowUsage? {
      assert SetupCommand.UsageText != GenericText;
    } else if r.Configure? {
      SetupCommand.AppliedResponds(s, r.channelId, r.intervalMins, channels, writeOk, readings);
      assert SetupCommand.InvalidChannelText != GenericText;
      if r.channelId in channels && writeOk {
        CommittedFaultFree(s, r.channelId, r.intervalMins, channels, readings);
      }
    }
  }

  lemma CommittedFaultFree(s: BotState, channelId: string, intervalMins: int, channels: set<string>,
                           readings: Option<Readings>)
    ensures FaultFree(SetupCommand.Committed(s, channelId, intervalMins, channels, true, readings).events)
  {
    var c := Config(Some(channelId), intervalMins * 60000);
    var restart := RestartEvents(s.monitorInterval, c, GetSystemStats(readings), channels, s.nextHandle);
    var reply := Replied(Text(SetupCommand.Confirmation(channelId, intervalMins)));
    SetupCommand.CommittedSaved(s, channelId, intervalMins, channels, readings);
    var evs := [Saved(c)] + restart + [reply];
    Silent(restart);
    ConfirmationNotGeneric(channelId, intervalMins);
    forall k | 0 <= k < |evs|
      ensures !IsFault(evs[k])
    {
      if 0 < k < |evs| - 1 {
        assert evs[k] == restart[k - 1];
      } else if k == |evs| - 1 {
        assert evs[k] == reply;
      }
    }
  }

  lemma ConfirmationNotGeneric(channelId: string, intervalMins: int)
    ensures SetupCommand.Confirmation(channelId, intervalMins) != GenericText
  {
    SetupCommand.ConfirmationLength(channelId, intervalMins);
    assert |GenericText| < |SetupCommand.ConfirmationLead| + |SetupCommand.ConfirmationTail|;
  }

  lemma StatusResponds(isInteraction: bool, stats: Option<Snapshot>)
    ensures FaultFree(StatusCommand.StatusEvents(isInteraction, stats))
  {
    var evs := StatusCommand.StatusEvents(isInteraction, stats);
    assert StatusCommand.FailedText != GenericText;
    assert forall k :: 0 <= k < |evs| - 1 ==> !IsResponse(evs[k]);
  }

  lemma StopResponds(s: BotState, writeOk: bool)
    ensures var evs := StopCommand.Executed(s, writeOk).events;
            && Responses(evs) == (if writeOk then 1 else 0)
            && (!writeOk ==> evs == [])
            && FaultFree(evs)
  {
    if writeOk {
      var c := Config(None, s.config.interval);
      var clear := ClearEvents(s.monitorInterval);
      var reply := Replied(Text(StopCommand.StoppedText));
      assert StopCommand.Executed(s, writeOk).events == [Saved(c)] + clear + [reply];
      ResponsesAppend([Saved(c)], clear);
      ResponsesAppend([Saved(c)] + clear, [reply]);
      Silent(clear);
      assert StopCommand.StoppedText != GenericText;
    }
  }

  /**
   * `command.execute(source, context)`: `ok` false when it escapes with an
   * error. The new state and the added events are the command's outcome.
   */
  method Run(bot: Bot, command: Command, inv: Invocation, channels: set<string>, writeOk: bool,
             readings: Option<Readings>) returns (ok: bool)
    requires bot.Valid()
    modifies bot
    ensures bot.Valid()
    ensures ok == Succeeds(command, inv, writeOk)
    ensures bot.State() == Executed(command, inv, old(bot.State()), channels, writeOk, readings).after
    ensures bot.log == old(bot.log) + Executed(command, inv, old(bot.State()), channels, writeOk, readings).events
  {
    match command
    case Setup =>
      ok := SetupCommand.Execute(bot, inv, channels, writeOk, readings);
    case Status =>
      StatusCommand.Execute(bot, inv.Interaction?, readings);
      ok := true;
    case Stop =>
      ok := StopCommand.Execute(bot, writeOk);
  }

  /**
   * The `try`/`catch` around `command.execute` in both handlers: the command
   * runs, and when it escapes with an error the generic reply follows, chosen
   * by FaultResponse from what the command had already sent. Either way the
   * invocation gets exactly one response.
   */
  method Guarded(bot: Bot, command: Command, inv: Invocation, isInteraction: bool, channels: set<string>,
                 writeOk: bool, readings: Option<Readings>)
    requires bot.Valid()
    modifies bot
    ensures bot.Valid()
    ensures var o := Executed(command, inv, old(bot.State()), channels, writeOk, readings);
            && bot.State() == o.after
            && bot.log == old(bot.log) + o.events
                            + (if Succeeds(command, inv, writeOk) then [] else [FaultResponse(isInteraction, [])])
    ensures Gained(bot.log, old(bot.log), 1)
  {
    var start := |bot.log|;
    var ok := Run(bot, command, inv, channels, writeOk, readings);
    ExecutedResponds(command, inv, old(bot.State()), channels, writeOk, readings);
    ghost var ran := bot.log;
    GainedAppend(old(bot.log), ran[|old(bot.log)|..]);
    if !ok {
      assert bot.log[start..] == [];
      bot.Emit(FaultResponse(isInteraction, bot.log[start..]));
      GainedTrans(old(bot.log), ran, bot.log, 0, 1);
    }
  }

  // ---------------------------------------------------------------------
  // The handlers
  // ---------------------------------------------------------------------

  /**
   * The chat-message handler. Messages not for the bot and unknown commands
   * have no effect; a non-administrator gets the refusal; a dispatched
   * command has its outcome, followed by the generic error reply when it
   * failed, so that it always ends with exactly one response.
   */
  method HandleMessage(bot: Bot, m: ChatMessage, channels: set<string>, writeOk: bool, readings: Option<Readings>)
    returns (route: Route)
    requires bot.Valid()
    modifies bot
    ensures bot.Valid()
    ensures route == RouteMessage(m)
    ensures route.Ignored? || route.Unknown? ==> bot.State() == old(bot.State()) && bot.log == old(bot.log)
    ensures route.Rejected? ==>
              bot.State() == old(bot.State()) && bot.log == old(bot.log) + [Replied(Text(AdminText))]
    ensures route.Dispatched? ==>
              var inv := FreeText(route.args);
              var o := Executed(route.command, inv, old(bot.State()), channels, writeOk, readings);
              && bot.State() == o.after
              && bot.log == old(bot.log) + o.events
                              + (if Succeeds(route.command, inv, writeOk) then [] else [Replied(Text(GenericText))])
    ensures route.Dispatched? ==> Gained(bot.log, old(bot.log), 1)
  {
    if m.fromBot || !StartsWithBang(m.content) {
      return Ignored;
    }
    if !m.isAdmin {
      bot.Emit(Replied(Text(AdminText)));
      return Rejected;
    }
    var args := Split(Trim(m.content[1..]));
    var commandName := Lower(args[0]);
    args := args[1..];
    var command := Lookup(commandName);
    if command.None? {
      return Unknown(commandName);
    }
    route := Dispatched(command.value, args);
    Guarded(bot, command.value, FreeText(args), false, channels, writeOk, readings);
  }

  /**
   * The structured-invocation handler: like the message handler without the
   * administrator check, and with the error reply private.
   */
  method HandleInteraction(bot: Bot, i: SlashCommand, channels: set<string>, writeOk: bool,
                           readings: Option<Readings>) returns (route: Route)
    requires bot.Valid()
    modifies bot
    ensures bot.Valid()
    ensures route == RouteInteraction(i)
    ensures route.Ignored? || route.Unknown? ==> bot.State() == old(bot.State()) && bot.log == old(bot.log)
    ensures route.Dispatched? ==>
              var inv := Interaction(i.channelOption, i.intervalOption);
              var o := Executed(route.command, inv, old(bot.State()), channels, writeOk, readings);
              && bot.State() == o.after
              && bot.log == old(bot.log) + o.events
                              + (if Succeeds(route.command, inv, writeOk) then []
                                 else [Replied(EphemeralText(GenericText))])
    ensures route.Dispatched? ==> Gained(bot.log, old(bot.log), 1)
  {
    if !i.isChatInput {
      return Ignored;
    }
    var command := Lookup(i.commandName);
    if command.None? {
      return Unknown(i.commandName);
    }
    route := Dispatched(command.value, []);
    Guarded(bot, command.value, Interaction(i.channelOption, i.intervalOption), true, channels, writeOk, readings);
  }

  // ---------------------------------------------------------------------
  // Two setup messages, end to end
  // ---------------------------------------------------------------------

  /** `!setup`, a channel argument and a period argument is the setup command with those two arguments. */
  lemma SetupMessageRoute(channelArg: string, periodArg: string, content: string)
    requires IsToken(channelArg) && IsToken(periodArg)
    requires content == "!setup " + channelArg + " " + periodArg
    ensures RouteMessage(ChatMessage(false, true, content)) == Dispatched(Setup, [channelArg, periodArg])
  {
    var args := [channelArg, periodArg];
    SetupText(channelArg, periodArg);
    SetupIsToken();
    assert forall k :: 0 <= k < |args| ==> IsToken(args[k]);
    SingleSpaces();
    RouteWrittenCommand(Setup, "setup", args, [" ", " "]);
  }

  /** "!setup", a channel and a period, one space apart, written as joined tokens. */
  lemma SetupText(channelArg: string, periodArg: string)
    ensures "!" + JoinWith(["setup", channelArg, periodArg], [" ", " "]) == "!setup " + channelArg + " " + periodArg
  {
    var ts, seps := ["setup", channelArg, periodArg], [" ", " "];
    assert ts[1..] == [channelArg, periodArg] && seps[1..] == [" "];
    assert [channelArg, periodArg][1..] == [periodArg] && [" "][1..] == [];
    assert JoinWith([periodArg], []) == periodArg;
    assert JoinWith([channelArg, periodArg], [" "]) == channelArg + " " + periodArg;
    assert JoinWith(ts, seps) == "setup" + " " + (channelArg + " " + periodArg);
  }

  lemma SetupIsToken()
    ensures IsToken("setup") && Lower("setup") == Name(Setup)
  {
  }

  lemma SingleSpaces()
    ensures SpaceRuns([" ", " "])
  {
  }

  /** A setup request for a fetchable channel, with the file writable, restarts monitoring and confirms. */
  lemma SetupConfigured(s: BotState, args: seq<string>, channelId: string, intervalMins: int, channels: set<string>,
                        readings: Option<Readings>)
    requires SetupCommand.ParseRequest(FreeText(args)) == SetupCommand.Configure(channelId, intervalMins)
    requires channelId in channels
    ensures var o := Executed(Setup, FreeText(args), s, channels, true, readings);
            var c := Config(Some(channelId), intervalMins * 60000);
            && Succeeds(Setup, FreeText(args), true)
            && o.after == Restarted(s.(config := c, saved := Some(c)))
            && o.events != [] && o.events[|o.events| - 1] == Replied(Text(SetupCommand.Confirmation(channelId, intervalMins)))
  {
    SetupCommand.CommittedSaved(s, channelId, intervalMins, channels, readings);
  }

  /** A channel mention is a token. */
  lemma MentionIsToken(d: string)
    requires d != [] && AllDigits(d)
    ensures IsToken("<#" + d + ">")
  {
    var m := "<#" + d + ">";
    forall j | 0 <= j < |m|
      ensures !IsWhitespace(m[j])
    {
      if 2 <= j < |m| - 1 {
        assert m[j] == d[j - 2];
        DigitIsNotWhitespace(d[j - 2]);
      }
    }
  }

  /** The decimal text of a number is a token. */
  lemma NumberIsToken(n: int)
    requires n >= 1
    ensures IsToken(IntText(n))
  {
    var t := IntText(n);
    forall j | 0 <= j < |t|
      ensures !IsWhitespace(t[j])
    {
      DigitIsNotWhitespace(t[j]);
    }
  }

  /**
   * An administrator writes `!setup <#d> n` for a fetchable channel d and a
   * positive n, and the file can be written: reports go to channel d every
   * n minutes, that configuration is saved, the one live timer runs at that
   * period, and the last event is the confirmation.
   */
  method SetupByMention(bot: Bot, content: string, d: string, n: int, channels: set<string>,
                        readings: Option<Readings>) returns (route: Route)
    requires bot.Valid()
    requires d != [] && AllDigits(d) && n >= 1 && d in channels
    requires content == "!setup " + ("<#" + d + ">") + " " + IntText(n)
    modifies bot
    ensures route == Dispatched(Setup, ["<#" + d + ">", IntText(n)])
    ensures bot.config == Config(Some(d), n * 60000) && bot.saved == Some(bot.config)
    ensures bot.monitorInterval.Some? && bot.timers == map[bot.monitorInterval.value := n * 60000]
    ensures bot.log != [] && bot.log[|bot.log| - 1] == Replied(Text(SetupCommand.Confirmation(d, n)))
  {
    var args := ["<#" + d + ">", IntText(n)];
    MentionIsToken(d);
    NumberIsToken(n);
    SetupMessageRoute(args[0], args[1], content);
    SetupCommand.MentionAndNumber(d, n);
    SetupConfigured(bot.State(), args, d, n, channels, readings);
    route := HandleMessage(bot, ChatMessage(false, true, content), channels, true, readings);
  }

  /**
   * An administrator writes `!setup <#d> t` for a fetchable channel d and a
   * word t without digits, and the file can be written: the period falls
   * back to one minute (60000 ms) instead of the command failing.
   */
  method SetupByMentionAndWord(bot: Bot, content: string, d: string, t: string, channels: set<string>,
                               readings: Option<Readings>) returns (route: Route)
    requires bot.Valid()
    requires d != [] && AllDigits(d) && d in channels
    requires IsToken(t) && forall i :: 0 <= i < |t| ==> !IsDigit(t[i])
    requires content == "!setup " + ("<#" + d + ">") + " " + t
    modifies bot
    ensures route == Dispatched(Setup, ["<#" + d + ">", t])
    ensures bot.config == Config(Some(d), 60000) && bot.saved == Some(bot.config)
    ensures bot.monitorInterval.Some? && bot.timers == map[bot.monitorInterval.value := 60000]
    ensures bot.log != [] && bot.log[|bot.log| - 1] == Replied(Text(SetupCommand.Confirmation(d, 1)))
  {
    var args := ["<#" + d + ">", t];
    MentionIsToken(d);
    SetupMessageRoute(args[0], args[1], content);
    SetupCommand.MentionAndText(d, t);
    SetupConfigured(bot.State(), args, d, 1, channels, readings);
    route := HandleMessage(bot, ChatMessage(false, true, content), channels, true, readings);
  }

  lemma TenText()
    ensures IntText(10) == "10"
  {
    assert Decimal(1) == [DigitChar(1)];
    assert Decimal(10) == Decimal(1) + [DigitChar(0)];
  }

  lemma OneText()
    ensures IntText(1) == "1"
  {
    assert Decimal(1) == [DigitChar(1)];
  }

  /** The message `!setup <#111> notanumber` is a mention of channel 111 and a token without a digit. */
  lemma WithoutNumberArgs()
    ensures AllDigits("111") && IsToken("notanumber")
    ensures forall i :: 0 <= i < |"notanumber"| ==> !IsDigit("notanumber"[i])
    ensures "!setup <#111> notanumber" == "!setup " + ("<#" + "111" + ">") + " " + "notanumber"
    ensures "<#" + "111" + ">" == "<#111>"
  {
    var d := "111";
    assert IsDigit(d[0]) && IsDigit(d[1]) && IsDigit(d[2]);
  }

  lemma TenMinutesText()
    ensures SetupCommand.Confirmation("500", 10)
            == "Setup complete! Automatic updates will be sent to <#500> every 10 minute(s)."
  {
    TenText();
    assert SetupCommand.ConfirmationHead("500") == SetupCommand.ConfirmationLead + "<#500>" + " every ";
  }

  lemma OneMinuteText()
    ensures SetupCommand.Confirmation("111", 1)
            == "Setup complete! Automatic updates will be sent to <#111> every 1 minute(s)."
  {
    OneText();
    assert SetupCommand.ConfirmationHead("111") == SetupCommand.ConfirmationLead + "<#111>" + " every ";
  }

  /** `!setup <#500> 10` on any running bot: channel 500 every 600000 ms, saved, with one timer at that period. */
  method SetupEveryTenMinutes(bot: Bot, readings: Option<Readings>) returns (route: Route)
    requires bot.Valid()
    modifies bot
    ensures route == Dispatched(Setup, ["<#500>", "10"])
    ensures bot.config == Config(Some("500"), 600000) && bot.saved == Some(bot.config)
    ensures bot.monitorInterval.Some? && bot.timers == map[bot.monitorInterval.value := 600000]
    ensures bot.log != []
    ensures bot.log[|bot.log| - 1]
            == Replied(Text("Setup complete! Automatic updates will be sent to <#500> every 10 minute(s)."))
  {
    var d := "500";
    TenText();
    assert AllDigits(d) by {
      assert IsDigit(d[0]) && IsDigit(d[1]) && IsDigit(d[2]);
    }
    assert "<#" + d + ">" == "<#500>";
    TenMinutesText();
    route := SetupByMention(bot, "!setup <#500> 10", d, 10, {d}, readings);
  }

  /** `!setup <#111> notanumber` on any running bot: channel 111 every 60000 ms, saved, with one timer at that period. */
  method SetupWithoutNumber(bot: Bot, readings: Option<Readings>) returns (route: Route)
    requires bot.Valid()
    modifies bot
    ensures route == Dispatched(Setup, ["<#111>", "notanumber"])
    ensures bot.config == Config(Some("111"), 60000) && bot.saved == Some(bot.config)
    ensures bot.monitorInterval.Some? && bot.timers == map[bot.monitorInterval.value := 60000]
    ensures bot.log != []
    ensures bot.log[|bot.log| - 1]
            == Replied(Text("Setup complete! Automatic updates will be sent to <#111> every 1 minute(s)."))
  {
    WithoutNumberArgs();
    OneMinuteText();
    route := SetupByMentionAndWord(bot, "!setup <#111> notanumber", "111", "notanumber", {"111"}, readings);
  }
}
