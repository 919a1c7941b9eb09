/**
 * The host-statistics snapshot: which volume and which network interface
 * count as primary, how the uptime is written, and the rule that any
 * failure while collecting yields no snapshot instead of an error.
 */
module Stats {
  import opened Wrappers
  import opened Strings

  /** One entry of the collector's file-system list (sizes in bytes). */
  datatype Volume = Volume(fs: string, mount: string, size: nat, used: nat)

  /** One entry of the collector's network statistics (bytes per second). */
  datatype NetInterface = NetInterface(iface: string, operstate: string, rxSec: nat, txSec: nat)

  /** What the collector's calls return when all of them succeed. */
  datatype Readings = Readings(hostname: string, volumes: seq<Volume>, interfaces: seq<NetInterface>, uptimeSeconds: nat)

  /** The snapshot a report is built from. */
  datatype Snapshot = Snapshot(hostname: string, disk: Volume, net: NetInterface, uptime: string)

  // ---------------------------------------------------------------------
  // Primary volume and interface: `xs.find(p) || xs[0]`
  // ---------------------------------------------------------------------

  /** The index of the first element satisfying `p`, the one Array.prototype.find returns. */
  function FindFirst<T>(xs: seq<T>, p: T -> bool): (r: Option<nat>)
    ensures r.Some? ==> r.value < |xs| && p(xs[r.value])
    ensures r.Some? ==> forall j :: 0 <= j < r.value ==> !p(xs[j])
    ensures r.None? ==> forall j :: 0 <= j < |xs| ==> !p(xs[j])
  {
    if xs == [] then None
    else if p(xs[0]) then Some(0)
    else match FindFirst(xs[1..], p)
      case None => None
      case Some(i) => Some(i + 1)
  }

  /** `xs.find(p) || xs[0]`: the first element satisfying `p`, else the first element, else nothing. */
  function FindOrFirst<T>(xs: seq<T>, p: T -> bool): (r: Option<T>)
    ensures r.None? <==> xs == []
    ensures forall i :: 0 <= i < |xs| && p(xs[i]) && (forall j :: 0 <= j < i ==> !p(xs[j])) ==> r == Some(xs[i])
    ensures (forall i :: 0 <= i < |xs| ==> !p(xs[i])) && xs != [] ==> r == Some(xs[0])
  {
    match FindFirst(xs, p)
    case Some(i) => Some(xs[i])
    case None => if xs == [] then None else Some(xs[0])
  }

  predicate IsRoot(v: Volume) {
    v.mount == "/"
  }

  predicate IsUp(n: NetInterface) {
    n.operstate == "up"
  }

  /** The volume mounted at "/", else the first volume; nothing when there are no volumes. */
  function MainDisk(volumes: seq<Volume>): (r: Option<Volume>)
    ensures r.None? <==> volumes == []
    ensures forall i :: 0 <= i < |volumes| && IsRoot(volumes[i]) && (forall j :: 0 <= j < i ==> !IsRoot(volumes[j])) ==> r == Some(volumes[i])
    ensures (forall i :: 0 <= i < |volumes| ==> !IsRoot(volumes[i])) && volumes != [] ==> r == Some(volumes[0])
  {
    FindOrFirst(volumes, IsRoot)
  }

  /** The first interface whose state is "up", else the first interface; nothing when there are none. */
  function PrimaryNet(interfaces: seq<NetInterface>): (r: Option<NetInterface>)
    ensures r.None? <==> interfaces == []
    ensures forall i :: 0 <= i < |interfaces| && IsUp(interfaces[i]) && (forall j :: 0 <= j < i ==> !IsUp(interfaces[j])) ==> r == Some(interfaces[i])
    ensures (forall i :: 0 <= i < |interfaces| ==> !IsUp(interfaces[i])) && interfaces != [] ==> r == Some(interfaces[0])
  {
    FindOrFirst(interfaces, IsUp)
  }

  /** A root volume, when there is one, is what the snapshot reports, wherever it sits in the list. */
  lemma RootVolumePreferred(volumes: seq<Volume>, k: nat)
    requires k < |volumes| && IsRoot(volumes[k])
    ensures MainDisk(volumes).Some? && IsRoot(MainDisk(volumes).value)
  {
    var f := FindFirst(volumes, IsRoot);
    assert f.Some?;
  }

  // ---------------------------------------------------------------------
  // Uptime: whole days, hours and minutes, written "Nd Nh Nm"
  // ---------------------------------------------------------------------

  datatype UptimeParts = UptimeParts(days: nat, hours: nat, mins: nat)

  /** The whole days, hours and minutes in `seconds`, each count carried over to the next larger unit. */
  function Decompose(seconds: nat): (p: UptimeParts)
    ensures p.hours < 24 && p.mins < 60
    ensures Seconds(p) <= seconds < Seconds(p) + 60
  {
    DecomposeArith(seconds);
    UptimeParts(seconds / 86400, (seconds % 86400) / 3600, (seconds % 3600) / 60)
  }

  /** The minutes taken from the remainder of the hour agree with those left over after days and hours. */
  lemma DecomposeArith(seconds: nat)
    ensures (seconds % 86400) / 3600 < 24
    ensures var counted := seconds / 86400 * 86400 + (seconds % 86400) / 3600 * 3600 + (seconds % 3600) / 60 * 60;
      counted <= seconds < counted + 60
  {
    var days, dayRest := seconds / 86400, seconds % 86400;
    var hours, hourRest := dayRest / 3600, dayRest % 3600;
    DivModBy(seconds, days * 24 + hours, hourRest, 3600);
  }

  function Seconds(p: UptimeParts): nat {
    p.days * 86400 + p.hours * 3600 + p.mins * 60
  }

  /** The bounds that Decompose promises pin its result down: no other parts meet them. */
  lemma DecomposeUnique(seconds: nat, p: UptimeParts)
    requires p.hours < 24 && p.mins < 60
    requires Seconds(p) <= seconds < Seconds(p) + 60
    ensures p == Decompose(seconds)
  {
    var dayRest := seconds - p.days * 86400;
    var hourRest := dayRest - p.hours * 3600;
    DivModBy(seconds, p.days, dayRest, 86400);
    DivModBy(dayRest, p.hours, hourRest, 3600);
    DivModBy(seconds, p.days * 24 + p.hours, hourRest, 3600);
    DivModBy(hourRest, p.mins, hourRest - p.mins * 60, 60);
  }

  /** The uptime text: "Nd " when there are days, "Nh " when there are hours, always "Nm". */
  function Render(p: UptimeParts): string {
    Piece(p.days, 'd') + Piece(p.hours, 'h') + FieldText(Field(p.mins, 'm'))
  }

  /** A count, its unit and a space when the count is positive; nothing otherwise. */
  function Piece(n: nat, unit: char): string {
    if n > 0 then FieldText(Field(n, unit)) + " " else ""
  }

  /** The uptime text for a number of seconds. */
  function Uptime(seconds: nat): string {
    Render(Decompose(seconds))
  }

  /** Writes the uptime the way the snapshot does: appending each part to an initially empty text. */
  method FormatUptime(seconds: nat) returns (uptime: string)
    ensures uptime == Uptime(seconds)
    ensures ParseUptime(uptime) == Some(Decompose(seconds))
  {
    var days := seconds / 86400;
    var hours := (seconds % 86400) / 3600;
    var mins := (seconds % 3600) / 60;
    ghost var p := Decompose(seconds);
    assert p == UptimeParts(days, hours, mins);

    uptime := "";
    if days > 0 {
      uptime := uptime + Decimal(days) + "d ";
    }
    assert uptime == Piece(days, 'd');
    if hours > 0 {
      uptime := uptime + Decimal(hours) + "h ";
    }
    assert uptime == Piece(days, 'd') + Piece(hours, 'h');
    uptime := uptime + Decimal(mins) + "m";
    UptimeRoundTrip(uptime, p);
  }

  // Reading an uptime text back: a list of fields "<numeral><unit>" separated by single spaces.

  datatype Field = Field(amount: nat, unit: char)

  function FieldsOf(p: UptimeParts): seq<Field> {
    (if p.days > 0 then [Field(p.days, 'd')] else [])
    + (if p.hours > 0 then [Field(p.hours, 'h')] else [])
    + [Field(p.mins, 'm')]
  }

  function FieldText(f: Field): string {
    Decimal(f.amount) + [f.unit]
  }

  function JoinFields(fs: seq<Field>): string {
    if fs == [] then ""
    else if |fs| == 1 then FieldText(fs[0])
    else FieldText(fs[0]) + " " + JoinFields(fs[1..])
  }

  /** Fields separated by single spaces, each a canonical numeral followed by one unit character. */
  function ParseFields(s: string): Option<seq<Field>>
    decreases |s|
  {
    var n := DigitsPrefix(s, 10);
    if n == 0 || n >= |s| || !Canonical(s[..n]) then None
    else
      var f := Field(ValueIn(s[..n], 10), s[n]);
      if n + 1 == |s| then Some([f])
      else if s[n + 1] != ' ' then None
      else match ParseFields(s[n + 2..])
        case None => None
        case Some(rest) => Some([f] + rest)
  }

  /** The field lists the uptime text can have: optional positive days, optional positive hours, minutes. */
  function Interpret(fs: seq<Field>): Option<UptimeParts> {
    if |fs| == 1 && fs[0].unit == 'm' then
      Some(UptimeParts(0, 0, fs[0].amount))
    else if |fs| == 2 && fs[0].unit == 'h' && fs[0].amount > 0 && fs[1].unit == 'm' then
      Some(UptimeParts(0, fs[0].amount, fs[1].amount))
    else if |fs| == 2 && fs[0].unit == 'd' && fs[0].amount > 0 && fs[1].unit == 'm' then
      Some(UptimeParts(fs[0].amount, 0, fs[1].amount))
    else if |fs| == 3 && fs[0].unit == 'd' && fs[0].amount > 0 && fs[1].unit == 'h' && fs[1].amount > 0 && fs[2].unit == 'm' then
      Some(UptimeParts(fs[0].amount, fs[1].amount, fs[2].amount))
    else None
  }

  /** The inverse of Render. */
  function ParseUptime(s: string): Option<UptimeParts> {
    match ParseFields(s)
    case None => None
    case Some(fs) => Interpret(fs)
  }

  lemma RenderIsJoin(p: UptimeParts)
    ensures Render(p) == JoinFields(FieldsOf(p))
  {
    var minutes := [Field(p.mins, 'm')];
    var tail := (if p.hours > 0 then [Field(p.hours, 'h')] else []) + minutes;
    assert JoinFields(tail) == Piece(p.hours, 'h') + FieldText(Field(p.mins, 'm')) by {
      if p.hours > 0 {
        JoinFieldsCons(Field(p.hours, 'h'), minutes);
      }
    }
    if p.days > 0 {
      JoinFieldsCons(Field(p.days, 'd'), tail);
    }
  }

  lemma JoinFieldsCons(f: Field, fs: seq<Field>)
    requires fs != []
    ensures JoinFields([f] + fs) == FieldText(f) + " " + JoinFields(fs)
  {
    assert ([f] + fs)[1..] == fs;
  }

  /** How ParseFields reads a text that starts with one field written out. */
  lemma ParseFieldsHead(s: string, f: Field, rest: string)
    requires !IsDigit(f.unit)
    requires s == FieldText(f) + rest
    ensures rest == [] ==> ParseFields(s) == Some([f])
    ensures rest != [] && rest[0] == ' ' && ParseFields(rest[1..]).Some? ==>
              ParseFields(s) == Some([f] + ParseFields(rest[1..]).value)
  {
    var d := Decimal(f.amount);
    assert s == d + ([f.unit] + rest);
    HeadNumeral(s, d, f.unit, rest);
    DecimalValue(f.amount);
  }

  /** Where the numeral, the unit and the rest sit in a text made of them. */
  lemma HeadNumeral(s: string, d: string, unit: char, rest: string)
    requires AllDigits(d) && !IsDigit(unit)
    requires s == d + ([unit] + rest)
    ensures DigitsPrefix(s, 10) == |d| && s[..|d|] == d && s[|d|] == unit
    ensures rest != [] ==> s[|d| + 1] == rest[0] && s[|d| + 2..] == rest[1..]
  {
    DigitsPrefixOf(d, [unit] + rest, 10);
  }

  lemma {:induction false} ParseJoin(fs: seq<Field>)
    requires fs != []
    requires forall i :: 0 <= i < |fs| ==> !IsDigit(fs[i].unit)
    ensures ParseFields(JoinFields(fs)) == Some(fs)
  {
    if |fs| > 1 {
      ParseJoin(fs[1..]);
      ParseJoinCons(fs);
    } else {
      var s := JoinFields(fs);
      assert s == FieldText(fs[0]) + [];
      ParseFieldsHead(s, fs[0], []);
      assert fs == [fs[0]];
    }
  }

  /** One step of ParseJoin: a field written before readable fields is read in front of them. */
  lemma ParseJoinCons(fs: seq<Field>)
    requires |fs| > 1 && !IsDigit(fs[0].unit)
    requires ParseFields(JoinFields(fs[1..])) == Some(fs[1..])
    ensures ParseFields(JoinFields(fs)) == Some(fs)
  {
    var s := JoinFields(fs);
    var rest := " " + JoinFields(fs[1..]);
    assert s == FieldText(fs[0]) + rest;
    assert rest[1..] == JoinFields(fs[1..]);
    ParseFieldsHead(s, fs[0], rest);
    assert fs == [fs[0]] + fs[1..];
  }

  lemma {:induction false} JoinParse(s: string, fs: seq<Field>)
    requires ParseFields(s) == Some(fs)
    ensures JoinFields(fs) == s
    decreases |s|
  {
    var n := ParseFieldsShape(s, fs);
    FieldTextOf(s, n);
    if |fs| > 1 {
      JoinParse(s[n + 2..], fs[1..]);
      assert JoinFields(fs) == FieldText(fs[0]) + " " + JoinFields(fs[1..]);
      SpaceSplit(s, n + 1);
    } else {
      assert s[..n + 1] == s;
    }
  }

  lemma SpaceSplit(s: string, k: nat)
    requires k < |s| && s[k] == ' '
    ensures s == s[..k] + " " + s[k + 1..]
  {
  }

  /** What a successful ParseFields found: a numeral of length `n`, its unit, then the end or a space and the rest. */
  lemma ParseFieldsShape(s: string, fs: seq<Field>) returns (n: nat)
    requires ParseFields(s) == Some(fs)
    ensures 0 < n < |s| && n == DigitsPrefix(s, 10) && Canonical(s[..n])
    ensures fs != [] && fs[0] == Field(ValueIn(s[..n], 10), s[n])
    ensures |fs| == 1 <==> n + 1 == |s|
    ensures |fs| > 1 ==> n + 1 < |s| && s[n + 1] == ' ' && ParseFields(s[n + 2..]) == Some(fs[1..])
  {
    n := DigitsPrefix(s, 10);
  }

  /** The field read from a canonical numeral and its unit is written back as that same text. */
  lemma FieldTextOf(s: string, n: nat)
    requires n < |s| && Canonical(s[..n])
    ensures FieldText(Field(ValueIn(s[..n], 10), s[n])) == s[..n + 1]
  {
    ValueDecimal(s[..n]);
    assert s[..n + 1] == s[..n] + [s[n]];
  }

  lemma InterpretFieldsOf(p: UptimeParts)
    ensures Interpret(FieldsOf(p)) == Some(p)
  {
  }

  lemma FieldsOfInterpret(fs: seq<Field>, p: UptimeParts)
    requires Interpret(fs) == Some(p)
    ensures FieldsOf(p) == fs
  {
  }

  /** An uptime text reads back as exactly the parts it was written from, and only a written text reads back at all. */
  lemma UptimeRoundTrip(s: string, p: UptimeParts)
    ensures ParseUptime(s) == Some(p) <==> s == Render(p)
  {
    if s == Render(p) {
      RenderIsJoin(p);
      var fs := FieldsOf(p);
      assert forall i :: 0 <= i < |fs| ==> fs[i].unit in {'d', 'h', 'm'};
      ParseJoin(fs);
      InterpretFieldsOf(p);
    }
    if ParseUptime(s) == Some(p) {
      var fs :| ParseFields(s) == Some(fs) && Interpret(fs) == Some(p);
      JoinParse(s, fs);
      FieldsOfInterpret(fs, p);
      RenderIsJoin(p);
    }
  }

  /** Days appear in the text exactly when there is at least one whole day, hours likewise, and minutes always come last. */
  lemma UptimeUnits(seconds: nat)
    ensures var p := Decompose(seconds); var s := Uptime(seconds);
      && ('d' in s <==> p.days > 0)
      && ('h' in s <==> p.hours > 0)
      && s[|s| - 1] == 'm'
  {
    var p := Decompose(seconds);
    PieceUnits(p.days, 'd');
    PieceUnits(p.hours, 'h');
    NoUnitInDecimal(p.mins);
    var m := FieldText(Field(p.mins, 'm'));
    assert 'd' !in m && 'h' !in m && m[|m| - 1] == 'm';
  }

  lemma PieceUnits(n: nat, unit: char)
    requires unit == 'd' || unit == 'h'
    ensures 'd' in Piece(n, unit) <==> n > 0 && unit == 'd'
    ensures 'h' in Piece(n, unit) <==> n > 0 && unit == 'h'
  {
    NoUnitInDecimal(n);
  }

  lemma NoUnitInDecimal(n: nat)
    ensures 'd' !in Decimal(n) && 'h' !in Decimal(n) && 'm' !in Decimal(n)
  {
  }

  /** One day and one minute of uptime is written "1d 1m". */
  lemma UptimeExample()
    ensures Uptime(86460) == "1d 1m"
  {
    assert Decompose(86460) == UptimeParts(1, 0, 1);
  }

  // ---------------------------------------------------------------------
  // The snapshot
  // ---------------------------------------------------------------------

  /**
   * getSystemStats: `readings` is None when a collector call failed. Indexing an
   * empty volume or interface list fails too, and every failure yields None.
   */
  function GetSystemStats(readings: Option<Readings>): (r: Option<Snapshot>)
    ensures r.Some? <==> readings.Some? && readings.value.volumes != [] && readings.value.interfaces != []
    ensures r.Some? ==> r.value.hostname == readings.value.hostname
    ensures r.Some? ==> Some(r.value.disk) == MainDisk(readings.value.volumes)
    ensures r.Some? ==> Some(r.value.net) == PrimaryNet(readings.value.interfaces)
    ensures r.Some? ==> r.value.uptime == Uptime(readings.value.uptimeSeconds)
  {
    match readings
    case None => None
    case Some(rd) =>
      match (MainDisk(rd.volumes), PrimaryNet(rd.interfaces))
      case (Some(disk), Some(net)) => Some(Snapshot(rd.hostname, disk, net, Uptime(rd.uptimeSeconds)))
      case _ => None
  }

  /** The uptime a snapshot carries reads back as the decomposition of the seconds collected. */
  lemma SnapshotUptime(readings: Option<Readings>)
    requires GetSystemStats(readings).Some?
    ensures ParseUptime(GetSystemStats(readings).value.uptime) == Some(Decompose(readings.value.uptimeSeconds))
  {
    var seconds := readings.value.uptimeSeconds;
    UptimeRoundTrip(Uptime(seconds), Decompose(seconds));
  }
}
