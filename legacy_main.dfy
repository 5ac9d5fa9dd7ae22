/** The text capture path of the older front end (src/main.rs): one line of
    `time,pid,ppid,command` per execution. A line that does not parse panics
    the feeder thread. */
module LegacyMain {
  import opened Wrappers
  import opened Text
  import opened Feeder

  /** One parsed execution; `pid` and `ppid` are `u32`. */
  datatype ProcessExecution = ProcessExecution(pid: nat, ppid: nat, command: string, timestamp: DateTime)

  /** `parse_line`, including its panics: the fields are taken in order, each
      numeric field parsed before the next one is indexed. */
  function ParseLine(line: string, parseTime: TimeParser): (r: Outcome<ProcessExecution>)
    ensures var parts := Split(line, ',');
      r.Ok? <==> (|parts| >= 4 && parseTime(parts[0]).Some? && ParseU32(parts[1]).Some? && ParseU32(parts[2]).Some?)
    ensures var parts := Split(line, ',');
      r.Ok? ==> (Some(r.value.timestamp) == parseTime(parts[0])
        && Some(r.value.pid) == ParseU32(parts[1]) && Some(r.value.ppid) == ParseU32(parts[2])
        && r.value.command == Trim(parts[3]))
    ensures r.Ok? ==> r.value.pid < U32Limit && r.value.ppid < U32Limit
    ensures var parts := Split(line, ',');
      r.Err? ==> (parseTime(parts[0]).None? || (|parts| > 1 && ParseU32(parts[1]).None?)
        || (|parts| > 2 && ParseU32(parts[2]).None?))
    ensures var parts := Split(line, ',');
      r.Panic? <==> (|parts| < 4 && parseTime(parts[0]).Some? && (|parts| > 1 ==> ParseU32(parts[1]).Some?)
        && (|parts| > 2 ==> ParseU32(parts[2]).Some?))
  {
    var parts := Split(line, ',');
    match parseTime(parts[0])
    case None => Err
    case Some(timestamp) =>
      if |parts| < 2 then Panic else
      match ParseU32(parts[1])
      case None => Err
      case Some(pid) =>
        if |parts| < 3 then Panic else
        match ParseU32(parts[2])
        case None => Err
        case Some(ppid) =>
          if |parts| < 4 then Panic
          else Ok(ProcessExecution(pid, ppid, Trim(parts[3]), timestamp))
  }

  /** The line the capture script prints for an execution. */
  function FormatLine(time: string, pid: nat, ppid: nat, command: string): string {
    Join([time, Decimal(pid), Decimal(ppid), command], ',')
  }

  /** Parsing a printed line gives back the execution when neither the time
      nor the command holds a comma and the command has no surrounding whitespace. */
  lemma ParseFormattedLine(time: string, pid: nat, ppid: nat, command: string, parseTime: TimeParser)
    requires pid < U32Limit && ppid < U32Limit
    requires ',' !in time && ',' !in command && Trimmed(command)
    requires parseTime(time).Some?
    ensures ParseLine(FormatLine(time, pid, ppid, command), parseTime)
      == Ok(ProcessExecution(pid, ppid, command, parseTime(time).value))
  {
    var parts := [time, Decimal(pid), Decimal(ppid), command];
    var line := FormatLine(time, pid, ppid, command);
    forall k | 1 <= k < 3 ensures ',' !in parts[k] {
      assert AllDigits(parts[k]);
    }
    SplitJoin(parts, ',');
    assert Split(line, ',') == parts;
    ParseDecimal(pid);
    ParseDecimal(ppid);
    TrimTrimmed(command);
    var r := ParseLine(line, parseTime);
    assert r.Ok?;
    assert r.value.pid == pid && r.value.ppid == ppid;
  }

  /** Fields after the fourth are ignored. */
  lemma ExtraFieldsIgnored(line: string, extra: string, parseTime: TimeParser)
    requires |Split(line, ',')| >= 4
    ensures ParseLine(line + [','] + extra, parseTime) == ParseLine(line, parseTime)
  {
    SplitAppend(line, extra, ',');
    var parts := Split(line, ',');
    var longer := Split(line + [','] + extra, ',');
    assert forall k :: 0 <= k < 4 ==> longer[k] == parts[k];
  }

  /** The unit test's line, field by field. */
  const NetstatLine: string := Join(["2025 Mar 16 13:42:53", "3925", "341", "/usr/sbin/netstat -na"], ',')

  lemma NetstatNumbers()
    ensures Decimal(3925) == "3925" && Decimal(341) == "341"
  {
    assert Decimal(3) == "3" && Decimal(39) == "39" && Decimal(392) == "392";
    assert Decimal(34) == "34";
  }

  /** The unit test: any time parser that accepts the line's timestamp yields
      pid 3925, ppid 341 and the command `/usr/sbin/netstat -na`. */
  lemma NetstatLineParses(parseTime: TimeParser)
    requires parseTime("2025 Mar 16 13:42:53").Some?
    ensures var r := ParseLine(NetstatLine, parseTime);
      r.Ok? && r.value.pid == 3925 && r.value.ppid == 341 && r.value.command == "/usr/sbin/netstat -na"
  {
    var command := "/usr/sbin/netstat -na";
    assert ',' !in command && ',' !in "2025 Mar 16 13:42:53";
    assert command[0] == '/' && command[|command| - 1] == 'a';
    NetstatNumbers();
    assert NetstatLine == FormatLine("2025 Mar 16 13:42:53", 3925, 341, command);
    ParseFormattedLine("2025 Mar 16 13:42:53", 3925, 341, command, parseTime);
  }

  // ---------------------------------------------------------------------------
  // Table columns
  // ---------------------------------------------------------------------------

  /** An RGB colour with 8-bit components. */
  datatype Rgb = Rgb(r: nat, g: nat, b: nat)

  /** `COLORS`: the palette parent pids are coloured from. */
  const Colors: seq<Rgb> := [
    Rgb(255, 0, 0), Rgb(0, 255, 0), Rgb(0, 0, 255), Rgb(255, 255, 0), Rgb(0, 255, 255),
    Rgb(255, 0, 255), Rgb(192, 192, 192), Rgb(128, 128, 128), Rgb(128, 0, 0), Rgb(128, 128, 0),
    Rgb(0, 128, 0), Rgb(128, 0, 128), Rgb(0, 128, 128), Rgb(0, 0, 128), Rgb(255, 165, 0),
    Rgb(255, 20, 147), Rgb(218, 112, 214), Rgb(75, 0, 130), Rgb(240, 230, 140), Rgb(173, 216, 230),
    Rgb(0, 191, 255), Rgb(70, 130, 180), Rgb(100, 149, 237), Rgb(123, 104, 238), Rgb(72, 61, 139),
    Rgb(138, 43, 226), Rgb(199, 21, 133), Rgb(255, 105, 180), Rgb(255, 182, 193), Rgb(205, 92, 92),
    Rgb(244, 164, 96), Rgb(210, 105, 30), Rgb(160, 82, 45), Rgb(255, 228, 196), Rgb(255, 222, 173),
    Rgb(255, 160, 122), Rgb(250, 128, 114), Rgb(233, 150, 122), Rgb(255, 127, 80), Rgb(240, 128, 128),
    Rgb(255, 99, 71), Rgb(255, 69, 0), Rgb(220, 20, 60), Rgb(178, 34, 34), Rgb(139, 0, 0),
    Rgb(0, 100, 0), Rgb(46, 139, 87), Rgb(60, 179, 113), Rgb(34, 139, 34), Rgb(50, 205, 50)
  ]

  /** The colour of a parent pid: `COLORS[ppid % COLORS.len()]`, which is
      always in range, and the same for parent pids 50 apart. */
  function PpidColor(ppid: nat): (c: Rgb)
    ensures c in Colors
    ensures |Colors| == 50 && c == Colors[ppid % 50]
  {
    assert |Colors| == 50;
    Colors[ppid % |Colors|]
  }

  /** Parent pids 50 apart share a colour, so sibling processes launched from
      one parent always share one. */
  lemma PaletteRepeats(ppid: nat, k: nat)
    ensures PpidColor(ppid + 50 * k) == PpidColor(ppid)
  {
    assert (ppid + 50 * k) % 50 == ppid % 50;
  }

  /** `ref_array`: the four table columns, timestamp, pid, ppid (in the colour
      of the parent) and command; printing, colouring and bolding are foreign. */
  function RefArray(p: ProcessExecution, showTime: DateTime -> string,
                    truecolor: (string, Rgb) -> string, bold: string -> string): (cols: seq<string>)
    ensures |cols| == 4
    ensures cols[0] == showTime(p.timestamp) && cols[3] == bold(p.command)
    ensures p.pid < U32Limit ==> ParseU32(cols[1]) == Some(p.pid)
    ensures cols[2] == truecolor(Decimal(p.ppid), PpidColor(p.ppid))
  {
    var pid := Decimal(p.pid);
    ParseDecimal(p.pid);
    [showTime(p.timestamp), pid, truecolor(Decimal(p.ppid), PpidColor(p.ppid)), bold(p.command)]
  }

  // ---------------------------------------------------------------------------
  // The feeder thread
  // ---------------------------------------------------------------------------

  /** `parse_line` as the feeder calls it. */
  function Parser(parseTime: TimeParser): string -> Outcome<ProcessExecution> {
    line => ParseLine(line, parseTime)
  }

  /** The feeder thread of this front end: a line that does not parse
      panics the thread. */
  method RunFeeder(lines: seq<LineRead>, parseTime: TimeParser) returns (sent: seq<ProcessExecution>, end: FeedEnd)
    ensures FeedRun(sent, end) == Feed(Parsed(lines, Parser(parseTime)), PanicOnError)
  {
    sent, end := Run(lines, Parser(parseTime), PanicOnError);
  }
}
