/** The text capture path of the tui front end (tui/src/main.rs): one line of
    `time,uid,pid,ppid,comm,args` per execution, parsed into a
    `ProcessExecution` and sent to the application in arrival order. */
module TuiMain {
  import opened Wrappers
  import opened Text
  import opened Feeder

  /** One parsed execution; `pid` and `ppid` are `u32`. */
  datatype ProcessExecution = ProcessExecution(
    pid: nat,
    ppid: nat,
    comm: string,
    args: string,
    timestamp: DateTime,
    username: Option<string>)

  /** The user table of the process service: uid to user name. */
  type UserTable = map<nat, string>

  /** `get_user_by_id`: the name of a known uid, `None` for an unknown one. */
  function UserName(users: UserTable, uid: nat): (r: Option<string>)
    ensures r.Some? <==> uid in users
    ensures r.Some? ==> r.value == users[uid]
  {
    if uid in users then Some(users[uid]) else None
  }

  /** `parse_line`, including its panics: the fields are taken in order, and
      each numeric field is parsed before the next one is indexed, so a line
      that is short but already bad in an earlier field is an `Err`, while a
      short line whose present fields are good panics on the missing index. */
  function ParseLine(line: string, users: UserTable, parseTime: TimeParser): (r: Outcome<ProcessExecution>)
    ensures var parts := Split(line, ',');
      r.Ok? <==> (|parts| >= 6 && parseTime(parts[0]).Some?
        && ParseU32(parts[1]).Some? && ParseU32(parts[2]).Some? && ParseU32(parts[3]).Some?)
    ensures var parts := Split(line, ',');
      r.Ok? ==> (Some(r.value.timestamp) == parseTime(parts[0])
        && Some(r.value.pid) == ParseU32(parts[2]) && Some(r.value.ppid) == ParseU32(parts[3])
        && r.value.comm == Trim(parts[4]) && r.value.args == Trim(parts[5])
        && r.value.username == UserName(users, ParseU32(parts[1]).value))
    ensures r.Ok? ==> r.value.pid < U32Limit && r.value.ppid < U32Limit
    ensures var parts := Split(line, ',');
      r.Err? ==> (parseTime(parts[0]).None? || (|parts| > 1 && ParseU32(parts[1]).None?)
        || (|parts| > 2 && ParseU32(parts[2]).None?) || (|parts| > 3 && ParseU32(parts[3]).None?))
    ensures var parts := Split(line, ',');
      r.Panic? <==> (|parts| < 6 && parseTime(parts[0]).Some? && (|parts| > 1 ==> ParseU32(parts[1]).Some?)
        && (|parts| > 2 ==> ParseU32(parts[2]).Some?) && (|parts| > 3 ==> ParseU32(parts[3]).Some?))
  {
    var parts := Split(line, ',');
    match parseTime(parts[0])
    case None => Err
    case Some(timestamp) =>
      if |parts| < 2 then Panic else
      match ParseU32(parts[1])
      case None => Err
      case Some(uid) =>
        if |parts| < 3 then Panic else
        match ParseU32(parts[2])
        case None => Err
        case Some(pid) =>
          if |parts| < 4 then Panic else
          match ParseU32(parts[3])
          case None => Err
          case Some(ppid) =>
            if |parts| < 6 then Panic
            else Ok(ProcessExecution(pid, ppid, Trim(parts[4]), Trim(parts[5]), timestamp, UserName(users, uid)))
  }

  /** The line the capture script prints for an execution. */
  function FormatLine(time: string, uid: nat, pid: nat, ppid: nat, comm: string, args: string): string {
    Join([time, Decimal(uid), Decimal(pid), Decimal(ppid), comm, args], ',')
  }

  /** Parsing a printed line gives back the execution, with the user name of
      its uid, when no text field holds a comma or surrounding whitespace. */
  lemma ParseFormattedLine(time: string, uid: nat, pid: nat, ppid: nat, comm: string, args: string,
                           users: UserTable, parseTime: TimeParser)
    requires uid < U32Limit && pid < U32Limit && ppid < U32Limit
    requires ',' !in time && ',' !in comm && ',' !in args
    requires Trimmed(comm) && Trimmed(args)
    requires parseTime(time).Some?
    ensures ParseLine(FormatLine(time, uid, pid, ppid, comm, args), users, parseTime)
      == Ok(ProcessExecution(pid, ppid, comm, args, parseTime(time).value, UserName(users, uid)))
  {
    var parts := [time, Decimal(uid), Decimal(pid), Decimal(ppid), comm, args];
    var line := FormatLine(time, uid, pid, ppid, comm, args);
    forall k | 1 <= k < 4 ensures ',' !in parts[k] {
      assert AllDigits(parts[k]);
    }
    SplitJoin(parts, ',');
    assert Split(line, ',') == parts;
    ParseDecimal(uid);
    ParseDecimal(pid);
    ParseDecimal(ppid);
    TrimTrimmed(comm);
    TrimTrimmed(args);
    var r := ParseLine(line, users, parseTime);
    assert r.Ok?;
    assert r.value.pid == pid && r.value.ppid == ppid;
  }

  /** Only the sixth field becomes the arguments: whatever follows a further
      comma is dropped. */
  lemma ExtraFieldsIgnored(line: string, extra: string, users: UserTable, parseTime: TimeParser)
    requires |Split(line, ',')| >= 6
    ensures ParseLine(line + [','] + extra, users, parseTime) == ParseLine(line, users, parseTime)
  {
    SplitAppend(line, extra, ',');
    var parts := Split(line, ',');
    var longer := Split(line + [','] + extra, ',');
    assert forall k :: 0 <= k < 6 ==> longer[k] == parts[k];
  }

  /** The arguments of the systemd line of the unit test, in pieces. */
  const SystemdArgs: string :=
    ("/nix/store/" + "w9qcpyhjrxsqrps91wkz" + "8r4mqvg9zrxc")
    + ("-systemd-256.10/lib/" + "systemd/" + "systemd-executor")
    + (" --deserialize 47" + " --log-level info" + " --log-target auto")

  /** The unit test's line, field by field. */
  const SystemdLine: string := Join(["2025 Mar 25 21:16:01", "1000", "12681", "3784", "systemd", SystemdArgs], ',')

  lemma SystemdPathCommaFree()
    ensures ',' !in "/nix/store/" + "w9qcpyhjrxsqrps91wkz" + "8r4mqvg9zrxc"
  {
    assert ',' !in "/nix/store/";
    assert ',' !in "w9qcpyhjrxsqrps91wkz";
    assert ',' !in "8r4mqvg9zrxc";
  }

  lemma SystemdExecutorCommaFree()
    ensures ',' !in "-systemd-256.10/lib/" + "systemd/" + "systemd-executor"
  {
    assert ',' !in "-systemd-256.10/lib/";
    assert ',' !in "systemd/";
    assert ',' !in "systemd-executor";
  }

  lemma SystemdOptionsCommaFree()
    ensures ',' !in " --deserialize 47" + " --log-level info" + " --log-target auto"
  {
    assert ',' !in " --deserialize 47";
    assert ',' !in " --log-level info";
    assert ',' !in " --log-target auto";
  }

  lemma SystemdArgsCommaFree()
    ensures ',' !in SystemdArgs
  {
    SystemdPathCommaFree();
    SystemdExecutorCommaFree();
    SystemdOptionsCommaFree();
  }

  lemma SystemdArgsTrimmed()
    ensures Trimmed(SystemdArgs)
  {
    var head := "/nix/store/" + "w9qcpyhjrxsqrps91wkz" + "8r4mqvg9zrxc";
    var tail := " --deserialize 47" + " --log-level info" + " --log-target auto";
    assert head[0] == "/nix/store/"[0] == '/';
    assert tail[|tail| - 1] == " --log-target auto"[17] == 'o';
  }

  lemma SystemdNumbers()
    ensures Decimal(1000) == "1000" && Decimal(12681) == "12681" && Decimal(3784) == "3784"
  {
    assert Decimal(1) == "1" && Decimal(12) == "12" && Decimal(3) == "3";
    assert Decimal(10) == "10" && Decimal(126) == "126" && Decimal(37) == "37";
    assert Decimal(100) == "100" && Decimal(1268) == "1268" && Decimal(378) == "378";
  }

  /** The unit test: any time parser that accepts the line's timestamp yields
      pid 12681, ppid 3784, comm `systemd` and the whole executor command line. */
  lemma SystemdLineParses(users: UserTable, parseTime: TimeParser)
    requires parseTime("2025 Mar 25 21:16:01").Some?
    ensures var r := ParseLine(SystemdLine, users, parseTime);
      r.Ok? && r.value.pid == 12681 && r.value.ppid == 3784
      && r.value.comm == "systemd" && r.value.args == SystemdArgs
  {
    SystemdArgsCommaFree();
    SystemdArgsTrimmed();
    SystemdNumbers();
    assert ',' !in "2025 Mar 25 21:16:01" && ',' !in "systemd" && Trimmed("systemd");
    assert SystemdLine == FormatLine("2025 Mar 25 21:16:01", 1000, 12681, 3784, "systemd", SystemdArgs);
    ParseFormattedLine("2025 Mar 25 21:16:01", 1000, 12681, 3784, "systemd", SystemdArgs, users, parseTime);
  }

  /** `ref_array`: the six table columns, timestamp, user name, pid, ppid,
      comm and args; printing and bolding are foreign. */
  function RefArray(p: ProcessExecution, showTime: DateTime -> string, bold: string -> string): (cols: seq<string>)
    ensures |cols| == 6
    ensures cols[0] == showTime(p.timestamp) && cols[4] == p.comm && cols[5] == bold(p.args)
    ensures p.username.None? ==> cols[1] == ""
    ensures p.username.Some? ==> cols[1] == p.username.value
    ensures p.pid < U32Limit ==> ParseU32(cols[2]) == Some(p.pid)
    ensures p.ppid < U32Limit ==> ParseU32(cols[3]) == Some(p.ppid)
  {
    var pid := Decimal(p.pid);
    var ppid := Decimal(p.ppid);
    ParseDecimal(p.pid);
    ParseDecimal(p.ppid);
    [showTime(p.timestamp), p.username.GetOr(""), pid, ppid, p.comm, bold(p.args)]
  }

  // ---------------------------------------------------------------------------
  // The feeder thread
  // ---------------------------------------------------------------------------

  /** `parse_line` as the feeder calls it. */
  function Parser(users: UserTable, parseTime: TimeParser): string -> Outcome<ProcessExecution> {
    line => ParseLine(line, users, parseTime)
  }

  /** The feeder thread of this front end: a line that does not parse is
      skipped with `continue`. */
  method RunFeeder(lines: seq<LineRead>, users: UserTable, parseTime: TimeParser) returns (sent: seq<ProcessExecution>, end: FeedEnd)
    ensures FeedRun(sent, end) == Feed(Parsed(lines, Parser(users, parseTime)), SkipLine)
  {
    sent, end := Run(lines, Parser(users, parseTime), SkipLine);
  }
}
