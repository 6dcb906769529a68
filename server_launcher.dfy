/**
 * The key-value server's launcher (ServerLauncher): choosing the start
 * mode, checking the options each mode needs, and parsing the group
 * configuration, given the option values the command-line parser
 * returned. Every failure is one that execute catches and prints.
 */
module ServerLauncher {
  import opened Wrappers
  import opened JavaLang

  const ModeStandalone := "standalone"
  const ModeStandby := "standby"
  const ModeGroupMember := "group-member"
  const DefaultHost := "localhost"

  /** A node's id, host and raft-server port (NodeEndpoint). */
  datatype NodeEndpoint = NodeEndpoint(id: string, host: string, port: int)

  /** The option values the parser handed over; p1 and p2 are parsed as longs. */
  datatype CommandLine = CommandLine(
    mode: Option<string>,             // -m
    id: Option<string>,               // -i, declared required
    host: Option<string>,             // -h
    portRaftServer: Option<int>,      // -p1
    portService: Option<int>,         // -p2, declared required
    dataDir: Option<string>,          // -d
    groupConfig: Option<seq<string>>) // -gc

  /** The exceptions execute catches, each reported as a message. */
  datatype LaunchError =
    | MissingRequiredOptions(options: set<string>)
    | IllegalMode(mode: string)
    | PortsRequired
    | GroupConfigRequired
    | IllegalNodeConfig(raw: string)
    | IllegalPortInNodeConfig(raw: string)

  /** The server the launcher goes on to build and start. */
  datatype StartPlan =
    | SingleNode(standby: bool, endpoint: NodeEndpoint, portService: int, dataDir: Option<string>)
    | GroupMember(selfId: string, group: set<NodeEndpoint>, portService: int, dataDir: Option<string>)

  /** What execute does: print the help, start a server, or print an error. */
  datatype Launch = ShowHelp | Start(plan: StartPlan) | Fail(error: LaunchError)

  /** The text a configuration entry for e would have: id, host and port, comma-separated. */
  function FormatNodeConfig(e: NodeEndpoint): string {
    e.id + "," + e.host + "," + FormatInt(e.port)
  }

  /**
   * parseNodeConfig: split on ',', demand exactly three pieces, parse the
   * third as an int. The pieces are split the way Java's String.split does,
   * so trailing commas are ignored.
   */
  function ParseNodeConfig(raw: string): (r: Result<NodeEndpoint, LaunchError>)
    ensures |Split(raw, ',')| != 3 <==> r == Err(IllegalNodeConfig(raw))
    ensures r.Err? ==> r.error == IllegalNodeConfig(raw) || r.error == IllegalPortInNodeConfig(raw)
    ensures r.Ok? <==> |Split(raw, ',')| == 3 && ParseInt(Split(raw, ',')[2]).Some?
    ensures r.Ok? ==> r.value == NodeEndpoint(Split(raw, ',')[0], Split(raw, ',')[1], ParseInt(Split(raw, ',')[2]).value)
    ensures r.Ok? ==> ',' !in r.value.id && ',' !in r.value.host && IsInt(r.value.port)
  {
    var pieces := Split(raw, ',');
    if |pieces| != 3 then Err(IllegalNodeConfig(raw))
    else
      match ParseInt(pieces[2])
      case None => Err(IllegalPortInNodeConfig(raw))
      case Some(port) => Ok(NodeEndpoint(pieces[0], pieces[1], port))
  }

  lemma JoinThree(a: string, b: string, c: string)
    ensures Join([a, b, c], ',') == a + "," + b + "," + c
  {
    assert [a, b, c][1..] == [b, c];
    assert [b, c][1..] == [c];
    assert Join([b, c], ',') == b + "," + c;
    assert a + [','] + (b + "," + c) == a + "," + b + "," + c;
  }

  /** An entry written from an endpoint with comma-free id and host parses back to it. */
  lemma ParseNodeConfigRoundTrip(e: NodeEndpoint)
    requires ',' !in e.id && ',' !in e.host && IsInt(e.port)
    ensures ParseNodeConfig(FormatNodeConfig(e)) == Ok(e)
  {
    var portText := FormatInt(e.port);
    assert ',' !in portText;
    SplitThree(e.id, e.host, portText);
    ParseFormatInt(e.port);
  }

  /** Three comma-free pieces, the last not empty, split back into themselves. */
  lemma SplitThree(a: string, b: string, c: string)
    requires ',' !in a && ',' !in b && ',' !in c && c != ""
    ensures Split(a + "," + b + "," + c, ',') == [a, b, c]
  {
    var raw := a + "," + b + "," + c;
    JoinThree(a, b, c);
    SplitAllJoin([a, b, c], ',');
    assert raw[|a|] == ',';
  }

  /** A trailing comma is ignored, as String.split drops trailing empty pieces. */
  lemma ParseNodeConfigIgnoresTrailingComma(e: NodeEndpoint)
    requires ',' !in e.id && ',' !in e.host && IsInt(e.port)
    ensures ParseNodeConfig(FormatNodeConfig(e) + ",") == Ok(e)
  {
    var portText := FormatInt(e.port);
    assert ',' !in portText;
    SplitTrailingComma(e.id, e.host, portText);
    ParseFormatInt(e.port);
  }

  lemma SplitTrailingComma(a: string, b: string, c: string)
    requires ',' !in a && ',' !in b && ',' !in c && c != ""
    ensures Split(a + "," + b + "," + c + ",", ',') == [a, b, c]
  {
    var raw := a + "," + b + "," + c + ",";
    var pieces := [a, b, c, ""];
    assert pieces[1..] == [b, c, ""];
    JoinThree(b, c, "");
    assert raw == a + "," + (b + "," + c + "," + "");
    assert raw == Join(pieces, ',');
    SplitAllJoin(pieces, ',');
    assert raw[|a|] == ',';
    assert pieces[..3] == [a, b, c];
    assert DropTrailingEmpty(pieces) == [a, b, c];
  }

  /** An accepted entry holds at least two commas. */
  lemma ParseNodeConfigNeedsTwoCommas(raw: string)
    requires ParseNodeConfig(raw).Ok?
    ensures multiset(raw)[','] >= 2
  {
    assert ',' in raw;
  }

  /**
   * An entry whose port is missing after the last comma is an illegal
   * node config, not an illegal port: split drops the empty last piece.
   */
  lemma ParseNodeConfigRejectsEmptyPort(id: string, host: string)
    requires ',' !in id && ',' !in host
    ensures ParseNodeConfig(id + "," + host + ",") == Err(IllegalNodeConfig(id + "," + host + ","))
  {
    var raw := id + "," + host + ",";
    JoinThree(id, host, "");
    SplitAllJoin([id, host, ""], ',');
    assert raw[|id|] == ',';
    var pieces := [id, host, ""];
    assert raw + "" == raw;
    assert Join(pieces, ',') == raw;
    assert SplitAll(raw, ',') == pieces;
    assert pieces[..2] == [id, host];
    assert DropTrailingEmpty(pieces) == DropTrailingEmpty([id, host]);
  }

  /** A third piece that is not an int is reported as an illegal port. */
  lemma ParseNodeConfigRejectsBadPort(id: string, host: string, portText: string)
    requires ',' !in id && ',' !in host && ',' !in portText && portText != ""
    requires ParseInt(portText).None?
    ensures ParseNodeConfig(id + "," + host + "," + portText)
         == Err(IllegalPortInNodeConfig(id + "," + host + "," + portText))
  {
    SplitThree(id, host, portText);
  }

  /**
   * The group config: every entry parsed in order; the first bad entry's
   * error is the result, otherwise the set of endpoints.
   */
  function ParseGroupConfig(raws: seq<string>): (r: Result<set<NodeEndpoint>, LaunchError>)
    ensures r.Ok? <==> AllParse(ParseNodeConfig, raws)
    ensures r.Ok? ==> r.value == Endpoints(ParseNodeConfig, raws)
    ensures r.Err? ==> FirstError(ParseNodeConfig, raws, r.error)
  {
    if raws == [] then Ok({})
    else
      GroupStep(ParseNodeConfig, raws);
      match ParseNodeConfig(raws[0])
      case Err(e) => Err(e)
      case Ok(endpoint) =>
        match ParseGroupConfig(raws[1..])
        case Err(e) => Err(e)
        case Ok(rest) => Ok({endpoint} + rest)
  }

  /** Every entry parses. */
  ghost predicate AllParse(parse: string -> Result<NodeEndpoint, LaunchError>, raws: seq<string>) {
    forall i | 0 <= i < |raws| :: parse(raws[i]).Ok?
  }

  /** The endpoints of the entries that parse. */
  ghost function Endpoints(parse: string -> Result<NodeEndpoint, LaunchError>, raws: seq<string>): set<NodeEndpoint> {
    set i | 0 <= i < |raws| && parse(raws[i]).Ok? :: parse(raws[i]).value
  }

  /** e is the error of an entry all of whose predecessors parse. */
  ghost predicate FirstError(parse: string -> Result<NodeEndpoint, LaunchError>, raws: seq<string>, e: LaunchError) {
    exists i | 0 <= i < |raws| :: parse(raws[i]) == Err(e) && forall j | 0 <= j < i :: parse(raws[j]).Ok?
  }

  /**
   * How each of the three facts about a group follows from its first entry
   * and the rest, for any entry parser.
   */
  lemma GroupStep(parse: string -> Result<NodeEndpoint, LaunchError>, raws: seq<string>)
    requires raws != []
    ensures AllParse(parse, raws) <==> parse(raws[0]).Ok? && AllParse(parse, raws[1..])
    ensures parse(raws[0]).Ok? ==> Endpoints(parse, raws) == {parse(raws[0]).value} + Endpoints(parse, raws[1..])
    ensures parse(raws[0]).Err? ==> FirstError(parse, raws, parse(raws[0]).error)
    ensures forall e :: parse(raws[0]).Ok? && FirstError(parse, raws[1..], e) ==> FirstError(parse, raws, e)
  {
    var tail := raws[1..];
    assert forall i | 0 <= i < |tail| :: tail[i] == raws[i + 1];
    if parse(raws[0]).Ok? {
      forall x | x in Endpoints(parse, raws)
        ensures x in {parse(raws[0]).value} + Endpoints(parse, tail)
      {
        var i :| 0 <= i < |raws| && parse(raws[i]).Ok? && x == parse(raws[i]).value;
        if i > 0 {
          assert raws[i] == tail[i - 1];
        }
      }
      forall x | x in Endpoints(parse, tail)
        ensures x in Endpoints(parse, raws)
      {
        var i :| 0 <= i < |tail| && parse(tail[i]).Ok? && x == parse(tail[i]).value;
        assert tail[i] == raws[i + 1];
      }
      forall e | FirstError(parse, tail, e)
        ensures FirstError(parse, raws, e)
      {
        var i :| 0 <= i < |tail| && parse(tail[i]) == Err(e) && forall j | 0 <= j < i :: parse(tail[j]).Ok?;
        assert parse(raws[i + 1]) == Err(e);
        assert forall j | 0 <= j < i + 1 :: parse(raws[j]).Ok? by {
          forall j | 0 <= j < i + 1
            ensures parse(raws[j]).Ok?
          {
            if j > 0 {
              assert raws[j] == tail[j - 1];
            }
          }
        }
      }
    } else {
      assert parse(raws[0]) == Err(parse(raws[0]).error);
    }
  }

  /** Whether the parser's own check passes: -i and -p2 are declared required. */
  function MissingRequired(cmd: CommandLine): (missing: set<string>)
    ensures missing <= {"i", "p2"}
    ensures "i" in missing <==> cmd.id.None?
    ensures "p2" in missing <==> cmd.portService.None?
  {
    (if cmd.id.None? then {"i"} else {}) + (if cmd.portService.None? then {"p2"} else {})
  }

  /** getOptionValue('m', "standalone"). */
  function ModeOf(cmd: CommandLine): string {
    if cmd.mode.Some? then cmd.mode.value else ModeStandalone
  }

  /**
   * startAsStandaloneOrStandby: both ports must be given; the host
   * defaults to localhost; the long port values are narrowed to int.
   */
  function StartAsStandaloneOrStandby(cmd: CommandLine, standby: bool): (r: Result<StartPlan, LaunchError>)
    requires cmd.id.Some?
    ensures r.Err? <==> cmd.portRaftServer.None? || cmd.portService.None?
    ensures r.Err? ==> r.error == PortsRequired
    ensures r.Ok? ==> r.value.SingleNode? && r.value.standby == standby && r.value.dataDir == cmd.dataDir
    ensures r.Ok? ==> r.value.endpoint.id == cmd.id.value
    ensures r.Ok? ==> r.value.endpoint.host == (if cmd.host.Some? then cmd.host.value else DefaultHost)
    ensures r.Ok? ==> && r.value.endpoint.port == NarrowToInt(cmd.portRaftServer.value)
                      && r.value.portService == NarrowToInt(cmd.portService.value)
    ensures r.Ok? ==> (IsInt(cmd.portRaftServer.value) ==> r.value.endpoint.port == cmd.portRaftServer.value)
    ensures r.Ok? ==> (IsInt(cmd.portService.value) ==> r.value.portService == cmd.portService.value)
  {
    if cmd.portRaftServer.None? || cmd.portService.None? then Err(PortsRequired)
    else
      var host := if cmd.host.Some? then cmd.host.value else DefaultHost;
      var endpoint := NodeEndpoint(cmd.id.value, host, NarrowToInt(cmd.portRaftServer.value));
      Ok(SingleNode(standby, endpoint, NarrowToInt(cmd.portService.value), cmd.dataDir))
  }

  /**
   * startAsGroupMember: -gc must be given and every entry must parse; the
   * group is the set of parsed endpoints.
   */
  function StartAsGroupMember(cmd: CommandLine): (r: Result<StartPlan, LaunchError>)
    requires cmd.id.Some? && cmd.portService.Some?
    ensures cmd.groupConfig.None? ==> r == Err(GroupConfigRequired)
    ensures cmd.groupConfig.Some? ==> (r.Ok? <==> ParseGroupConfig(cmd.groupConfig.value).Ok?)
    ensures r.Err? && cmd.groupConfig.Some? ==> r.error == ParseGroupConfig(cmd.groupConfig.value).error
    ensures r.Ok? ==> && r.value.GroupMember?
                      && r.value.selfId == cmd.id.value
                      && r.value.group == ParseGroupConfig(cmd.groupConfig.value).value
                      && r.value.portService == NarrowToInt(cmd.portService.value)
                      && r.value.dataDir == cmd.dataDir
  {
    if cmd.groupConfig.None? then Err(GroupConfigRequired)
    else
      match ParseGroupConfig(cmd.groupConfig.value)
      case Err(e) => Err(e)
      case Ok(group) => Ok(GroupMember(cmd.id.value, group, NarrowToInt(cmd.portService.value), cmd.dataDir))
  }

  /** What execute does with the outcome of a mode's start: start it, or report its error. */
  function Lift(started: Result<StartPlan, LaunchError>): (r: Launch)
    ensures r != ShowHelp
    ensures started.Ok? <==> r.Start?
    ensures started.Ok? ==> r.plan == started.value
    ensures started.Err? ==> r.error == started.error
  {
    match started
    case Ok(plan) => Start(plan)
    case Err(e) => Fail(e)
  }

  /**
   * execute: no arguments prints the help; otherwise the parser's required
   * options, then the mode (standalone when -m is absent; standby,
   * standalone and group-member are the only ones accepted), then that
   * mode's own checks.
   */
  function Execute(argCount: nat, cmd: CommandLine): (r: Launch)
    ensures argCount == 0 <==> r == ShowHelp
    ensures argCount > 0 && MissingRequired(cmd) != {} ==> r == Fail(MissingRequiredOptions(MissingRequired(cmd)))
    ensures argCount > 0 && MissingRequired(cmd) == {} && ModeOf(cmd) !in {ModeStandby, ModeStandalone, ModeGroupMember}
            ==> r == Fail(IllegalMode(ModeOf(cmd)))
    ensures argCount > 0 && MissingRequired(cmd) == {} && ModeOf(cmd) == ModeStandby
            ==> r == Lift(StartAsStandaloneOrStandby(cmd, true))
    ensures argCount > 0 && MissingRequired(cmd) == {} && ModeOf(cmd) == ModeStandalone
            ==> r == Lift(StartAsStandaloneOrStandby(cmd, false))
    ensures argCount > 0 && MissingRequired(cmd) == {} && ModeOf(cmd) == ModeGroupMember
            ==> r == Lift(StartAsGroupMember(cmd))
    ensures r.Start? ==> ModeOf(cmd) in {ModeStandby, ModeStandalone, ModeGroupMember}
    ensures r.Start? ==> (r.plan.GroupMember? <==> ModeOf(cmd) == ModeGroupMember)
    ensures r.Start? && r.plan.SingleNode? ==> (r.plan.standby <==> ModeOf(cmd) == ModeStandby)
    ensures r.Start? && r.plan.SingleNode? ==> cmd.portRaftServer.Some? && cmd.portService.Some?
    ensures r.Start? && r.plan.GroupMember? ==> cmd.groupConfig.Some?
    ensures r.Start? ==> cmd.id.Some?
  {
    if argCount == 0 then ShowHelp
    else if MissingRequired(cmd) != {} then Fail(MissingRequiredOptions(MissingRequired(cmd)))
    else
      var mode := ModeOf(cmd);
      var started :=
        if mode == ModeStandby then StartAsStandaloneOrStandby(cmd, true)
        else if mode == ModeStandalone then StartAsStandaloneOrStandby(cmd, false)
        else if mode == ModeGroupMember then StartAsGroupMember(cmd)
        else Err(IllegalMode(mode));
      Lift(started)
  }

  /** With no -m the launcher starts a standalone node, given both ports. */
  lemma DefaultModeIsStandalone(argCount: nat, cmd: CommandLine)
    requires argCount > 0 && cmd.mode.None?
    requires cmd.id.Some? && cmd.portRaftServer.Some? && cmd.portService.Some?
    ensures Execute(argCount, cmd).Start?
    ensures Execute(argCount, cmd).plan.SingleNode? && !Execute(argCount, cmd).plan.standby
  {
  }
}
