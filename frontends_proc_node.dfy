/**
 * SHOW PROC /frontends/: one display row per frontend of the cluster, with
 * the columns of TITLE_NAMES. Whether a frontend has joined the replication
 * group, whether it is a helper node and whether it is the master are
 * decided by comparing its host and edit-log port with lists of
 * (host, port) pairs.
 *
 * The global state, the HA protocol's node lists, the configuration, the
 * DNS hostname lookup and the time formatting are inputs.
 */
module Frontends {
  import opened Wrappers

  const TITLE_NAMES: seq<string> := [
    "Name", "IP", "HostName", "EditLogPort", "HttpPort", "QueryPort", "RpcPort",
    "Role", "IsMaster", "ClusterId", "Join", "Alive", "ReplayedJournalId",
    "LastHeartbeat", "IsHelper", "ErrMsg", "StartTime", "Version"]

  const HOSTNAME_INDEX := 2

  /** Pair<String, Integer>. */
  datatype HostPort = HostPort(first: string, second: int)

  /** An InetSocketAddress, by the textual address of its host and its port. */
  datatype SocketAddress = SocketAddress(hostAddress: string, port: int)

  /** The fields of a Frontend record that the display reads. */
  datatype Frontend = Frontend(
    nodeName: string,
    host: string,
    editLogPort: int,
    queryPort: int,
    rpcPort: int,
    roleName: string,
    alive: bool,
    replayedJournalId: int,
    lastUpdateTime: int,
    heartbeatErrMsg: string,
    startTime: int,
    feVersion: Option<string>)

  /** What the global state manager and its HA protocol report. */
  datatype GlobalState = GlobalState(
    electableNodes: seq<SocketAddress>,
    observerNodes: seq<SocketAddress>,
    helperNodes: seq<HostPort>,
    frontends: seq<Frontend>,
    selfNode: HostPort,
    clusterId: int,
    maxJournalId: int)

  datatype Config = Config(httpPort: int, queryPort: int, rpcPort: int)

  /** The hostname lookup and the time formatting, which the model does not compute. */
  datatype Env = Env(hostnameByIp: string -> string, longToTimeString: int -> string)

  /** Everything one display row depends on besides the frontend itself. */
  datatype View = View(
    masterIp: string,
    allFeHosts: seq<HostPort>,
    state: GlobalState,
    config: Config,
    env: Env)

  /** String.valueOf(boolean). */
  function BoolToString(b: bool): string
  {
    if b then "true" else "false"
  }

  function DigitChar(d: nat): char
    requires d < 10
  {
    "0123456789"[d]
  }

  function Digits(n: nat): string
    decreases n
  {
    if n < 10 then [DigitChar(n)] else Digits(n / 10) + [DigitChar(n % 10)]
  }

  /** Integer.toString and Long.toString: decimal, with a leading '-' for a negative value. */
  function IntToString(n: int): string
  {
    if n < 0 then "-" + Digits(-n) else Digits(n)
  }

  /** A pair matches a frontend when it names the frontend's host and edit-log port. */
  predicate Matches(p: HostPort, fe: Frontend)
  {
    p.first == fe.host && p.second == fe.editLogPort
  }

  /** isHelperNode: whether any helper pair matches the frontend. */
  function IsHelperNode(helperNodes: seq<HostPort>, fe: Frontend): (r: bool)
    ensures r <==> exists i :: 0 <= i < |helperNodes| && Matches(helperNodes[i], fe)
    decreases |helperNodes|
  {
    if helperNodes == [] then false
    else if Matches(helperNodes[0], fe) then true
    else
      var rest := IsHelperNode(helperNodes[1..], fe);
      assert forall i :: 1 <= i < |helperNodes| ==> helperNodes[i] == helperNodes[1..][i - 1];
      rest
  }

  /** isJoin: the first pair that matches ends the search. */
  method IsJoin(allFeHosts: seq<HostPort>, fe: Frontend) returns (joined: bool)
    ensures joined <==> exists i :: 0 <= i < |allFeHosts| && Matches(allFeHosts[i], fe)
    ensures joined == IsHelperNode(allFeHosts, fe)
  {
    for i := 0 to |allFeHosts|
      invariant forall j :: 0 <= j < i ==> !Matches(allFeHosts[j], fe)
    {
      if fe.host == allFeHosts[i].first && fe.editLogPort == allFeHosts[i].second {
        return true;
      }
    }
    return false;
  }

  /** convertToHostPortPair: one pair per address, in the same order. */
  method ConvertToHostPortPair(addrs: seq<SocketAddress>) returns (hostPortPair: seq<HostPort>)
    ensures |hostPortPair| == |addrs|
    ensures forall i :: 0 <= i < |addrs| ==>
      hostPortPair[i] == HostPort(addrs[i].hostAddress, addrs[i].port)
  {
    hostPortPair := [];
    for i := 0 to |addrs|
      invariant |hostPortPair| == i
      invariant forall j :: 0 <= j < i ==> hostPortPair[j] == HostPort(addrs[j].hostAddress, addrs[j].port)
    {
      hostPortPair := hostPortPair + [HostPort(addrs[i].hostAddress, addrs[i].port)];
    }
  }

  /** The master IP as the display compares it: a null one becomes "". */
  function MasterIpOrEmpty(masterIp: Option<string>): string
  {
    if masterIp.None? then "" else masterIp.value
  }

  /** The (host, port) pairs of every electable node, leader included, followed by every observer. */
  function AllFeHosts(state: GlobalState): seq<HostPort>
  {
    var allFe := state.electableNodes + state.observerNodes;
    seq(|allFe|, i requires 0 <= i < |allFe| => HostPort(allFe[i].hostAddress, allFe[i].port))
  }

  function ViewOf(state: GlobalState, currentMasterIp: Option<string>, config: Config, env: Env): View
  {
    View(MasterIpOrEmpty(currentMasterIp), AllFeHosts(state), state, config, env)
  }

  /** The cells of one display row, by column title. */
  datatype InfoRow = InfoRow(
    name: string, ip: string, hostName: string, editLogPort: string, httpPort: string,
    queryPort: string, rpcPort: string, role: string, isMaster: string, clusterId: string,
    join: string, alive: string, replayedJournalId: string, lastHeartbeat: string,
    isHelper: string, errMsg: string, startTime: string, version: string)

  /** The row as the list of cells the display shows, in title order. */
  function Cells(r: InfoRow): seq<string>
  {
    [r.name, r.ip, r.hostName, r.editLogPort, r.httpPort, r.queryPort, r.rpcPort, r.role, r.isMaster,
     r.clusterId, r.join, r.alive, r.replayedJournalId, r.lastHeartbeat, r.isHelper, r.errMsg,
     r.startTime, r.version]
  }

  /** The display row of one frontend. */
  function Info(view: View, fe: Frontend): InfoRow
  {
    var isSelf := fe.host == view.state.selfNode.first;
    InfoRow(
      fe.nodeName,
      fe.host,
      view.env.hostnameByIp(fe.host),
      IntToString(fe.editLogPort),
      IntToString(view.config.httpPort),
      if isSelf then IntToString(view.config.queryPort) else IntToString(fe.queryPort),
      if isSelf then IntToString(view.config.rpcPort) else IntToString(fe.rpcPort),
      fe.roleName,
      BoolToString(fe.host == view.masterIp),
      IntToString(view.state.clusterId),
      // isJoin applies the rule of isHelperNode to the replication group's pairs
      BoolToString(IsHelperNode(view.allFeHosts, fe)),
      if isSelf then "true" else BoolToString(fe.alive),
      if isSelf then IntToString(view.state.maxJournalId) else IntToString(fe.replayedJournalId),
      view.env.longToTimeString(fe.lastUpdateTime),
      BoolToString(IsHelperNode(view.state.helperNodes, fe)),
      fe.heartbeatErrMsg,
      if fe.alive then view.env.longToTimeString(fe.startTime) else "NULL",
      if fe.feVersion.None? then "NULL" else fe.feVersion.value)
  }

  /** Builds the row of one frontend, choosing the cells that depend on the node before adding them in title order. */
  method BuildInfo(view: View, fe: Frontend) returns (info: seq<string>)
    ensures info == Cells(Info(view, fe))
  {
    var queryPort, rpcPort, alive, journalId;
    if fe.host == view.state.selfNode.first {
      queryPort, rpcPort := IntToString(view.config.queryPort), IntToString(view.config.rpcPort);
      alive, journalId := "true", IntToString(view.state.maxJournalId);
    } else {
      queryPort, rpcPort := IntToString(fe.queryPort), IntToString(fe.rpcPort);
      alive, journalId := BoolToString(fe.alive), IntToString(fe.replayedJournalId);
    }
    var joined := IsJoin(view.allFeHosts, fe);
    var startTime := if fe.alive then view.env.longToTimeString(fe.startTime) else "NULL";
    var version := if fe.feVersion.None? then "NULL" else fe.feVersion.value;
    info := [fe.nodeName, fe.host, view.env.hostnameByIp(fe.host), IntToString(fe.editLogPort),
             IntToString(view.config.httpPort), queryPort, rpcPort, fe.roleName,
             BoolToString(fe.host == view.masterIp), IntToString(view.state.clusterId), BoolToString(joined),
             alive, journalId, view.env.longToTimeString(fe.lastUpdateTime),
             BoolToString(IsHelperNode(view.state.helperNodes, fe)), fe.heartbeatErrMsg, startTime, version];
  }

  /**
   * Every row is as wide as the title list and puts each cell under its
   * title; in particular the cell at HOSTNAME_INDEX is the host name.
   */
  lemma CellsLayout(r: InfoRow)
    ensures var cells := Cells(r);
      && |cells| == |TITLE_NAMES| == 18
      && TITLE_NAMES[0] == "Name" && cells[0] == r.name
      && TITLE_NAMES[1] == "IP" && cells[1] == r.ip
      && TITLE_NAMES[HOSTNAME_INDEX] == "HostName" && cells[HOSTNAME_INDEX] == r.hostName
      && TITLE_NAMES[3] == "EditLogPort" && cells[3] == r.editLogPort
      && TITLE_NAMES[4] == "HttpPort" && cells[4] == r.httpPort
      && TITLE_NAMES[5] == "QueryPort" && cells[5] == r.queryPort
      && TITLE_NAMES[6] == "RpcPort" && cells[6] == r.rpcPort
      && TITLE_NAMES[7] == "Role" && cells[7] == r.role
      && TITLE_NAMES[8] == "IsMaster" && cells[8] == r.isMaster
      && TITLE_NAMES[9] == "ClusterId" && cells[9] == r.clusterId
      && TITLE_NAMES[10] == "Join" && cells[10] == r.join
      && TITLE_NAMES[11] == "Alive" && cells[11] == r.alive
      && TITLE_NAMES[12] == "ReplayedJournalId" && cells[12] == r.replayedJournalId
      && TITLE_NAMES[13] == "LastHeartbeat" && cells[13] == r.lastHeartbeat
      && TITLE_NAMES[14] == "IsHelper" && cells[14] == r.isHelper
      && TITLE_NAMES[15] == "ErrMsg" && cells[15] == r.errMsg
      && TITLE_NAMES[16] == "StartTime" && cells[16] == r.startTime
      && TITLE_NAMES[17] == "Version" && cells[17] == r.version
  {
  }

  /** IsMaster, Join and IsHelper are "true" exactly when their (host, port) condition holds. */
  lemma InfoFlags(view: View, fe: Frontend)
    ensures var row := Info(view, fe);
      && row.hostName == view.env.hostnameByIp(fe.host) && row.ip == fe.host
      && (row.isMaster == "true" <==> fe.host == view.masterIp)
      && (row.join == "true" <==> exists i :: 0 <= i < |view.allFeHosts| && Matches(view.allFeHosts[i], fe))
      && (row.isHelper == "true" <==>
            exists i :: 0 <= i < |view.state.helperNodes| && Matches(view.state.helperNodes[i], fe))
  {
  }

  /**
   * The node the manager runs on shows the configured query and rpc ports,
   * is always alive and shows the edit log's largest journal id; any other
   * node shows what its record says.
   */
  lemma InfoSelfNode(view: View, fe: Frontend)
    ensures var row := Info(view, fe);
      && (fe.host == view.state.selfNode.first ==>
            && row.queryPort == IntToString(view.config.queryPort) && row.rpcPort == IntToString(view.config.rpcPort)
            && row.alive == "true" && row.replayedJournalId == IntToString(view.state.maxJournalId))
      && (fe.host != view.state.selfNode.first ==>
            && row.queryPort == IntToString(fe.queryPort) && row.rpcPort == IntToString(fe.rpcPort)
            && (row.alive == "true" <==> fe.alive) && row.replayedJournalId == IntToString(fe.replayedJournalId))
  {
  }

  /**
   * StartTime is "NULL" for a frontend whose record says it is not alive,
   * the node the manager runs on included, and Version is "NULL" when the
   * version is unknown.
   */
  lemma InfoMissingValues(view: View, fe: Frontend)
    ensures var row := Info(view, fe);
      && (!fe.alive ==> row.startTime == "NULL")
      && (fe.alive ==> row.startTime == view.env.longToTimeString(fe.startTime))
      && (fe.feVersion.None? ==> row.version == "NULL")
      && (fe.feVersion.Some? ==> row.version == fe.feVersion.value)
  {
  }

  /** The rows of the given frontends, in their order. */
  function Infos(view: View, frontends: seq<Frontend>): seq<seq<string>>
  {
    seq(|frontends|, i requires 0 <= i < |frontends| => Cells(Info(view, frontends[i])))
  }

  lemma PrefixStep<T>(s: seq<T>, k: nat)
    requires k < |s|
    ensures s[..k + 1] == s[..k] + [s[k]]
  {
  }

  /** The list getFrontendsInfo appends to. */
  class InfoList {
    var rows: seq<seq<string>>

    constructor()
      ensures rows == []
    {
      rows := [];
    }
  }

  /**
   * getFrontendsInfo: appends one row per frontend to `infos`, in the order
   * the global state lists the frontends, after the rows already there.
   */
  method GetFrontendsInfo(state: GlobalState, currentMasterIp: Option<string>, config: Config, env: Env,
                          infos: InfoList)
    modifies infos`rows
    ensures infos.rows == old(infos.rows) + Infos(ViewOf(state, currentMasterIp, config, env), state.frontends)
  {
    var masterIp := if currentMasterIp.None? then "" else currentMasterIp.value;
    var allFe := state.electableNodes + state.observerNodes;
    var allFeHosts := ConvertToHostPortPair(allFe);
    assert allFeHosts == AllFeHosts(state);
    var view := View(masterIp, allFeHosts, state, config, env);
    assert view == ViewOf(state, currentMasterIp, config, env);
    ghost var start := infos.rows;
    ghost var expected := Infos(view, state.frontends);
    for k := 0 to |state.frontends|
      invariant infos.rows == start + expected[..k]
    {
      var info := BuildInfo(view, state.frontends[k]);
      assert info == expected[k];
      PrefixStep(expected, k);
      infos.rows := infos.rows + [info];
    }
    assert expected[..|state.frontends|] == expected;
  }

  /** fetchResult: the title row and one row per frontend, in order, each as wide as the titles. */
  method FetchResult(state: GlobalState, currentMasterIp: Option<string>, config: Config, env: Env)
    returns (names: seq<string>, rows: seq<seq<string>>)
    ensures names == TITLE_NAMES
    ensures rows == Infos(ViewOf(state, currentMasterIp, config, env), state.frontends)
    ensures |rows| == |state.frontends|
    ensures forall i :: 0 <= i < |rows| ==> |rows[i]| == |names|
  {
    var infos := new InfoList();
    GetFrontendsInfo(state, currentMasterIp, config, env, infos);
    names := TITLE_NAMES;
    var infoRows := infos.rows;
    rows := [];
    for k := 0 to |infoRows|
      invariant rows == infoRows[..k]
    {
      PrefixStep(infoRows, k);
      rows := rows + [infoRows[k]];
    }
    assert infoRows[..|infoRows|] == infoRows;
    forall i | 0 <= i < |rows|
      ensures |rows[i]| == |names|
    {
      CellsLayout(Info(ViewOf(state, currentMasterIp, config, env), state.frontends[i]));
    }
  }
}
