/** The scale patch of a TiDB cluster: which nodes an update removes and which it adds. */
module ScaleDiff {
  datatype Kind = TiDB | PD | TiKV

  /** settings stands for the directories. secondPort is the status or peer port. */
  datatype Server = Server(host: string, port: int, secondPort: int, config: string, settings: string)

  datatype Cluster = Cluster(tidb: seq<Server>, pd: seq<Server>, tikv: seq<Server>, version: string, serverConfigs: string)

  /** A deployed instance: its host is an address and its ports are set. */
  datatype Node = Node(kind: Kind, server: Server)

  function Part(c: Cluster, kind: Kind): seq<Server> {
    match kind
    case TiDB => c.tidb
    case PD => c.pd
    case TiKV => c.tikv
  }

  function DefaultPort(kind: Kind): int {
    match kind
    case TiDB => 4000
    case PD => 2379
    case TiKV => 20160
  }

  function DefaultSecondPort(kind: Kind): int {
    match kind
    case TiDB => 10080
    case PD => 2380
    case TiKV => 20180
  }

  /** strconv.Itoa; nothing here depends on how numbers are written. */
  type Itoa = int -> string

  /** How an entry becomes an address: the cluster IP of each host, and the decimal form of a port. */
  datatype Network = Network(ips: map<string, string>, itoa: Itoa)

  /** A missing host reads as the empty address. */
  function IpOf(net: Network, host: string): string {
    if host in net.ips then net.ips[host] else ""
  }

  function WithPort(kind: Kind, s: Server): Server {
    if s.port == 0 then s.(port := DefaultPort(kind)) else s
  }

  function SecondPort(kind: Kind, s: Server): int {
    if s.secondPort == 0 then DefaultSecondPort(kind) else s.secondPort
  }

  function Address(kind: Kind, s: Server, net: Network): string {
    IpOf(net, s.host) + ":" + net.itoa(WithPort(kind, s).port)
  }

  function NodeOf(kind: Kind, s: Server, net: Network): Server {
    WithPort(kind, s).(host := IpOf(net, s.host), secondPort := SecondPort(kind, s))
  }

  /** What tiup knows a deployed instance by. */
  function AddressOf(net: Network, n: Node): string {
    n.server.host + ":" + net.itoa(n.server.port)
  }

  // ---- The patch, as functions -----------------------------------------------------------

  function Gone(kind: Kind, pre: seq<Server>, cur: seq<Server>, net: Network): seq<string> {
    if pre == [] then []
    else
      var n := |pre| - 1;
      Gone(kind, pre[..n], cur, net) + if pre[n] in cur then [] else [Address(kind, pre[n], net)]
  }

  /** The default port is written into the entries of pre that go, and into no others. */
  function Marked(kind: Kind, pre: seq<Server>, cur: seq<Server>): seq<Server> {
    seq(|pre|, i requires 0 <= i < |pre| => if pre[i] in cur then pre[i] else WithPort(kind, pre[i]))
  }

  function Added(kind: Kind, pre: seq<Server>, cur: seq<Server>, net: Network): seq<Server> {
    if cur == [] then []
    else
      var n := |cur| - 1;
      Added(kind, pre, cur[..n], net) + if cur[n] in pre then [] else [NodeOf(kind, cur[n], net)]
  }

  function ScaleInNodes(pre: Cluster, cur: Cluster, net: Network): seq<string> {
    Gone(TiDB, pre.tidb, cur.tidb, net) + Gone(PD, pre.pd, cur.pd, net) + Gone(TiKV, pre.tikv, cur.tikv, net)
  }

  predicate IsScaleIn(pre: Cluster, cur: Cluster) {
    |pre.tidb| > |cur.tidb| || |pre.pd| > |cur.pd| || |pre.tikv| > |cur.tikv|
  }

  predicate IsScaleOut(pre: Cluster, cur: Cluster) {
    |pre.tidb| < |cur.tidb| || |pre.pd| < |cur.pd| || |pre.tikv| < |cur.tikv|
  }

  // ---- The code --------------------------------------------------------------------------

  /** The inner loop: a flag that stays up once an equal entry was seen. */
  method Exists(s: Server, among: seq<Server>) returns (isExisted: bool)
    ensures isExisted <==> s in among
  {
    isExisted := false;
    for j := 0 to |among|
      invariant isExisted <==> s in among[..j]
    {
      if s == among[j] {
        isExisted := true;
      }
    }
    assert among[..|among|] == among;
  }

  /** Fill in the default port of one entry of pre and tell its address. */
  method MarkEntry(kind: Kind, pre: array<Server>, i: nat, net: Network) returns (node: string)
    requires i < pre.Length
    modifies pre
    ensures pre[..] == old(pre[..])[i := WithPort(kind, old(pre[i]))]
    ensures node == Address(kind, old(pre[i]), net)
  {
    if pre[i].port == 0 {
      pre[i] := pre[i].(port := DefaultPort(kind));
    }
    node := IpOf(net, pre[i].host) + ":" + net.itoa(pre[i].port);
  }

  /** One component of getScaleInNode; the slice of pre is shared, so its entries change for the caller too. */
  method ScaleInPart(kind: Kind, pre: array<Server>, cur: seq<Server>, net: Network) returns (result: seq<string>)
    modifies pre
    ensures result == Gone(kind, old(pre[..]), cur, net)
    ensures pre[..] == Marked(kind, old(pre[..]), cur)
    ensures forall i :: 0 <= i < pre.Length ==>
              pre[i] == if old(pre[i]) in cur || old(pre[i]).port != 0 then old(pre[i])
                        else old(pre[i]).(port := match kind case TiDB => 4000 case PD => 2379 case TiKV => 20160)
  {
    result := [];
    ghost var before := pre[..];
    assert pre[..] == PartlyMarked(kind, before, cur, 0);
    for i := 0 to pre.Length
      invariant result == Gone(kind, before[..i], cur, net)
      invariant pre[..] == PartlyMarked(kind, before, cur, i)
    {
      GoneStep(kind, before, cur, net, i);
      MarkedStep(kind, before, cur, i);
      assert pre[i] == pre[..][i] == before[i];
      var isExisted := Exists(pre[i], cur);
      if !isExisted {
        var node := MarkEntry(kind, pre, i, net);
        result := result + [node];
      }
    }
    assert before[..pre.Length] == before;
    assert PartlyMarked(kind, before, cur, pre.Length) == Marked(kind, before, cur);
    assert forall i :: 0 <= i < pre.Length ==> pre[i] == pre[..][i];
  }

  /** The slice when the loop has come to entry i. */
  ghost function PartlyMarked(kind: Kind, pre: seq<Server>, cur: seq<Server>, i: nat): seq<Server>
    requires i <= |pre|
  {
    Marked(kind, pre[..i], cur) + pre[i..]
  }

  lemma MarkedStep(kind: Kind, pre: seq<Server>, cur: seq<Server>, i: nat)
    requires i < |pre|
    ensures PartlyMarked(kind, pre, cur, i)[i] == pre[i]
    ensures PartlyMarked(kind, pre, cur, i + 1) ==
            if pre[i] in cur then PartlyMarked(kind, pre, cur, i)
            else PartlyMarked(kind, pre, cur, i)[i := WithPort(kind, pre[i])]
  {
  }

  lemma GoneStep(kind: Kind, pre: seq<Server>, cur: seq<Server>, net: Network, i: nat)
    requires i < |pre|
    ensures Gone(kind, pre[..i + 1], cur, net) ==
            Gone(kind, pre[..i], cur, net) + if pre[i] in cur then [] else [Address(kind, pre[i], net)]
  {
    assert pre[..i + 1][..i] == pre[..i];
  }

  method GetScaleInNode(preTiDB: array<Server>, prePD: array<Server>, preTiKV: array<Server>, cur: Cluster, net: Network)
    returns (result: seq<string>)
    requires preTiDB != prePD && preTiDB != preTiKV && prePD != preTiKV
    modifies preTiDB, prePD, preTiKV
    ensures result == ScaleInNodes(Cluster(old(preTiDB[..]), old(prePD[..]), old(preTiKV[..]), "", ""), cur, net)
    ensures preTiDB[..] == Marked(TiDB, old(preTiDB[..]), cur.tidb)
    ensures prePD[..] == Marked(PD, old(prePD[..]), cur.pd)
    ensures preTiKV[..] == Marked(TiKV, old(preTiKV[..]), cur.tikv)
  {
    var tidbs := ScaleInPart(TiDB, preTiDB, cur.tidb, net);
    var pds := ScaleInPart(PD, prePD, cur.pd, net);
    var tikvs := ScaleInPart(TiKV, preTiKV, cur.tikv, net);
    result := tidbs + pds + tikvs;
  }

  /** One component of getScaleOutRoles; entries are copied before they are filled in. */
  method ScaleOutPart(kind: Kind, pre: seq<Server>, cur: seq<Server>, net: Network) returns (result: seq<Server>)
    ensures result == Added(kind, pre, cur, net)
  {
    result := [];
    for i := 0 to |cur|
      invariant result == Added(kind, pre, cur[..i], net)
    {
      assert cur[..i + 1][..i] == cur[..i];
      var isExisted := Exists(cur[i], pre);
      if !isExisted {
        var tmp := cur[i].(host := IpOf(net, cur[i].host));
        if tmp.port == 0 {
          tmp := tmp.(port := DefaultPort(kind));
        }
        if tmp.secondPort == 0 {
          tmp := tmp.(secondPort := DefaultSecondPort(kind));
        }
        result := result + [tmp];
      }
    }
    assert cur[..|cur|] == cur;
  }

  // ---- What the admission webhook lets through -------------------------------------------

  predicate SharesHost(pre: seq<Server>, cur: seq<Server>) {
    exists j, k :: 0 <= j < |pre| && 0 <= k < |cur| && pre[j].host == cur[k].host
  }

  ghost predicate PartKept(pre: Cluster, cur: Cluster, kind: Kind) {
    (Part(pre, kind) == [] && Part(cur, kind) == []) || SharesHost(Part(pre, kind), Part(cur, kind))
  }

  /** No component grows while another shrinks; with all sizes equal, each component keeps some host. */
  ghost predicate OneDirection(pre: Cluster, cur: Cluster) {
    && !(IsScaleIn(pre, cur) && IsScaleOut(pre, cur))
    && (!IsScaleIn(pre, cur) && !IsScaleOut(pre, cur) ==> forall kind: Kind :: PartKept(pre, cur, kind))
  }

  lemma SharesHostMeans(pre: seq<Server>, cur: seq<Server>)
    ensures SharesHost(pre, cur) <==> exists p, c :: p in pre && c in cur && p.host == c.host
  {
    if p, c :| p in pre && c in cur && p.host == c.host {
      var j :| 0 <= j < |pre| && pre[j] == p;
      var k :| 0 <= k < |cur| && cur[k] == c;
    }
  }

  lemma KeptMeans(pre: Cluster, cur: Cluster)
    requires |pre.tidb| == |cur.tidb| && |pre.pd| == |cur.pd| && |pre.tikv| == |cur.tikv|
    ensures PartKept(pre, cur, TiDB) <==> pre.tidb == [] || exists p, c :: p in pre.tidb && c in cur.tidb && p.host == c.host
    ensures PartKept(pre, cur, PD) <==> pre.pd == [] || exists p, c :: p in pre.pd && c in cur.pd && p.host == c.host
    ensures PartKept(pre, cur, TiKV) <==> pre.tikv == [] || exists p, c :: p in pre.tikv && c in cur.tikv && p.host == c.host
  {
    SharesHostMeans(pre.tidb, cur.tidb);
    SharesHostMeans(pre.pd, cur.pd);
    SharesHostMeans(pre.tikv, cur.tikv);
  }

  method FindSharedHost(pre: seq<Server>, cur: seq<Server>) returns (isExist: bool)
    ensures isExist <==> SharesHost(pre, cur)
  {
    isExist := false;
    for j := 0 to |pre|
      invariant isExist <==> exists i, k :: 0 <= i < j && 0 <= k < |cur| && pre[i].host == cur[k].host
    {
      for k := 0 to |cur|
        invariant isExist <==> (exists i, l :: 0 <= i < j && 0 <= l < |cur| && pre[i].host == cur[l].host)
                               || exists l :: 0 <= l < k && pre[j].host == cur[l].host
      {
        if pre[j].host == cur[k].host {
          isExist := true;
          break;
        }
      }
    }
  }

  /** The check refuses a cluster of which one component grows and another shrinks, and at equal sizes one that keeps no host of some component. */
  method CheckSimultaneousScaleOutAndScaleIn(pre: Cluster, cur: Cluster) returns (ok: bool)
    ensures ok <==> OneDirection(pre, cur)
    ensures ok <==>
              var shrinks := |pre.tidb| > |cur.tidb| || |pre.pd| > |cur.pd| || |pre.tikv| > |cur.tikv|;
              var grows := |pre.tidb| < |cur.tidb| || |pre.pd| < |cur.pd| || |pre.tikv| < |cur.tikv|;
              && !(shrinks && grows)
              && (!shrinks && !grows ==>
                    && (pre.tidb == [] || exists p, c :: p in pre.tidb && c in cur.tidb && p.host == c.host)
                    && (pre.pd == [] || exists p, c :: p in pre.pd && c in cur.pd && p.host == c.host)
                    && (pre.tikv == [] || exists p, c :: p in pre.tikv && c in cur.tikv && p.host == c.host))
  {
    var scaleIn := |pre.tidb| > |cur.tidb| || |pre.pd| > |cur.pd| || |pre.tikv| > |cur.tikv|;
    var scaleOut := |pre.tidb| < |cur.tidb| || |pre.pd| < |cur.pd| || |pre.tikv| < |cur.tikv|;
    if scaleIn && scaleOut {
      return false;
    }
    if !scaleIn && !scaleOut {
      var kinds := [TiDB, PD, TiKV];
      for i := 0 to |kinds|
        invariant forall k :: 0 <= k < i ==> PartKept(pre, cur, kinds[k])
      {
        if |Part(cur, kinds[i])| == 0 && |Part(pre, kinds[i])| == 0 {
          continue;
        }
        var isExist := FindSharedHost(Part(pre, kinds[i]), Part(cur, kinds[i]));
        if !isExist {
          assert !PartKept(pre, cur, kinds[i]);
          KeptMeans(pre, cur);
          return false;
        }
      }
      assert PartKept(pre, cur, kinds[0]) && PartKept(pre, cur, kinds[1]) && PartKept(pre, cur, kinds[2]);
      KeptMeans(pre, cur);
    }
    ok := true;
  }

  function EntryID(itoa: Itoa, kind: Kind, s: Server): string {
    s.host + (if kind.TiDB? then ":" else "-") + itoa(s.port)
  }

  /** One ID, but not the same entry. */
  predicate Clash(itoa: Itoa, kind: Kind, p: Server, c: Server) {
    EntryID(itoa, kind, p) == EntryID(itoa, kind, c) && p != c
  }

  ghost predicate PartImmutable(itoa: Itoa, kind: Kind, pre: seq<Server>, cur: seq<Server>) {
    forall p, c :: p in pre && c in cur ==> !Clash(itoa, kind, p, c)
  }

  ghost predicate Immutable(itoa: Itoa, pre: Cluster, cur: Cluster) {
    forall kind: Kind :: PartImmutable(itoa, kind, Part(pre, kind), Part(cur, kind))
  }

  lemma ImmutableMeans(itoa: Itoa, pre: Cluster, cur: Cluster)
    ensures PartImmutable(itoa, TiDB, pre.tidb, cur.tidb) <==>
            forall p, c :: p in pre.tidb && c in cur.tidb && p.host + ":" + itoa(p.port) == c.host + ":" + itoa(c.port) ==> p == c
    ensures PartImmutable(itoa, PD, pre.pd, cur.pd) <==>
            forall p, c :: p in pre.pd && c in cur.pd && p.host + "-" + itoa(p.port) == c.host + "-" + itoa(c.port) ==> p == c
    ensures PartImmutable(itoa, TiKV, pre.tikv, cur.tikv) <==>
            forall p, c :: p in pre.tikv && c in cur.tikv && p.host + "-" + itoa(p.port) == c.host + "-" + itoa(c.port) ==> p == c
    ensures Immutable(itoa, pre, cur) <==>
            && PartImmutable(itoa, TiDB, pre.tidb, cur.tidb) && PartImmutable(itoa, PD, pre.pd, cur.pd)
            && PartImmutable(itoa, TiKV, pre.tikv, cur.tikv)
  {
    forall kind: Kind, p, c ensures Clash(itoa, kind, p, c) <==>
        p != c && p.host + (if kind.TiDB? then ":" else "-") + itoa(p.port) == c.host + (if kind.TiDB? then ":" else "-") + itoa(c.port) {
    }
    assert Immutable(itoa, pre, cur) ==>
             && PartImmutable(itoa, TiDB, Part(pre, TiDB), Part(cur, TiDB)) && PartImmutable(itoa, PD, Part(pre, PD), Part(cur, PD))
             && PartImmutable(itoa, TiKV, Part(pre, TiKV), Part(cur, TiKV));
  }

  method CheckPartImmutable(itoa: Itoa, kind: Kind, pre: seq<Server>, cur: seq<Server>) returns (ok: bool)
    ensures ok <==> PartImmutable(itoa, kind, pre, cur)
  {
    for j := 0 to |pre|
      invariant PartImmutable(itoa, kind, pre[..j], cur)
    {
      for k := 0 to |cur|
        invariant forall c :: c in cur[..k] ==> !Clash(itoa, kind, pre[j], c)
      {
        if Clash(itoa, kind, pre[j], cur[k]) {
          return false;
        }
      }
      assert cur[..|cur|] == cur;
    }
    assert pre[..|pre|] == pre;
    ok := true;
  }

  /** Entries of one component with one ID, which is host:port for TiDB and host-port for the others, must be equal. */
  method CheckImmutableFieldChanged(itoa: Itoa, pre: Cluster, cur: Cluster) returns (ok: bool)
    ensures ok <==> Immutable(itoa, pre, cur)
    ensures ok <==>
              && (forall p, c :: p in pre.tidb && c in cur.tidb && p.host + ":" + itoa(p.port) == c.host + ":" + itoa(c.port) ==> p == c)
              && (forall p, c :: p in pre.pd && c in cur.pd && p.host + "-" + itoa(p.port) == c.host + "-" + itoa(c.port) ==> p == c)
              && (forall p, c :: p in pre.tikv && c in cur.tikv && p.host + "-" + itoa(p.port) == c.host + "-" + itoa(c.port) ==> p == c)
  {
    ImmutableMeans(itoa, pre, cur);
    var kinds := [TiDB, PD, TiKV];
    for i := 0 to |kinds|
      invariant forall k :: 0 <= k < i ==> PartImmutable(itoa, kinds[k], Part(pre, kinds[k]), Part(cur, kinds[k]))
    {
      ok := CheckPartImmutable(itoa, kinds[i], Part(pre, kinds[i]), Part(cur, kinds[i]));
      if !ok {
        return false;
      }
    }
    assert PartImmutable(itoa, kinds[0], Part(pre, kinds[0]), Part(cur, kinds[0]));
    assert PartImmutable(itoa, kinds[1], Part(pre, kinds[1]), Part(cur, kinds[1]));
    assert PartImmutable(itoa, kinds[2], Part(pre, kinds[2]), Part(cur, kinds[2]));
    ok := true;
  }

  predicate IsScale(pre: Cluster, cur: Cluster) {
    |pre.tidb| != |cur.tidb| || |pre.pd| != |cur.pd| || |pre.tikv| != |cur.tikv|
  }

  /** At most one of scaling, server configuration and version changes. */
  ghost predicate OneKind(pre: Cluster, cur: Cluster) {
    && !(IsScale(pre, cur) && pre.serverConfigs != cur.serverConfigs)
    && !(IsScale(pre, cur) && pre.version != cur.version)
    && !(pre.serverConfigs != cur.serverConfigs && pre.version != cur.version)
  }

  method CheckAtMostOneKindUpdation(pre: Cluster, cur: Cluster) returns (ok: bool)
    ensures ok <==> OneKind(pre, cur)
    ensures ok <==>
              var scaled := |pre.tidb| != |cur.tidb| || |pre.pd| != |cur.pd| || |pre.tikv| != |cur.tikv|;
              var configured, upgraded := pre.serverConfigs != cur.serverConfigs, pre.version != cur.version;
              !(scaled && configured) && !(scaled && upgraded) && !(configured && upgraded)
  {
    var updatedModules := 0;
    if IsScale(pre, cur) {
      updatedModules := updatedModules + 1;
    }
    if pre.serverConfigs != cur.serverConfigs {
      updatedModules := updatedModules + 1;
    }
    if pre.version != cur.version {
      updatedModules := updatedModules + 1;
    }
    ok := updatedModules <= 1;
  }

  /** Two entries of one component on one host, configured differently. */
  predicate Reconfigured(p: Server, c: Server) {
    p.host == c.host && p.config != c.config
  }

  ghost predicate PartReconfigured(pre: seq<Server>, cur: seq<Server>) {
    exists p, c :: p in pre && c in cur && Reconfigured(p, c)
  }

  ghost predicate ConfigModified(pre: Cluster, cur: Cluster) {
    pre.serverConfigs != cur.serverConfigs || exists kind: Kind :: PartReconfigured(Part(pre, kind), Part(cur, kind))
  }

  method FindReconfigured(pre: seq<Server>, cur: seq<Server>) returns (found: bool)
    ensures found <==> PartReconfigured(pre, cur)
  {
    for j := 0 to |pre|
      invariant !PartReconfigured(pre[..j], cur)
    {
      for k := 0 to |cur|
        invariant forall c :: c in cur[..k] ==> !Reconfigured(pre[j], c)
      {
        if Reconfigured(pre[j], cur[k]) {
          return true;
        }
      }
      assert cur[..|cur|] == cur;
    }
    assert pre[..|pre|] == pre;
    found := false;
  }

  lemma ReconfiguredMeans(pre: Cluster, cur: Cluster)
    ensures PartReconfigured(pre.tidb, cur.tidb) <==> exists p, c :: p in pre.tidb && c in cur.tidb && p.host == c.host && p.config != c.config
    ensures PartReconfigured(pre.pd, cur.pd) <==> exists p, c :: p in pre.pd && c in cur.pd && p.host == c.host && p.config != c.config
    ensures PartReconfigured(pre.tikv, cur.tikv) <==> exists p, c :: p in pre.tikv && c in cur.tikv && p.host == c.host && p.config != c.config
  {
    forall p, c ensures Reconfigured(p, c) <==> p.host == c.host && p.config != c.config {
    }
  }

  method IsConfigModified(pre: Cluster, cur: Cluster) returns (modified: bool)
    ensures modified <==> ConfigModified(pre, cur)
    ensures modified <==>
              || pre.serverConfigs != cur.serverConfigs
              || (exists p, c :: p in pre.tidb && c in cur.tidb && p.host == c.host && p.config != c.config)
              || (exists p, c :: p in pre.pd && c in cur.pd && p.host == c.host && p.config != c.config)
              || (exists p, c :: p in pre.tikv && c in cur.tikv && p.host == c.host && p.config != c.config)
  {
    ReconfiguredMeans(pre, cur);
    if pre.serverConfigs != cur.serverConfigs {
      return true;
    }
    var kinds := [TiDB, PD, TiKV];
    for i := 0 to |kinds|
      invariant forall k :: 0 <= k < i ==> !PartReconfigured(Part(pre, kinds[k]), Part(cur, kinds[k]))
    {
      modified := FindReconfigured(Part(pre, kinds[i]), Part(cur, kinds[i]));
      if modified {
        return true;
      }
    }
    assert !PartReconfigured(Part(pre, kinds[0]), Part(cur, kinds[0]));
    assert !PartReconfigured(Part(pre, kinds[1]), Part(cur, kinds[1]));
    assert !PartReconfigured(Part(pre, kinds[2]), Part(cur, kinds[2]));
    modified := false;
  }

  predicate IsUpgraded(pre: Cluster, cur: Cluster) {
    pre.version != cur.version
  }

  ghost predicate Accepted(itoa: Itoa, pre: Cluster, cur: Cluster) {
    OneKind(pre, cur) && Immutable(itoa, pre, cur) && OneDirection(pre, cur)
  }

  // ---- Is the patch right? ---------------------------------------------------------------

  ghost function Deployed(c: Cluster, net: Network): set<Node> {
    set kind: Kind, s: Server | s in Part(c, kind) :: Node(kind, NodeOf(kind, s, net))
  }

  ghost function AddedNodes(pre: Cluster, cur: Cluster, net: Network): set<Node> {
    set kind: Kind, s: Server | s in Added(kind, Part(pre, kind), Part(cur, kind), net) :: Node(kind, s)
  }

  ghost function WithoutNodes(net: Network, deployed: set<Node>, addresses: seq<string>): set<Node> {
    set n | n in deployed && AddressOf(net, n) !in addresses
  }

  /** tiup after the scale-in. */
  ghost function ScaledIn(pre: Cluster, cur: Cluster, net: Network, deployed: set<Node>): set<Node> {
    if IsScaleIn(pre, cur) then WithoutNodes(net, deployed, ScaleInNodes(pre, cur, net)) else deployed
  }

  /** What the scale-out finds in place of pre: the scale-in has written default ports into it. */
  function AfterScaleIn(pre: Cluster, cur: Cluster): Cluster {
    if IsScaleIn(pre, cur) then
      pre.(tidb := Marked(TiDB, pre.tidb, cur.tidb), pd := Marked(PD, pre.pd, cur.pd), tikv := Marked(TiKV, pre.tikv, cur.tikv))
    else pre
  }

  /** tiup after updateTiDBCluster: scaled in when a component shrank, then scaled out when one grew. */
  ghost function Patched(pre: Cluster, cur: Cluster, net: Network, deployed: set<Node>): set<Node> {
    var left := ScaledIn(pre, cur, net, deployed);
    if IsScaleOut(pre, cur) then left + AddedNodes(AfterScaleIn(pre, cur), cur, net) else left
  }

  /** No two entries of the cluster share a defaulted host:port. */
  ghost predicate AddressesDistinct(c: Cluster, net: Network) {
    forall k: Kind, l: Kind, s, t :: s in Part(c, k) && t in Part(c, l) && Address(k, s, net) == Address(l, t, net) ==> k == l && s == t
  }

  ghost predicate Within(small: Cluster, large: Cluster) {
    forall kind: Kind, s :: s in Part(small, kind) ==> s in Part(large, kind)
  }

  lemma {:induction false} GoneMeans(kind: Kind, pre: seq<Server>, cur: seq<Server>, net: Network, a: string)
    ensures a in Gone(kind, pre, cur, net) <==> exists s :: s in pre && s !in cur && Address(kind, s, net) == a
  {
    if pre != [] {
      var n := |pre| - 1;
      GoneMeans(kind, pre[..n], cur, net, a);
      assert pre == pre[..n] + [pre[n]];
    }
  }

  lemma {:induction false} AddedMeans(kind: Kind, pre: seq<Server>, cur: seq<Server>, net: Network, x: Server)
    ensures x in Added(kind, pre, cur, net) <==> exists s :: s in cur && s !in pre && NodeOf(kind, s, net) == x
  {
    if cur != [] {
      var n := |cur| - 1;
      AddedMeans(kind, pre, cur[..n], net, x);
      assert cur == cur[..n] + [cur[n]];
    }
  }

  /** The instance that an entry stands for, and its address: the host's address and the ports, with the component's own for none. */
  lemma NodeIs(kind: Kind, s: Server, net: Network)
    ensures var ip := if s.host in net.ips then net.ips[s.host] else "";
            var port := if s.port != 0 then s.port else match kind case TiDB => 4000 case PD => 2379 case TiKV => 20160;
            var second := if s.secondPort != 0 then s.secondPort else match kind case TiDB => 10080 case PD => 2380 case TiKV => 20180;
            NodeOf(kind, s, net) == Server(ip, port, second, s.config, s.settings) && Address(kind, s, net) == ip + ":" + net.itoa(port)
  {
  }

  /** An entry of pre that is not literally in cur is scaled in under its address. */
  lemma GoneIs(kind: Kind, pre: seq<Server>, cur: seq<Server>, net: Network, s: Server)
    requires s in pre && s !in cur
    ensures (if s.host in net.ips then net.ips[s.host] else "") + ":"
            + net.itoa(if s.port != 0 then s.port else match kind case TiDB => 4000 case PD => 2379 case TiKV => 20160)
            in Gone(kind, pre, cur, net)
  {
    NodeIs(kind, s, net);
    GoneMeans(kind, pre, cur, net, Address(kind, s, net));
  }

  /** An entry of cur that is not literally in pre is scaled out as the instance it stands for. */
  lemma AddedIs(kind: Kind, pre: seq<Server>, cur: seq<Server>, net: Network, s: Server)
    requires s in cur && s !in pre
    ensures Server(if s.host in net.ips then net.ips[s.host] else "",
                   if s.port != 0 then s.port else match kind case TiDB => 4000 case PD => 2379 case TiKV => 20160,
                   if s.secondPort != 0 then s.secondPort else match kind case TiDB => 10080 case PD => 2380 case TiKV => 20180,
                   s.config, s.settings) in Added(kind, pre, cur, net)
  {
    NodeIs(kind, s, net);
    AddedMeans(kind, pre, cur, net, NodeOf(kind, s, net));
  }

  /** The addresses to scale in are those of the entries of pre that are not literally in cur. */
  lemma ScaleInMeans(pre: Cluster, cur: Cluster, net: Network, a: string)
    ensures a in ScaleInNodes(pre, cur, net) <==>
            exists kind: Kind, s :: s in Part(pre, kind) && s !in Part(cur, kind) && Address(kind, s, net) == a
  {
    GoneMeans(TiDB, pre.tidb, cur.tidb, net, a);
    GoneMeans(PD, pre.pd, cur.pd, net, a);
    GoneMeans(TiKV, pre.tikv, cur.tikv, net, a);
    if kind: Kind, s :| s in Part(pre, kind) && s !in Part(cur, kind) && Address(kind, s, net) == a {
      assert kind == TiDB || kind == PD || kind == TiKV;
    }
    if s :| s in pre.tidb && s !in cur.tidb && Address(TiDB, s, net) == a {
      assert s in Part(pre, TiDB) && s !in Part(cur, TiDB);
    }
    if s :| s in pre.pd && s !in cur.pd && Address(PD, s, net) == a {
      assert s in Part(pre, PD) && s !in Part(cur, PD);
    }
    if s :| s in pre.tikv && s !in cur.tikv && Address(TiKV, s, net) == a {
      assert s in Part(pre, TiKV) && s !in Part(cur, TiKV);
    }
  }

  lemma AddressOfNode(kind: Kind, s: Server, net: Network)
    ensures AddressOf(net, Node(kind, NodeOf(kind, s, net))) == Address(kind, s, net)
  {
  }

  /** An entry of both topologies is neither removed nor added. */
  lemma CommonStays(pre: Cluster, cur: Cluster, net: Network, kind: Kind, s: Server)
    requires AddressesDistinct(pre, net) && AddressesDistinct(cur, net) && s in Part(pre, kind) && s in Part(cur, kind)
    ensures Address(kind, s, net) !in ScaleInNodes(pre, cur, net)
    ensures Node(kind, NodeOf(kind, s, net)) !in AddedNodes(pre, cur, net)
  {
    ScaleInMeans(pre, cur, net, Address(kind, s, net));
    AddedMeans(kind, Part(pre, kind), Part(cur, kind), net, NodeOf(kind, s, net));
    if Node(kind, NodeOf(kind, s, net)) in AddedNodes(pre, cur, net) {
      var t :| t in Part(cur, kind) && t !in Part(pre, kind) && NodeOf(kind, t, net) == NodeOf(kind, s, net);
      AddressOfNode(kind, s, net);
      AddressOfNode(kind, t, net);
    }
  }

  /** Scaling in leaves exactly the entries of pre that are in cur. */
  lemma ScaleInLeaves(pre: Cluster, cur: Cluster, net: Network, kind: Kind, s: Server)
    requires AddressesDistinct(pre, net) && s in Part(pre, kind)
    ensures Node(kind, NodeOf(kind, s, net)) in WithoutNodes(net, Deployed(pre, net), ScaleInNodes(pre, cur, net)) <==> s in Part(cur, kind)
  {
    AddressOfNode(kind, s, net);
    ScaleInMeans(pre, cur, net, Address(kind, s, net));
    assert Node(kind, NodeOf(kind, s, net)) in Deployed(pre, net);
  }

  /** A scale-in does what was asked if and only if every remaining entry is literally one of the old ones. */
  lemma ScaleInCorrectIff(pre: Cluster, cur: Cluster, net: Network)
    requires AddressesDistinct(pre, net) && AddressesDistinct(cur, net) && IsScaleIn(pre, cur) && !IsScaleOut(pre, cur)
    ensures Patched(pre, cur, net, Deployed(pre, net)) == Deployed(cur, net) <==> Within(cur, pre)
  {
    var after := Patched(pre, cur, net, Deployed(pre, net));
    if Within(cur, pre) {
      forall n | n in Deployed(cur, net) ensures n in after {
        var s :| s in Part(cur, n.kind) && n == Node(n.kind, NodeOf(n.kind, s, net));
        ScaleInLeaves(pre, cur, net, n.kind, s);
      }
      forall n | n in after ensures n in Deployed(cur, net) {
        var s :| s in Part(pre, n.kind) && n == Node(n.kind, NodeOf(n.kind, s, net));
        ScaleInLeaves(pre, cur, net, n.kind, s);
      }
    }
    if after == Deployed(cur, net) {
      forall kind: Kind, c | c in Part(cur, kind) ensures c in Part(pre, kind) {
        var n := Node(kind, NodeOf(kind, c, net));
        assert n in Deployed(cur, net);
        var s :| s in Part(pre, kind) && n == Node(kind, NodeOf(kind, s, net));
        ScaleInLeaves(pre, cur, net, kind, s);
        AddressOfNode(kind, s, net);
        AddressOfNode(kind, c, net);
      }
    }
  }

  /** Nothing is added on top of an instance that is there already. */
  ghost predicate AddsOnlyNew(pre: Cluster, cur: Cluster, net: Network) {
    AddedNodes(pre, cur, net) !! Deployed(pre, net)
  }

  lemma AddedNodesMean(pre: Cluster, cur: Cluster, net: Network, n: Node)
    ensures n in AddedNodes(pre, cur, net) <==>
            exists s :: s in Part(cur, n.kind) && s !in Part(pre, n.kind) && NodeOf(n.kind, s, net) == n.server
  {
    AddedMeans(n.kind, Part(pre, n.kind), Part(cur, n.kind), net, n.server);
  }

  lemma PureScaleOut(pre: Cluster, cur: Cluster, net: Network)
    requires AddressesDistinct(cur, net) && IsScaleOut(pre, cur) && !IsScaleIn(pre, cur) && Within(pre, cur)
    ensures Patched(pre, cur, net, Deployed(pre, net)) == Deployed(cur, net) && AddsOnlyNew(pre, cur, net)
  {
    var after := Patched(pre, cur, net, Deployed(pre, net));
    forall n | n in Deployed(cur, net) ensures n in after {
      var s :| s in Part(cur, n.kind) && n == Node(n.kind, NodeOf(n.kind, s, net));
      AddedNodesMean(pre, cur, net, n);
    }
    forall n | n in AddedNodes(pre, cur, net) ensures n in Deployed(cur, net) && n !in Deployed(pre, net) {
      AddedNodesMean(pre, cur, net, n);
      var s :| s in Part(cur, n.kind) && s !in Part(pre, n.kind) && NodeOf(n.kind, s, net) == n.server;
      assert n == Node(n.kind, NodeOf(n.kind, s, net));
      if n in Deployed(pre, net) {
        var p :| p in Part(pre, n.kind) && n == Node(n.kind, NodeOf(n.kind, p, net));
        AddressOfNode(n.kind, s, net);
        AddressOfNode(n.kind, p, net);
      }
    }
  }

  /** A scale-out does what was asked, on fresh instances only, if and only if every old entry is literally still there. */
  lemma ScaleOutCorrectIff(pre: Cluster, cur: Cluster, net: Network)
    requires AddressesDistinct(pre, net) && AddressesDistinct(cur, net) && IsScaleOut(pre, cur) && !IsScaleIn(pre, cur)
    ensures Patched(pre, cur, net, Deployed(pre, net)) == Deployed(cur, net) && AddsOnlyNew(pre, cur, net) <==> Within(pre, cur)
  {
    if Within(pre, cur) {
      PureScaleOut(pre, cur, net);
    }
    if Patched(pre, cur, net, Deployed(pre, net)) == Deployed(cur, net) && AddsOnlyNew(pre, cur, net) {
      forall kind: Kind, p | p in Part(pre, kind) ensures p in Part(cur, kind) {
        var n := Node(kind, NodeOf(kind, p, net));
        assert n in Deployed(pre, net);
        var s :| s in Part(cur, kind) && n == Node(kind, NodeOf(kind, s, net));
        AddedNodesMean(pre, cur, net, n);
        AddressOfNode(kind, s, net);
        AddressOfNode(kind, p, net);
      }
    }
  }

  /** For an accepted update that scales, the patch is right exactly when the cluster purely shrinks or purely grows. */
  lemma AcceptedScaleCorrectIff(pre: Cluster, cur: Cluster, net: Network)
    requires Accepted(net.itoa, pre, cur) && IsScale(pre, cur) && AddressesDistinct(pre, net) && AddressesDistinct(cur, net)
    ensures Patched(pre, cur, net, Deployed(pre, net)) == Deployed(cur, net) && (IsScaleOut(pre, cur) ==> AddsOnlyNew(pre, cur, net)) <==>
            if IsScaleIn(pre, cur) then Within(cur, pre) else Within(pre, cur)
  {
    if IsScaleIn(pre, cur) {
      ScaleInCorrectIff(pre, cur, net);
    } else {
      ScaleOutCorrectIff(pre, cur, net);
    }
  }

  // ---- Entries that stand for the same instance ------------------------------------------

  /** The same but for how their host is called and whether default ports are written out. */
  predicate SameEntry(kind: Kind, s: Server, t: Server, net: Network) {
    && IpOf(net, s.host) == IpOf(net, t.host) && WithPort(kind, s).port == WithPort(kind, t).port
    && SecondPort(kind, s) == SecondPort(kind, t) && s.config == t.config && s.settings == t.settings
  }

  lemma SameEntryIff(kind: Kind, s: Server, t: Server, net: Network)
    ensures SameEntry(kind, s, t, net) <==> NodeOf(kind, s, net) == NodeOf(kind, t, net)
    ensures SameEntry(kind, s, t, net) ==> Address(kind, s, net) == Address(kind, t, net)
  {
  }

  ghost predicate HasEntry(c: Cluster, kind: Kind, s: Server, net: Network) {
    exists t :: t in Part(c, kind) && SameEntry(kind, s, t, net)
  }

  /** Every entry of small stands for an instance that large has an entry for. */
  ghost predicate Covers(large: Cluster, small: Cluster, net: Network) {
    forall kind: Kind, s :: s in Part(small, kind) ==> HasEntry(large, kind, s, net)
  }

  ghost predicate SameEntries(pre: Cluster, cur: Cluster, net: Network) {
    Covers(pre, cur, net) && Covers(cur, pre, net)
  }

  lemma HasEntryIff(c: Cluster, kind: Kind, s: Server, net: Network)
    ensures HasEntry(c, kind, s, net) <==> Node(kind, NodeOf(kind, s, net)) in Deployed(c, net)
  {
    if HasEntry(c, kind, s, net) {
      var t :| t in Part(c, kind) && SameEntry(kind, s, t, net);
      SameEntryIff(kind, s, t, net);
      assert Node(kind, NodeOf(kind, t, net)) in Deployed(c, net);
    }
    if Node(kind, NodeOf(kind, s, net)) in Deployed(c, net) {
      var t :| t in Part(c, kind) && NodeOf(kind, t, net) == NodeOf(kind, s, net);
      SameEntryIff(kind, s, t, net);
    }
  }

  lemma CoversIff(large: Cluster, small: Cluster, net: Network)
    ensures Covers(large, small, net) <==> Deployed(small, net) <= Deployed(large, net)
  {
    if Covers(large, small, net) {
      forall n | n in Deployed(small, net) ensures n in Deployed(large, net) {
        var s :| s in Part(small, n.kind) && n == Node(n.kind, NodeOf(n.kind, s, net));
        HasEntryIff(large, n.kind, s, net);
      }
    }
    if Deployed(small, net) <= Deployed(large, net) {
      forall kind: Kind, s | s in Part(small, kind) ensures HasEntry(large, kind, s, net) {
        assert Node(kind, NodeOf(kind, s, net)) in Deployed(small, net);
        HasEntryIff(large, kind, s, net);
      }
    }
  }

  /** With equal sizes nothing is patched, which is right if and only if both have the same entries up to default ports. */
  lemma EqualSizeCorrectIff(pre: Cluster, cur: Cluster, net: Network)
    requires !IsScale(pre, cur)
    ensures Patched(pre, cur, net, Deployed(pre, net)) == Deployed(cur, net) <==> SameEntries(pre, cur, net)
  {
    CoversIff(pre, cur, net);
    CoversIff(cur, pre, net);
  }

  /** An accepted update that purely shrinks, purely grows or leaves the instances as they are. */
  ghost predicate PureUpdate(pre: Cluster, cur: Cluster, net: Network) {
    && Accepted(net.itoa, pre, cur)
    && if IsScaleIn(pre, cur) then Within(cur, pre)
       else if IsScaleOut(pre, cur) then Within(pre, cur)
       else SameEntries(pre, cur, net)
  }

  lemma UpdateIsFollowed(pre: Cluster, cur: Cluster, net: Network)
    requires AddressesDistinct(pre, net) && AddressesDistinct(cur, net) && PureUpdate(pre, cur, net)
    ensures Patched(pre, cur, net, Deployed(pre, net)) == Deployed(cur, net)
  {
    if IsScale(pre, cur) {
      AcceptedScaleCorrectIff(pre, cur, net);
    } else {
      EqualSizeCorrectIff(pre, cur, net);
    }
  }

  // ---- Replacements ----------------------------------------------------------------------

  function Plain(host: string): Server {
    Server(host, 0, 0, "", "")
  }

  function OnlyTiKV(tikv: seq<Server>): Cluster {
    Cluster([], [], tikv, "v5", "")
  }

  function Example(itoa: Itoa): Network {
    Network(map["n1" := "1", "n2" := "2", "n3" := "3", "n4" := "4"], itoa)
  }

  lemma PlainIds(itoa: Itoa, a: string, b: string)
    requires |a| == |b| && EntryID(itoa, TiKV, Plain(a)) == EntryID(itoa, TiKV, Plain(b))
    ensures a == b
  {
    assert EntryID(itoa, TiKV, Plain(a))[..|a|] == a && EntryID(itoa, TiKV, Plain(b))[..|b|] == b;
  }

  lemma PlainImmutable(itoa: Itoa, pre: seq<string>, cur: seq<string>)
    requires forall h :: h in pre || h in cur ==> |h| == 2
    ensures Immutable(itoa, OnlyTiKV(Plains(pre)), OnlyTiKV(Plains(cur)))
  {
    var p', c' := OnlyTiKV(Plains(pre)), OnlyTiKV(Plains(cur));
    forall kind: Kind, p, c | p in Part(p', kind) && c in Part(c', kind) ensures !Clash(itoa, kind, p, c) {
      var i :| 0 <= i < |pre| && Plains(pre)[i] == p;
      var j :| 0 <= j < |cur| && Plains(cur)[j] == c;
      if EntryID(itoa, TiKV, p) == EntryID(itoa, TiKV, c) { PlainIds(itoa, pre[i], cur[j]); }
    }
  }

  function Plains(hosts: seq<string>): seq<Server> {
    seq(|hosts|, i requires 0 <= i < |hosts| => Plain(hosts[i]))
  }

  /** The webhook lets (n1, n2, n3) become (n1, n4); the patch then drops n2 and n3 and never adds n4. */
  lemma ReplacementWhileShrinking(itoa: Itoa) returns (pre: Cluster, cur: Cluster)
    ensures Accepted(itoa, pre, cur) && IsScaleIn(pre, cur)
    ensures exists n :: n in Deployed(cur, Example(itoa)) && n !in Patched(pre, cur, Example(itoa), Deployed(pre, Example(itoa)))
  {
    pre, cur := OnlyTiKV(Plains(["n1", "n2", "n3"])), OnlyTiKV(Plains(["n1", "n4"]));
    PlainImmutable(itoa, ["n1", "n2", "n3"], ["n1", "n4"]);
    var missing := Node(TiKV, NodeOf(TiKV, Plain("n4"), Example(itoa)));
    assert cur.tikv[1] == Plain("n4") && Plain("n4") in Part(cur, TiKV);
    assert missing in Deployed(cur, Example(itoa));
    NotDeployed(itoa, ["n1", "n2", "n3"]);
  }

  /** With the sizes equal it accepts (n1, n2, n3) to (n1, n2, n4), and nothing is patched at all. */
  lemma ReplacementAtEqualSize(itoa: Itoa) returns (pre: Cluster, cur: Cluster)
    ensures Accepted(itoa, pre, cur) && !IsScale(pre, cur)
    ensures Patched(pre, cur, Example(itoa), Deployed(pre, Example(itoa))) == Deployed(pre, Example(itoa)) != Deployed(cur, Example(itoa))
  {
    pre, cur := OnlyTiKV(Plains(["n1", "n2", "n3"])), OnlyTiKV(Plains(["n1", "n2", "n4"]));
    PlainImmutable(itoa, ["n1", "n2", "n3"], ["n1", "n2", "n4"]);
    assert pre.tikv[0].host == cur.tikv[0].host;
    assert OneDirection(pre, cur);
    assert cur.tikv[2] == Plain("n4") && Plain("n4") in Part(cur, TiKV);
    assert Node(TiKV, NodeOf(TiKV, Plain("n4"), Example(itoa))) in Deployed(cur, Example(itoa));
    NotDeployed(itoa, ["n1", "n2", "n3"]);
  }

  lemma NotDeployed(itoa: Itoa, hosts: seq<string>)
    requires forall h :: h in hosts ==> h in ["n1", "n2", "n3"]
    ensures Node(TiKV, NodeOf(TiKV, Plain("n4"), Example(itoa))) !in Deployed(OnlyTiKV(Plains(hosts)), Example(itoa))
  {
    forall s | s in Plains(hosts) ensures NodeOf(TiKV, s, Example(itoa)).host != "4" {
      var i :| 0 <= i < |hosts| && s == Plain(hosts[i]);
      assert hosts[i] in ["n1", "n2", "n3"];
      assert "1"[0] != "4"[0] && "2"[0] != "4"[0] && "3"[0] != "4"[0];
    }
  }
}
