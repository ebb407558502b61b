/**
 * Bootstrap of one cluster node (libdockerg5k/cluster/node.go): its role,
 * the credentials layout handed to libmachine, and the fail-fast
 * provisioning pipeline that drives the node's collaborators.
 */
module Cluster {
  import opened Errors
  import opened FilePath
  import opened ClusterTypes
  import opened Pipeline

  // ---------------------------------------------------------------- role

  /** A node is a Swarm master when its Docker Machine name is a listed master. */
  predicate IsMaster(n: Node)
  {
    n.machineName in n.clusterConfig.swarmMasterNode
  }

  /** The search over the master list that decides the node's role. */
  method IsSwarmMaster(n: Node) returns (master: bool)
    ensures master <==> exists i :: 0 <= i < |n.clusterConfig.swarmMasterNode| &&
                                  n.clusterConfig.swarmMasterNode[i] == n.machineName
    ensures master == IsMaster(n)
  {
    var masters := n.clusterConfig.swarmMasterNode;
    var i := 0;
    while i < |masters|
      invariant 0 <= i <= |masters|
      invariant forall j :: 0 <= j < i ==> masters[j] != n.machineName
    {
      if masters[i] == n.machineName {
        return true;
      }
      i := i + 1;
    }
    return false;
  }

  // ---------------------------------------------------------------- credentials layout

  /**
   * Certificate paths for the host: the CA and client pairs in the shared
   * certificate directory, the server pair in the machine's own directory,
   * which is also its store path.
   */
  function CreateHostAuthOptions(n: Node, dirs: MachineDirs): (r: AuthOptions)
    ensures r.certDir == dirs.certDir
    ensures r.serverCertSANs == None
  {
    var machine := Join(dirs.machineDir, n.machineName);
    AuthOptions(
      certDir := dirs.certDir,
      caCertPath := Join(dirs.certDir, "ca.pem"),
      caPrivateKeyPath := Join(dirs.certDir, "ca-key.pem"),
      clientCertPath := Join(dirs.certDir, "cert.pem"),
      clientKeyPath := Join(dirs.certDir, "key.pem"),
      serverCertPath := Join(machine, "server.pem"),
      serverKeyPath := Join(machine, "server-key.pem"),
      storePath := machine,
      serverCertSANs := None)
  }

  /**
   * The credentials layout: the CA and client pairs are files of the shared
   * certificate directory, the server pair files of the store path, and the
   * store path is the machine's own directory, named after its machine name.
   */
  lemma AuthLayout(n: Node, dirs: MachineDirs)
    ensures var r := CreateHostAuthOptions(n, dirs);
      && Dir(r.caCertPath) == r.certDir && Base(r.caCertPath) == "ca.pem"
      && Dir(r.caPrivateKeyPath) == r.certDir && Base(r.caPrivateKeyPath) == "ca-key.pem"
      && Dir(r.clientCertPath) == r.certDir && Base(r.clientCertPath) == "cert.pem"
      && Dir(r.clientKeyPath) == r.certDir && Base(r.clientKeyPath) == "key.pem"
      && Dir(r.serverCertPath) == r.storePath && Base(r.serverCertPath) == "server.pem"
      && Dir(r.serverKeyPath) == r.storePath && Base(r.serverKeyPath) == "server-key.pem"
      && (Separator !in n.machineName ==>
            Dir(r.storePath) == dirs.machineDir && Base(r.storePath) == n.machineName)
  {
    var machine := Join(dirs.machineDir, n.machineName);
    SplitJoin(dirs.certDir, "ca.pem");
    SplitJoin(dirs.certDir, "ca-key.pem");
    SplitJoin(dirs.certDir, "cert.pem");
    SplitJoin(dirs.certDir, "key.pem");
    SplitJoin(machine, "server.pem");
    SplitJoin(machine, "server-key.pem");
    if Separator !in n.machineName {
      SplitJoin(dirs.machineDir, n.machineName);
    }
  }

  // ---------------------------------------------------------------- the plan

  /** The engine flags provisioning appends when Zookeeper cluster storage is on. */
  function ClusterStoreFlags(discovery: string): (flags: seq<string>)
  {
    ["cluster-advertise=eth0:2379", "cluster-store=" + discovery]
  }

  /** Zookeeper cluster storage reads the standalone discovery endpoint, so needs that config. */
  predicate ClusterStoreConfigured(cfg: GlobalConfig)
  {
    cfg.useZookeeperClusterStorage ==> cfg.swarmStandalone.Some?
  }

  /** The driver descriptor handed to libmachine. */
  function G5kDriver(n: Node, dirs: MachineDirs): (d: Driver)
    ensures d.g5kHostToProvision == n.nodeName && d.machineName == n.machineName
    ensures d.g5kSite == n.g5kSite && d.g5kJobID == n.g5kJobID
    ensures d.g5kSkipVpnChecks
    ensures d.storePath == dirs.baseDir
  {
    var cfg := n.clusterConfig;
    Driver(
      g5kUsername := cfg.g5kUsername,
      g5kPassword := cfg.g5kPassword,
      g5kSite := n.g5kSite,
      g5kImage := cfg.g5kImage,
      g5kWalltime := cfg.g5kWalltime,
      g5kJobID := n.g5kJobID,
      g5kHostToProvision := n.nodeName,
      sshKeyPair := cfg.sshKeyPair,
      g5kSkipVpnChecks := true,
      machineName := n.machineName,
      storePath := dirs.baseDir)
  }

  /** The host options once provisioning has decorated a host holding `defaults`. */
  function DecoratedOptions(n: Node, dirs: MachineDirs, defaults: HostOptions): (opts: HostOptions)
    requires ClusterStoreConfigured(n.clusterConfig)
  {
    var cfg := n.clusterConfig;
    var flags := n.engineOpt +
      if cfg.useZookeeperClusterStorage then ClusterStoreFlags(cfg.swarmStandalone.value.discovery) else [];
    HostOptions(
      EngineOptions(flags, n.engineLabel, cfg.engineInstallURL),
      CreateHostAuthOptions(n, dirs),
      if cfg.swarmStandalone.Some? then NodeConfig(cfg.swarmStandalone.value, n.nodeName, IsMaster(n), true)
      else defaults.swarm)
  }

  /** The four steps every node goes through. */
  function MandatorySteps(n: Node, dirs: MachineDirs, defaults: HostOptions): (steps: seq<Call>)
    requires ClusterStoreConfigured(n.clusterConfig)
  {
    HostSteps(n, dirs) +
    [ Create(DecoratedOptions(n, dirs, defaults)),
      AddClusterHostsMapping(n.clusterConfig.hostsLookupTable) ]
  }

  /** Encoding the driver descriptor, then asking libmachine for a host handle. */
  function HostSteps(n: Node, dirs: MachineDirs): (steps: seq<Call>)
  {
    var driver := G5kDriver(n, dirs);
    [Marshal(driver), NewHost("g5k", driver)]
  }

  /** Zookeeper cluster storage is started on masters when it is enabled. */
  function StorageSteps(n: Node): (steps: seq<Call>)
  {
    var cfg := n.clusterConfig;
    if IsMaster(n) && cfg.useZookeeperClusterStorage then [StartClusterStorage(cfg.swarmMasterNode)] else []
  }

  /** Weave Net and then Weave Discovery on the standalone discovery endpoint, when enabled. */
  function WeaveSteps(n: Node, standalone: SwarmStandaloneConfig): (steps: seq<Call>)
  {
    if n.clusterConfig.weaveNetworkingEnabled then [RunWeaveNet, RunWeaveDiscovery(standalone.discovery)] else []
  }

  /** Swarm standalone post-creation steps. */
  function StandaloneSteps(n: Node): (steps: seq<Call>)
  {
    match n.clusterConfig.swarmStandalone
    case None => []
    case Some(standalone) => StorageSteps(n) + WeaveSteps(n, standalone)
  }

  /** Swarm mode steps: ask whether the cluster exists, then initialise it or join it. */
  function SwarmModeSteps(n: Node, initialized: bool): (steps: seq<Call>)
  {
    if n.clusterConfig.swarmMode.None? then []
    else if !initialized then [IsSwarmModeClusterInitialized, InitSwarmModeCluster]
    else [IsSwarmModeClusterInitialized, JoinSwarmModeCluster(IsMaster(n))]
  }

  /** The calls provisioning makes when every fallible call returns nil. */
  function Plan(n: Node, dirs: MachineDirs, o: Collaborators): (plan: seq<Call>)
    requires ClusterStoreConfigured(n.clusterConfig)
  {
    MandatorySteps(n, dirs, o.hostDefaults) + (StandaloneSteps(n) + SwarmModeSteps(n, o.clusterInitialized))
  }

  /** The calls and the result of provisioning `n` against the collaborators `o`. */
  function Provisioned(n: Node, dirs: MachineDirs, o: Collaborators): (r: Run)
    requires ClusterStoreConfigured(n.clusterConfig)
  {
    FailFast(Plan(n, dirs, o), o)
  }

  // ---------------------------------------------------------------- provisioning

  /** The Swarm standalone block run after creation: Zookeeper on masters, then Weave. */
  method RunSwarmStandalone(n: Node, o: Collaborators) returns (err: Option<Error>, calls: seq<Call>)
    requires n.clusterConfig.swarmStandalone.Some?
    ensures Run(calls, err) == FailFast(StandaloneSteps(n), o)
  {
    var cfg := n.clusterConfig;
    var standalone := cfg.swarmStandalone.value;
    ghost var weaveSteps := WeaveSteps(n, standalone);
    // starting cluster storage reports no error, so it never stops the run
    Sequence(StorageSteps(n), weaveSteps, o);
    calls := [];
    var master := IsSwarmMaster(n);
    if master && cfg.useZookeeperClusterStorage {
      calls := calls + [StartClusterStorage(cfg.swarmMasterNode)];
    }
    assert FailFast(StandaloneSteps(n), o) == Run(calls + FailFast(weaveSteps, o).trace, FailFast(weaveSteps, o).err);
    if cfg.weaveNetworkingEnabled {
      var discovery := standalone.discovery;
      ghost var net := FailFast([RunWeaveNet], o);
      ghost var disc := FailFast([RunWeaveDiscovery(discovery)], o);
      assert net == Run([RunWeaveNet], o.weaveNet);
      assert disc == Run([RunWeaveDiscovery(discovery)], o.weaveDiscovery);
      assert weaveSteps == [RunWeaveNet] + [RunWeaveDiscovery(discovery)];
      Sequence([RunWeaveNet], [RunWeaveDiscovery(discovery)], o);
      calls := calls + [RunWeaveNet];
      if o.weaveNet.Some? {
        return o.weaveNet, calls;
      }
      calls := calls + [RunWeaveDiscovery(discovery)];
      if o.weaveDiscovery.Some? {
        return o.weaveDiscovery, calls;
      }
    } else {
      assert FailFast(weaveSteps, o) == Run([], None);
    }
    err := None;
  }

  /** The Swarm mode block: initialise the cluster if nobody has yet, otherwise join it. */
  method RunSwarmMode(n: Node, o: Collaborators) returns (err: Option<Error>, calls: seq<Call>)
    requires n.clusterConfig.swarmMode.Some?
    ensures Run(calls, err) == FailFast(SwarmModeSteps(n, o.clusterInitialized), o)
  {
    calls := [IsSwarmModeClusterInitialized];
    if !o.clusterInitialized {
      Sequence([IsSwarmModeClusterInitialized], [InitSwarmModeCluster], o);
      calls := calls + [InitSwarmModeCluster];
      err := o.swarmInit;
    } else {
      var master := IsSwarmMaster(n);
      Sequence([IsSwarmModeClusterInitialized], [JoinSwarmModeCluster(master)], o);
      calls := calls + [JoinSwarmModeCluster(master)];
      err := o.swarmJoin;
    }
  }

  /**
   * Decorate a fresh host before creation: the node's engine flags, labels and
   * the install URL, the credentials layout, the Swarm standalone options when
   * that mode is on, and the two cluster-store flags when Zookeeper storage is on.
   */
  method Decorate(h: Host, n: Node, dirs: MachineDirs)
    requires ClusterStoreConfigured(n.clusterConfig)
    modifies h
    ensures h.Options() == DecoratedOptions(n, dirs, old(h.Options()))
  {
    var cfg := n.clusterConfig;
    h.engineOptions := h.engineOptions.(arbitraryFlags := n.engineOpt);
    h.engineOptions := h.engineOptions.(labels := n.engineLabel);
    h.engineOptions := h.engineOptions.(installURL := cfg.engineInstallURL);
    h.authOptions := CreateHostAuthOptions(n, dirs);
    if cfg.swarmStandalone.Some? {
      var master := IsSwarmMaster(n);
      h.swarmOptions := NodeConfig(cfg.swarmStandalone.value, n.nodeName, master, true);
    }
    if cfg.useZookeeperClusterStorage {
      h.engineOptions := h.engineOptions.(arbitraryFlags :=
        h.engineOptions.arbitraryFlags + ClusterStoreFlags(cfg.swarmStandalone.value.discovery));
    }
  }

  /**
   * The first half of Provision: encode the driver descriptor, ask libmachine
   * for a host handle, and decorate the host's options before creation.
   */
  method NewDecoratedHost(n: Node, dirs: MachineDirs, o: Collaborators)
      returns (err: Option<Error>, h: Host?, trace: seq<Call>)
    requires ClusterStoreConfigured(n.clusterConfig)
    ensures Run(trace, err) == FailFast(HostSteps(n, dirs), o)
    ensures h != null <==> err.None?
    ensures err.None? <==> o.marshal.None? && o.newHost.None?
    ensures h != null ==> fresh(h)
    ensures h != null ==> h.driverName == "g5k" && h.rawDriver == G5kDriver(n, dirs)
    ensures h != null ==> h.Options() == DecoratedOptions(n, dirs, o.hostDefaults)
  {
    var driver := G5kDriver(n, dirs);
    assert HostSteps(n, dirs) == [Marshal(driver)] + [NewHost("g5k", driver)];
    Sequence([Marshal(driver)], [NewHost("g5k", driver)], o);
    h := null;
    trace := [Marshal(driver)];
    if o.marshal.Some? {
      return o.marshal, h, trace;
    }
    trace := trace + [NewHost("g5k", driver)];
    if o.newHost.Some? {
      return o.newHost, h, trace;
    }
    h := new Host("g5k", driver, o.hostDefaults);
    Decorate(h, n, dirs);
    err := None;
  }

  /**
   * Provision the node: encode the driver, get a host, decorate its options,
   * create it, register it in the hosts table, then run the Swarm standalone
   * and Swarm mode blocks its configuration asks for.  Returns the error of the
   * first collaborator call that failed (None for nil), the host handle once
   * NewHost has returned one, and the calls made.
   */
  method Provision(n: Node, dirs: MachineDirs, o: Collaborators)
      returns (err: Option<Error>, h: Host?, trace: seq<Call>)
    requires ClusterStoreConfigured(n.clusterConfig)
    ensures Run(trace, err) == Provisioned(n, dirs, o)
    ensures h != null <==> o.marshal.None? && o.newHost.None?
    ensures h != null ==> fresh(h)
    ensures h != null ==> h.driverName == "g5k" && h.rawDriver == G5kDriver(n, dirs)
    ensures h != null ==> h.Options() == DecoratedOptions(n, dirs, o.hostDefaults)
  {
    ghost var create := Create(DecoratedOptions(n, dirs, o.hostDefaults));
    ghost var mapping := AddClusterHostsMapping(n.clusterConfig.hostsLookupTable);
    ghost var tail := StandaloneSteps(n) + SwarmModeSteps(n, o.clusterInitialized);
    ghost var rest := [create] + ([mapping] + tail);
    assert Outcome(create, o) == o.create && Outcome(mapping, o) == o.hostsMapping;
    assert Plan(n, dirs, o) == HostSteps(n, dirs) + rest;
    SequenceAfter([], HostSteps(n, dirs), rest, o);
    err, h, trace := NewDecoratedHost(n, dirs, o);
    if err.Some? {
      assert [] + trace == trace;
      return;
    }
    assert FailFast(HostSteps(n, dirs), o) == Run(trace, None);
    assert [] + trace == trace;
    assert After([], FailFast(Plan(n, dirs, o), o)) == After(trace, FailFast(rest, o));
    assert Provisioned(n, dirs, o) == After(trace, FailFast(rest, o));

    // create the machine with the decorated options
    assert Create(h.Options()) == create;
    if o.create.Some? {
      Stop(trace, create, [mapping] + tail, o);
      return o.create, h, trace + [Create(h.Options())];
    }
    Continue(trace, create, [mapping] + tail, o);
    trace := trace + [Create(h.Options())];

    // register every cluster node in the host's lookup table
    if o.hostsMapping.Some? {
      Stop(trace, mapping, tail, o);
      return o.hostsMapping, h, trace + [AddClusterHostsMapping(n.clusterConfig.hostsLookupTable)];
    }
    Continue(trace, mapping, tail, o);
    trace := trace + [AddClusterHostsMapping(n.clusterConfig.hostsLookupTable)];
    var e, calls := RunClusterBlocks(n, o);
    return e, h, trace + calls;
  }

  /**
   * The post-creation part of Provision: the Swarm standalone block, then the
   * Swarm mode block, each run only when its configuration is present.
   */
  method RunClusterBlocks(n: Node, o: Collaborators) returns (err: Option<Error>, calls: seq<Call>)
    ensures Run(calls, err) == FailFast(StandaloneSteps(n) + SwarmModeSteps(n, o.clusterInitialized), o)
  {
    var cfg := n.clusterConfig;
    ghost var swarmSteps := SwarmModeSteps(n, o.clusterInitialized);
    SequenceAfter([], StandaloneSteps(n), swarmSteps, o);
    calls := [];

    // Swarm standalone (post-creation)
    if cfg.swarmStandalone.Some? {
      var e, done := RunSwarmStandalone(n, o);
      if e.Some? {
        assert [] + done == done;
        return e, done;
      }
      calls := done;
    } else {
      assert FailFast(StandaloneSteps(n), o) == Run([], None);
    }
    assert After([], FailFast(StandaloneSteps(n) + swarmSteps, o)) == After(calls, FailFast(swarmSteps, o));

    // Swarm mode
    if cfg.swarmMode.Some? {
      var e, done := RunSwarmMode(n, o);
      return e, calls + done;
    }
    assert FailFast(swarmSteps, o) == Run([], None);
    assert calls + [] == calls;
    err := None;
  }
}
