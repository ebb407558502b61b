/**
 * What a provisioning run does, stated about the specification of the run,
 * Provisioned(n, dirs, o), which the Provision method is proved to follow.
 */
module NodeProperties {
  import opened Errors
  import opened ClusterTypes
  import opened Pipeline
  import opened Cluster

  // ---------------------------------------------------------------- vocabulary

  /** Marshal, NewHost, Create and AddClusterHostsMapping all returned nil. */
  predicate MandatoryOk(o: Collaborators)
  {
    o.marshal.None? && o.newHost.None? && o.create.None? && o.hostsMapping.None?
  }

  /** The Swarm standalone block cannot fail unless Weave networking is on and a Weave call fails. */
  predicate StandaloneOk(n: Node, o: Collaborators)
  {
    n.clusterConfig.swarmStandalone.None? || !n.clusterConfig.weaveNetworkingEnabled ||
    (o.weaveNet.None? && o.weaveDiscovery.None?)
  }

  /** The position of each kind of call in the order provisioning makes them. */
  function Stage(c: Call): (stage: nat)
  {
    match c
    case Marshal(_) => 0
    case NewHost(_, _) => 1
    case Create(_) => 2
    case AddClusterHostsMapping(_) => 3
    case StartClusterStorage(_) => 4
    case RunWeaveNet => 5
    case RunWeaveDiscovery(_) => 6
    case IsSwarmModeClusterInitialized => 7
    case InitSwarmModeCluster => 8
    case JoinSwarmModeCluster(_) => 8
  }

  /** The calls come in strictly increasing stage order (so no kind of call is made twice). */
  predicate Ordered(calls: seq<Call>)
  {
    forall i, j :: 0 <= i < j < |calls| ==> Stage(calls[i]) < Stage(calls[j])
  }

  /** Every call's stage lies in [lo, hi). */
  predicate Within(calls: seq<Call>, lo: nat, hi: nat)
  {
    forall i :: 0 <= i < |calls| ==> lo <= Stage(calls[i]) < hi
  }

  lemma {:induction false} OrderedConcat(a: seq<Call>, b: seq<Call>, lo: nat, mid: nat, hi: nat)
    requires lo <= mid <= hi
    requires Ordered(a) && Within(a, lo, mid)
    requires Ordered(b) && Within(b, mid, hi)
    ensures Ordered(a + b) && Within(a + b, lo, hi)
  {
    var ab := a + b;
    forall i | 0 <= i < |ab| ensures lo <= Stage(ab[i]) < hi {
      if i < |a| { assert ab[i] == a[i]; } else { assert ab[i] == b[i - |a|]; }
    }
    forall i, j | 0 <= i < j < |ab| ensures Stage(ab[i]) < Stage(ab[j]) {
      if j < |a| {
        assert ab[i] == a[i] && ab[j] == a[j];
      } else if i < |a| {
        assert ab[i] == a[i] && ab[j] == b[j - |a|];
      } else {
        assert ab[i] == b[i - |a|] && ab[j] == b[j - |a|];
      }
    }
  }

  /** A run never makes a call whose stage lies outside the stages of its plan. */
  lemma NotMadeOutside(plan: seq<Call>, o: Collaborators, c: Call, lo: nat, hi: nat)
    requires Within(plan, lo, hi) && !(lo <= Stage(c) < hi)
    ensures c !in FailFast(plan, o).trace
  {
    MadeOnlyPlanned(plan, o, c);
  }

  // ---------------------------------------------------------------- the three blocks

  /** The mandatory block makes only stage 0-3 calls, in order, and succeeds iff all four calls do. */
  lemma MandatoryBlock(n: Node, dirs: MachineDirs, o: Collaborators)
    requires ClusterStoreConfigured(n.clusterConfig)
    ensures var m := MandatorySteps(n, dirs, o.hostDefaults);
      Ordered(m) && Within(m, 0, 4) && (AllSucceed(m, o) <==> MandatoryOk(o))
  {
    var m := MandatorySteps(n, dirs, o.hostDefaults);
    assert |m| == 4;
    assert Outcome(m[0], o) == o.marshal && Outcome(m[1], o) == o.newHost;
    assert Outcome(m[2], o) == o.create && Outcome(m[3], o) == o.hostsMapping;
  }

  /** Zookeeper storage, started on masters that use it, with the master list; it has no outcome. */
  lemma StorageBlock(n: Node, o: Collaborators, masters: seq<string>)
    ensures var st := StorageSteps(n);
      && Ordered(st) && Within(st, 4, 5)
      && AllSucceed(st, o) && FailFast(st, o).trace == st
      && (StartClusterStorage(masters) in st <==>
            IsMaster(n) && n.clusterConfig.useZookeeperClusterStorage &&
            masters == n.clusterConfig.swarmMasterNode)
  {
  }

  /** Weave Net when Weave networking is on, then Weave Discovery with the endpoint, only after Weave Net returned nil. */
  lemma WeaveBlock(n: Node, standalone: SwarmStandaloneConfig, o: Collaborators, discovery: string)
    ensures var w := WeaveSteps(n, standalone);
            var r := FailFast(w, o);
      && Ordered(w) && Within(w, 5, 7)
      && (AllSucceed(w, o) <==>
            !n.clusterConfig.weaveNetworkingEnabled || (o.weaveNet.None? && o.weaveDiscovery.None?))
      && (RunWeaveNet in r.trace <==> n.clusterConfig.weaveNetworkingEnabled)
      && (RunWeaveDiscovery(discovery) in r.trace <==>
            n.clusterConfig.weaveNetworkingEnabled && o.weaveNet.None? && discovery == standalone.discovery)
  {
    if n.clusterConfig.weaveNetworkingEnabled {
      var w := WeaveSteps(n, standalone);
      var d := standalone.discovery;
      assert w == [RunWeaveNet] + [RunWeaveDiscovery(d)];
      Sequence([RunWeaveNet], [RunWeaveDiscovery(d)], o);
      assert FailFast([RunWeaveNet], o) == Run([RunWeaveNet], o.weaveNet);
      assert FailFast([RunWeaveDiscovery(d)], o) == Run([RunWeaveDiscovery(d)], o.weaveDiscovery);
      assert Outcome(w[0], o) == o.weaveNet && Outcome(w[1], o) == o.weaveDiscovery;
    }
  }

  /**
   * The Swarm standalone block: storage, then Weave.  Storage has no outcome,
   * so the block fails only on a Weave call.
   */
  lemma StandaloneBlock(n: Node, o: Collaborators, masters: seq<string>, discovery: string)
    ensures var s := StandaloneSteps(n);
            var r := FailFast(s, o);
            var on := n.clusterConfig.swarmStandalone.Some?;
      && Ordered(s) && Within(s, 4, 7)
      && (AllSucceed(s, o) <==> StandaloneOk(n, o))
      && (StartClusterStorage(masters) in r.trace <==>
            on && IsMaster(n) && n.clusterConfig.useZookeeperClusterStorage &&
            masters == n.clusterConfig.swarmMasterNode)
      && (RunWeaveNet in r.trace <==> on && n.clusterConfig.weaveNetworkingEnabled)
      && (RunWeaveDiscovery(discovery) in r.trace <==>
            on && n.clusterConfig.weaveNetworkingEnabled && o.weaveNet.None? &&
            discovery == n.clusterConfig.swarmStandalone.value.discovery)
  {
    if n.clusterConfig.swarmStandalone.Some? {
      var st := StorageSteps(n);
      var w := WeaveSteps(n, n.clusterConfig.swarmStandalone.value);
      assert StandaloneSteps(n) == st + w;
      StorageBlock(n, o, masters);
      WeaveBlock(n, n.clusterConfig.swarmStandalone.value, o, discovery);
      OrderedConcat(st, w, 4, 5, 7);
      AllSucceedConcat(st, w, o);
      MadeInSequence(st, w, o, StartClusterStorage(masters));
      MadeInSequence(st, w, o, RunWeaveNet);
      MadeInSequence(st, w, o, RunWeaveDiscovery(discovery));
      NotMadeOutside(w, o, StartClusterStorage(masters), 5, 7);
      NotMadeOutside(st, o, RunWeaveNet, 4, 5);
      NotMadeOutside(st, o, RunWeaveDiscovery(discovery), 4, 5);
    }
  }

  /** All of `a + b` succeeded iff all of `a` and all of `b` did. */
  lemma AllSucceedConcat(a: seq<Call>, b: seq<Call>, o: Collaborators)
    ensures AllSucceed(a + b, o) <==> AllSucceed(a, o) && AllSucceed(b, o)
  {
    var ab := a + b;
    if AllSucceed(ab, o) {
      forall i | 0 <= i < |a| ensures Outcome(a[i], o).None? { assert ab[i] == a[i]; }
      forall i | 0 <= i < |b| ensures Outcome(b[i], o).None? { assert ab[|a| + i] == b[i]; }
    }
    if AllSucceed(a, o) && AllSucceed(b, o) {
      forall i | 0 <= i < |ab| ensures Outcome(ab[i], o).None? {
        if i < |a| { assert ab[i] == a[i]; } else { assert ab[i] == b[i - |a|]; }
      }
    }
  }

  /**
   * The Swarm mode block: the initialization query, then exactly one of
   * InitSwarmModeCluster (when nobody has initialized the cluster yet) and
   * JoinSwarmModeCluster (otherwise), the latter told whether the node is a master.
   */
  lemma SwarmModeBlock(n: Node, o: Collaborators, manager: bool)
    ensures var w := SwarmModeSteps(n, o.clusterInitialized);
            var r := FailFast(w, o);
      && Ordered(w) && Within(w, 7, 9)
      && (IsSwarmModeClusterInitialized in r.trace <==> n.clusterConfig.swarmMode.Some?)
      && (InitSwarmModeCluster in r.trace <==>
            n.clusterConfig.swarmMode.Some? && !o.clusterInitialized)
      && (JoinSwarmModeCluster(manager) in r.trace <==>
            n.clusterConfig.swarmMode.Some? && o.clusterInitialized && manager == IsMaster(n))
  {
    if n.clusterConfig.swarmMode.Some? {
      var w := SwarmModeSteps(n, o.clusterInitialized);
      var second := if o.clusterInitialized then JoinSwarmModeCluster(IsMaster(n)) else InitSwarmModeCluster;
      assert w == [IsSwarmModeClusterInitialized] + [second];
      Sequence([IsSwarmModeClusterInitialized], [second], o);
      assert FailFast([second], o).trace == [second];
    }
  }

  // ---------------------------------------------------------------- the whole run

  /** A call made by provisioning was made by one of the three blocks, each reached only when the blocks before it succeeded. */
  lemma {:induction false} MadeBy(n: Node, dirs: MachineDirs, o: Collaborators, c: Call)
    requires ClusterStoreConfigured(n.clusterConfig)
    ensures var m := MandatorySteps(n, dirs, o.hostDefaults);
            var s := StandaloneSteps(n);
            var w := SwarmModeSteps(n, o.clusterInitialized);
      c in Provisioned(n, dirs, o).trace <==>
        c in FailFast(m, o).trace ||
        (MandatoryOk(o) && (c in FailFast(s, o).trace || (StandaloneOk(n, o) && c in FailFast(w, o).trace)))
  {
    var m := MandatorySteps(n, dirs, o.hostDefaults);
    var s := StandaloneSteps(n);
    var w := SwarmModeSteps(n, o.clusterInitialized);
    MadeInSequence(m, s + w, o, c);
    MadeInSequence(s, w, o, c);
    MandatoryBlock(n, dirs, o);
    StandaloneBlock(n, o, [], "");
  }

  /** The plan lists the calls in stage order. */
  lemma PlanOrdered(n: Node, dirs: MachineDirs, o: Collaborators)
    requires ClusterStoreConfigured(n.clusterConfig)
    ensures Ordered(Plan(n, dirs, o)) && Within(Plan(n, dirs, o), 0, 9)
  {
    var m := MandatorySteps(n, dirs, o.hostDefaults);
    var s := StandaloneSteps(n);
    var w := SwarmModeSteps(n, o.clusterInitialized);
    MandatoryBlock(n, dirs, o);
    StandaloneBlock(n, o, [], "");
    SwarmModeBlock(n, o, false);
    OrderedConcat(s, w, 4, 7, 9);
    OrderedConcat(m, s + w, 0, 4, 9);
  }

  /**
   * Provisioning fails fast: its calls are a prefix of the plan, in stage
   * order; every call but the last returned nil; the run returns nil iff
   * every planned call did, and otherwise returns the error of the last call
   * it made.
   */
  lemma {:induction false} ProvisionFailsFast(n: Node, dirs: MachineDirs, o: Collaborators)
    requires ClusterStoreConfigured(n.clusterConfig)
    ensures var r := Provisioned(n, dirs, o);
            var plan := Plan(n, dirs, o);
      && |r.trace| <= |plan| && r.trace == plan[..|r.trace|]
      && Ordered(r.trace)
      && (forall k :: 0 <= k < |r.trace| - 1 ==> Outcome(r.trace[k], o).None?)
      && (r.err.None? <==> AllSucceed(plan, o))
      && (r.err.None? ==> r.trace == plan)
      && (r.err.Some? ==> r.trace != [] && Outcome(r.trace[|r.trace| - 1], o) == r.err)
  {
    var plan := Plan(n, dirs, o);
    PlanOrdered(n, dirs, o);
    StopsAtFirstError(plan, o);
    var r := FailFast(plan, o);
    forall i, j | 0 <= i < j < |r.trace| ensures Stage(r.trace[i]) < Stage(r.trace[j]) {
      assert r.trace[i] == plan[i] && r.trace[j] == plan[j];
    }
  }

  /** Every run starts with the mandatory calls, Marshal first, for as long as they succeed. */
  lemma {:induction false} MandatoryFirst(n: Node, dirs: MachineDirs, o: Collaborators)
    requires ClusterStoreConfigured(n.clusterConfig)
    ensures var r := Provisioned(n, dirs, o);
      && r.trace != [] && r.trace[0] == Marshal(G5kDriver(n, dirs))
      && (forall k :: 0 <= k < |r.trace| && k < 4 ==> r.trace[k] == MandatorySteps(n, dirs, o.hostDefaults)[k])
  {
    var plan := Plan(n, dirs, o);
    var m := MandatorySteps(n, dirs, o.hostDefaults);
    StopsAtFirstError(plan, o);
    Reached(plan, o, 0);
    var r := FailFast(plan, o);
    forall k | 0 <= k < |r.trace| && k < 4 ensures r.trace[k] == m[k] {
      assert r.trace[k] == plan[k];
    }
  }

  /**
   * The Create call is made iff Marshal and NewHost returned nil, and it
   * carries the decorated host options: the node's engine flags followed by
   * the two cluster-store flags exactly when Zookeeper cluster storage is on,
   * the node's labels, the install URL, the credentials layout, and the Swarm
   * standalone node options iff that mode is on (the defaults otherwise).
   */
  lemma {:induction false} CreateOptions(n: Node, dirs: MachineDirs, o: Collaborators)
    requires ClusterStoreConfigured(n.clusterConfig)
    ensures var r := Provisioned(n, dirs, o);
            var cfg := n.clusterConfig;
      && (2 < |r.trace| <==> o.marshal.None? && o.newHost.None?)
      && (2 < |r.trace| ==>
            r.trace[2].Create? &&
            var opts := r.trace[2].options;
            var flags := opts.engine.arbitraryFlags;
            && (cfg.useZookeeperClusterStorage ==>
                  flags == n.engineOpt +
                    ["cluster-advertise=eth0:2379", "cluster-store=" + cfg.swarmStandalone.value.discovery])
            && (!cfg.useZookeeperClusterStorage ==> flags == n.engineOpt)
            && opts.engine.labels == n.engineLabel
            && opts.engine.installURL == cfg.engineInstallURL
            && opts.auth == CreateHostAuthOptions(n, dirs)
            && (cfg.swarmStandalone.Some? ==>
                  opts.swarm == NodeConfig(cfg.swarmStandalone.value, n.nodeName, IsMaster(n), true))
            && (cfg.swarmStandalone.None? ==> opts.swarm == o.hostDefaults.swarm))
  {
    var plan := Plan(n, dirs, o);
    var m := MandatorySteps(n, dirs, o.hostDefaults);
    assert plan[..2] == [m[0], m[1]];
    assert Outcome(m[0], o) == o.marshal && Outcome(m[1], o) == o.newHost;
    Reached(plan, o, 2);
    assert plan[2] == Create(DecoratedOptions(n, dirs, o.hostDefaults));
  }

  /** Zookeeper cluster storage is started, with the master list, iff the node is a Swarm standalone master using it and the mandatory calls succeeded. */
  lemma ClusterStorageStarted(n: Node, dirs: MachineDirs, o: Collaborators, masters: seq<string>)
    requires ClusterStoreConfigured(n.clusterConfig)
    ensures StartClusterStorage(masters) in Provisioned(n, dirs, o).trace <==>
              MandatoryOk(o) && n.clusterConfig.swarmStandalone.Some? && IsMaster(n) &&
              n.clusterConfig.useZookeeperClusterStorage && masters == n.clusterConfig.swarmMasterNode
  {
    var c := StartClusterStorage(masters);
    MadeBy(n, dirs, o, c);
    MandatoryBlock(n, dirs, o);
    NotMadeOutside(MandatorySteps(n, dirs, o.hostDefaults), o, c, 0, 4);
    StandaloneBlock(n, o, masters, "");
    SwarmModeBlock(n, o, false);
    NotMadeOutside(SwarmModeSteps(n, o.clusterInitialized), o, c, 7, 9);
  }

  /**
   * Weave Net runs iff Swarm standalone and Weave networking are on and the
   * mandatory calls succeeded; Weave Discovery runs, with the discovery
   * endpoint, iff moreover Weave Net returned nil.
   */
  lemma WeaveStarted(n: Node, dirs: MachineDirs, o: Collaborators, discovery: string)
    requires ClusterStoreConfigured(n.clusterConfig)
    ensures var r := Provisioned(n, dirs, o);
            var cfg := n.clusterConfig;
      && (RunWeaveNet in r.trace <==>
            MandatoryOk(o) && cfg.swarmStandalone.Some? && cfg.weaveNetworkingEnabled)
      && (RunWeaveDiscovery(discovery) in r.trace <==>
            MandatoryOk(o) && cfg.swarmStandalone.Some? && cfg.weaveNetworkingEnabled &&
            o.weaveNet.None? && discovery == cfg.swarmStandalone.value.discovery)
  {
    var m := MandatorySteps(n, dirs, o.hostDefaults);
    var w := SwarmModeSteps(n, o.clusterInitialized);
    MadeBy(n, dirs, o, RunWeaveNet);
    MadeBy(n, dirs, o, RunWeaveDiscovery(discovery));
    MandatoryBlock(n, dirs, o);
    NotMadeOutside(m, o, RunWeaveNet, 0, 4);
    NotMadeOutside(m, o, RunWeaveDiscovery(discovery), 0, 4);
    StandaloneBlock(n, o, [], discovery);
    SwarmModeBlock(n, o, false);
    NotMadeOutside(w, o, RunWeaveNet, 7, 9);
    NotMadeOutside(w, o, RunWeaveDiscovery(discovery), 7, 9);
  }

  /**
   * Swarm mode is reached when it is on, the mandatory calls succeeded and
   * the Swarm standalone block (when also on) succeeded; then the node
   * initializes the cluster iff nobody has yet, and otherwise joins it, as a
   * manager iff it is a master.
   */
  lemma SwarmModeJoinedOrInitialized(n: Node, dirs: MachineDirs, o: Collaborators, manager: bool)
    requires ClusterStoreConfigured(n.clusterConfig)
    ensures var r := Provisioned(n, dirs, o);
            var reached := MandatoryOk(o) && StandaloneOk(n, o) && n.clusterConfig.swarmMode.Some?;
      && (IsSwarmModeClusterInitialized in r.trace <==> reached)
      && (InitSwarmModeCluster in r.trace <==> reached && !o.clusterInitialized)
      && (JoinSwarmModeCluster(manager) in r.trace <==>
            reached && o.clusterInitialized && manager == IsMaster(n))
  {
    var m := MandatorySteps(n, dirs, o.hostDefaults);
    var s := StandaloneSteps(n);
    MandatoryBlock(n, dirs, o);
    StandaloneBlock(n, o, [], "");
    SwarmModeBlock(n, o, manager);
    MadeBy(n, dirs, o, IsSwarmModeClusterInitialized);
    MadeBy(n, dirs, o, InitSwarmModeCluster);
    MadeBy(n, dirs, o, JoinSwarmModeCluster(manager));
    NotMadeOutside(m, o, IsSwarmModeClusterInitialized, 0, 4);
    NotMadeOutside(m, o, InitSwarmModeCluster, 0, 4);
    NotMadeOutside(m, o, JoinSwarmModeCluster(manager), 0, 4);
    NotMadeOutside(s, o, IsSwarmModeClusterInitialized, 4, 7);
    NotMadeOutside(s, o, InitSwarmModeCluster, 4, 7);
    NotMadeOutside(s, o, JoinSwarmModeCluster(manager), 4, 7);
  }

  /** In Swarm mode at most one of InitSwarmModeCluster and JoinSwarmModeCluster is made. */
  lemma {:induction false} NeverBothInitAndJoin(n: Node, dirs: MachineDirs, o: Collaborators, manager: bool)
    requires ClusterStoreConfigured(n.clusterConfig)
    ensures !(InitSwarmModeCluster in Provisioned(n, dirs, o).trace &&
              JoinSwarmModeCluster(manager) in Provisioned(n, dirs, o).trace)
  {
    SwarmModeJoinedOrInitialized(n, dirs, o, manager);
  }

  // ---------------------------------------------------------------- two whole runs

  /**
   * A Swarm standalone master using Zookeeper storage and Weave networking,
   * all of whose calls return nil, makes in order: Marshal, NewHost, Create
   * (with the cluster-store flags), AddClusterHostsMapping, StartClusterStorage
   * with the master list, Weave Net, and Weave Discovery with the endpoint.
   */
  lemma {:induction false} StandaloneMasterRun(n: Node, dirs: MachineDirs, o: Collaborators)
    requires n.clusterConfig.swarmStandalone.Some? && n.clusterConfig.swarmMode.None?
    requires n.clusterConfig.useZookeeperClusterStorage && n.clusterConfig.weaveNetworkingEnabled
    requires IsMaster(n)
    requires MandatoryOk(o) && o.weaveNet.None? && o.weaveDiscovery.None?
    ensures var cfg := n.clusterConfig;
            var driver := G5kDriver(n, dirs);
            var opts := DecoratedOptions(n, dirs, o.hostDefaults);
      && Provisioned(n, dirs, o) ==
           Run([ Marshal(driver), NewHost("g5k", driver), Create(opts),
                 AddClusterHostsMapping(cfg.hostsLookupTable),
                 StartClusterStorage(cfg.swarmMasterNode),
                 RunWeaveNet, RunWeaveDiscovery(cfg.swarmStandalone.value.discovery) ],
               None)
      && opts.engine.arbitraryFlags ==
           n.engineOpt + ["cluster-advertise=eth0:2379", "cluster-store=" + cfg.swarmStandalone.value.discovery]
  {
    var m := MandatorySteps(n, dirs, o.hostDefaults);
    var s := StandaloneSteps(n);
    var w := SwarmModeSteps(n, o.clusterInitialized);
    MandatoryBlock(n, dirs, o);
    StandaloneBlock(n, o, [], "");
    assert w == [];
    assert s == [StartClusterStorage(n.clusterConfig.swarmMasterNode), RunWeaveNet,
                 RunWeaveDiscovery(n.clusterConfig.swarmStandalone.value.discovery)];
    assert Plan(n, dirs, o) == m + s;
    AllSucceedConcat(m, s, o);
  }

  /**
   * A worker in Swarm mode on an already initialized cluster, whose
   * mandatory calls return nil, asks whether the cluster is initialized and
   * joins it as a worker: it never initializes the cluster and never makes a
   * Swarm standalone call.
   */
  lemma {:induction false} SwarmModeWorkerRun(n: Node, dirs: MachineDirs, o: Collaborators)
    requires n.clusterConfig.swarmStandalone.None? && n.clusterConfig.swarmMode.Some?
    requires !n.clusterConfig.useZookeeperClusterStorage
    requires !IsMaster(n) && o.clusterInitialized
    requires MandatoryOk(o)
    ensures var r := Provisioned(n, dirs, o);
      && r == Run(MandatorySteps(n, dirs, o.hostDefaults) +
                  [IsSwarmModeClusterInitialized, JoinSwarmModeCluster(false)], o.swarmJoin)
      && InitSwarmModeCluster !in r.trace
  {
    var m := MandatorySteps(n, dirs, o.hostDefaults);
    var t := [IsSwarmModeClusterInitialized, JoinSwarmModeCluster(false)];
    assert Plan(n, dirs, o) == m + t by {
      assert StandaloneSteps(n) == [] && SwarmModeSteps(n, o.clusterInitialized) == t;
    }
    assert FailFast(m, o) == Run(m, None) by {
      MandatoryBlock(n, dirs, o);
    }
    assert FailFast(t, o) == Run(t, o.swarmJoin) by {
      assert t[0] == IsSwarmModeClusterInitialized && t[1..] == [JoinSwarmModeCluster(false)];
      assert FailFast([JoinSwarmModeCluster(false)], o) == Run([JoinSwarmModeCluster(false)], o.swarmJoin);
    }
    Sequence(m, t, o);
  }

  /** Such a worker makes no Swarm standalone call: no storage start, no Weave call. */
  lemma {:induction false} SwarmModeWorkerSkipsStandalone(n: Node, dirs: MachineDirs, o: Collaborators)
    requires n.clusterConfig.swarmStandalone.None? && n.clusterConfig.swarmMode.Some?
    requires !n.clusterConfig.useZookeeperClusterStorage
    requires !IsMaster(n) && o.clusterInitialized
    requires MandatoryOk(o)
    ensures forall c :: c in Provisioned(n, dirs, o).trace ==> !(4 <= Stage(c) < 7)
  {
    var m := MandatorySteps(n, dirs, o.hostDefaults);
    var t := [IsSwarmModeClusterInitialized, JoinSwarmModeCluster(false)];
    SwarmModeWorkerRun(n, dirs, o);
    MandatoryBlock(n, dirs, o);
    var trace := Provisioned(n, dirs, o).trace;
    assert trace == m + t;
    forall c | c in trace ensures !(4 <= Stage(c) < 7) {
      var i :| 0 <= i < |trace| && trace[i] == c;
      if i < |m| { assert c == m[i]; } else { assert c == t[i - |m|]; }
    }
  }
}
