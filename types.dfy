/**
 * The data the node bootstrap code of docker-g5k reads and writes: the
 * cluster-wide configuration, one node, the Grid'5000 driver descriptor, the
 * libmachine host options it decorates, the host handle itself, and the
 * calls it makes on its collaborators.
 */
module ClusterTypes {
  import opened Errors

  // ---------------------------------------------------------------- configuration

  /** Swarm standalone settings; only `Discovery` is read by the node code. */
  datatype SwarmStandaloneConfig = SwarmStandaloneConfig(discovery: string)

  /** Swarm mode settings; its state is only reached through its collaborator calls. */
  datatype SwarmModeConfig = SwarmModeConfig

  /** The shared cluster configuration each node refers to and never changes. */
  datatype GlobalConfig = GlobalConfig(
    g5kUsername: string,
    g5kPassword: string,
    g5kImage: string,
    g5kWalltime: string,
    sshKeyPair: string,
    engineInstallURL: string,
    swarmMasterNode: seq<string>,
    hostsLookupTable: map<string, string>,
    useZookeeperClusterStorage: bool,
    swarmStandalone: Option<SwarmStandaloneConfig>,  // nil when Swarm standalone is off
    swarmMode: Option<SwarmModeConfig>,              // nil when Swarm mode is off
    weaveNetworkingEnabled: bool)

  /** One cluster member, before it is provisioned. */
  datatype Node = Node(
    clusterConfig: GlobalConfig,
    nodeName: string,      // Grid'5000 node hostname
    machineName: string,   // Docker Machine name
    g5kSite: string,
    g5kJobID: int,
    engineOpt: seq<string>,
    engineLabel: seq<string>)

  /** The directories Docker Machine keeps its state in (base, certificates, machines). */
  datatype MachineDirs = MachineDirs(baseDir: string, certDir: string, machineDir: string)

  // ---------------------------------------------------------------- driver descriptor

  /** The fields of the Grid'5000 driver that provisioning sets before encoding it. */
  datatype Driver = Driver(
    g5kUsername: string,
    g5kPassword: string,
    g5kSite: string,
    g5kImage: string,
    g5kWalltime: string,
    g5kJobID: int,
    g5kHostToProvision: string,
    sshKeyPair: string,
    g5kSkipVpnChecks: bool,
    machineName: string,
    storePath: string)

  // ---------------------------------------------------------------- libmachine host options

  datatype EngineOptions = EngineOptions(
    arbitraryFlags: seq<string>,
    labels: seq<string>,
    installURL: string)

  datatype AuthOptions = AuthOptions(
    certDir: string,
    caCertPath: string,
    caPrivateKeyPath: string,
    clientCertPath: string,
    clientKeyPath: string,
    serverCertPath: string,
    serverKeyPath: string,
    storePath: string,
    serverCertSANs: Option<seq<string>>)  // None is a nil slice

  /**
   * Swarm options of a host: whatever libmachine put there, or the options
   * that the standalone configuration's CreateNodeConfig returns for the
   * recorded arguments (that function is not part of this model).
   */
  datatype SwarmOptions =
    | LibmachineDefault
    | NodeConfig(config: SwarmStandaloneConfig, nodeName: string, isMaster: bool, isNode: bool)

  datatype HostOptions = HostOptions(engine: EngineOptions, auth: AuthOptions, swarm: SwarmOptions)

  /** The host handle NewHost returns; provisioning decorates its options in place. */
  class Host {
    const driverName: string
    const rawDriver: Driver
    var engineOptions: EngineOptions
    var authOptions: AuthOptions
    var swarmOptions: SwarmOptions

    /** A host as NewHost returns it, holding libmachine's default options. */
    constructor (driverName: string, rawDriver: Driver, defaults: HostOptions)
      ensures this.driverName == driverName && this.rawDriver == rawDriver
      ensures Options() == defaults
    {
      this.driverName := driverName;
      this.rawDriver := rawDriver;
      engineOptions := defaults.engine;
      authOptions := defaults.auth;
      swarmOptions := defaults.swarm;
    }

    /** The host options as one value. */
    function Options(): (opts: HostOptions)
      reads this
    {
      HostOptions(engineOptions, authOptions, swarmOptions)
    }
  }

  // ---------------------------------------------------------------- collaborator calls

  /** One call provisioning makes, with the arguments that matter. */
  datatype Call =
    | Marshal(driver: Driver)
    | NewHost(driverName: string, driver: Driver)
    | Create(options: HostOptions)                    // the host's options when Create runs
    | AddClusterHostsMapping(table: map<string, string>)
    | StartClusterStorage(masters: seq<string>)
    | RunWeaveNet
    | RunWeaveDiscovery(discovery: string)
    | IsSwarmModeClusterInitialized
    | InitSwarmModeCluster
    | JoinSwarmModeCluster(isManager: bool)

  /**
   * What the collaborators answer on one run: the error (or nil) each
   * fallible call returns, the options NewHost fills in, and whether the
   * Swarm mode cluster already exists.
   */
  datatype Collaborators = Collaborators(
    marshal: Option<Error>,
    newHost: Option<Error>,
    hostDefaults: HostOptions,
    create: Option<Error>,
    hostsMapping: Option<Error>,
    weaveNet: Option<Error>,
    weaveDiscovery: Option<Error>,
    clusterInitialized: bool,
    swarmInit: Option<Error>,
    swarmJoin: Option<Error>)

  /** The error a call returns; calls without an error result always give None. */
  function Outcome(c: Call, o: Collaborators): (err: Option<Error>)
  {
    match c
    case Marshal(_) => o.marshal
    case NewHost(_, _) => o.newHost
    case Create(_) => o.create
    case AddClusterHostsMapping(_) => o.hostsMapping
    case StartClusterStorage(_) => None
    case RunWeaveNet => o.weaveNet
    case RunWeaveDiscovery(_) => o.weaveDiscovery
    case IsSwarmModeClusterInitialized => None
    case InitSwarmModeCluster => o.swarmInit
    case JoinSwarmModeCluster(_) => o.swarmJoin
  }
}
