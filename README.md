# docker-g5k node bootstrap, in Dafny

This project models how docker-g5k bootstraps one cluster node
(`libdockerg5k/cluster/node.go`). A `Node` belongs to a cluster
configuration. `Provision` builds the Grid'5000 driver descriptor for the node,
encodes it, and asks libmachine for a host. It then decorates the host's engine,
credentials and Swarm options, creates the machine and registers the cluster's
host table on it. After that come the post-creation blocks the configuration
asks for:

- **Swarm standalone:** Zookeeper cluster storage on masters that use it, then
  Weave Net and Weave Discovery.
- **Swarm mode:** initialise the cluster, or join it as a manager or a worker.

The first collaborator call that returns an error ends the run, and that error
is the result.

Layout:

- `errors.dfy` (`Errors`): Go's `nil`-or-error results as `Option<Error>`.
- `filepath.dfy` (`FilePath`): `Join`, `Dir` and `Base` on `/`-separated paths,
  with the law that `Dir` and `Base` undo `Join`.
- `types.dfy` (`ClusterTypes`): the records.
  - The cluster configuration, the node, the driver descriptor and libmachine's
    option records.
  - `Host`, a class whose option fields `Provision` updates in place.
  - `Call`, one event per collaborator call.
  - `Collaborators`, the answers the collaborators give on one run.
- `pipeline.dfy` (`Pipeline`): the fail-fast discipline. `FailFast(plan, o)`
  makes the planned calls in order and stops at the first one that returns an
  error. Laws cover prefixes, concatenation and which calls are reached.
- `node.dfy` (`Cluster`): the role check, the credentials layout and the
  decoration of the host options.
  - `Plan`: the calls a run makes when every call returns nil.
  - `Provisioned := FailFast(Plan, o)`: the run's specification.
  - The imperative `Provision` method, proved to produce exactly
    `Provisioned(n, dirs, o)`.
- `properties.dfy` (`NodeProperties`): what every run does, stated about
  `Provisioned`. It covers call order, the options at `Create`, when storage,
  Weave, init and join run, and two whole runs.

Collaborators are oracles. A `Collaborators` value fixes, for one run:

- the error or nil each fallible call returns;
- the default options of the host NewHost returns;
- whether the Swarm mode cluster is already initialised.

The Go calls become `Call` events in the run's trace.

## Model

| member | source | states |
|---|---|---|
| Cluster.IsSwarmMaster | libdockerg5k/cluster/node.go:48-56 | The node is a master iff some entry of the master list equals its Docker Machine name (not its node name); the result equals `IsMaster`. |
| Cluster.CreateHostAuthOptions | libdockerg5k/cluster/node.go:33-45 | The cert dir is the machine cert dir; no server certificate SANs (nil). |
| Cluster.AuthLayout | libdockerg5k/cluster/node.go:34-44 | ca.pem, ca-key.pem, cert.pem and key.pem are files of the cert dir. server.pem and server-key.pem are files of the store path. The store path is the machine dir entry named after the machine name, when that name has no separator. |
| FilePath.SplitJoin | libdockerg5k/cluster/node.go:36-42 | `Dir` and `Base` recover the directory and the name joined by `Join`, for a name without a separator. |
| ClusterTypes.Host.constructor | libdockerg5k/cluster/node.go:90 | A host from NewHost carries the driver name, the raw driver and libmachine's default options. |
| Cluster.G5kDriver | libdockerg5k/cluster/node.go:65-80 | The driver descriptor provisions the node's host name (`G5kHostToProvision = NodeName`) under its Docker Machine name, on the node's site and job, skips the VPN checks, and stores its files under the base directory. |
| Pipeline.IgnoredCallsNeverStop | libdockerg5k/cluster/node.go:124-159 | Starting Zookeeper storage (line 128, no error result) and the Swarm mode initialization query (line 148, a boolean) have no error, so a failed run never ends on either of them. |
| Cluster.Decorate | libdockerg5k/cluster/node.go:95-112 | The host's options become `DecoratedOptions` of its old options. Engine flags: the node's flags, followed by the two cluster-store flags with the discovery endpoint iff Zookeeper storage is on. Labels, install URL and the credentials layout are set. The standalone node options are set iff that mode is on; otherwise the old Swarm options are kept. |
| Cluster.NewDecoratedHost | libdockerg5k/cluster/node.go:83-112 | Marshal then NewHost fail fast. A fresh host with driver "g5k" and the node's descriptor exists iff both returned nil, and its options are then the decorated ones. |
| Cluster.RunSwarmStandalone | libdockerg5k/cluster/node.go:124-143 | Returns exactly the fail-fast run of the standalone block: storage on masters using Zookeeper, then Weave Net and Weave Discovery. |
| Cluster.RunSwarmMode | libdockerg5k/cluster/node.go:145-159 | Returns exactly the fail-fast run of the Swarm mode block: the initialisation query, then init or join (with the node's role). |
| Cluster.RunClusterBlocks | libdockerg5k/cluster/node.go:124-161 | Returns exactly the fail-fast run of the standalone block followed by the Swarm mode block; each block runs only when configured. |
| Cluster.Provision | libdockerg5k/cluster/node.go:59-162 | Calls and error equal `Provisioned(n, dirs, o)`. A host exists iff Marshal and NewHost returned nil; it is a fresh object with driver "g5k", the node's descriptor, and the decorated options, which are the options `Create` received; `Provision` itself writes no option after `Create`. |
| Pipeline.FailFast | libdockerg5k/cluster/node.go:84-161 | A run returns nil iff every planned call returned nil, and then it made every planned call. |
| Pipeline.StopsAtFirstError | libdockerg5k/cluster/node.go:84-161 | The calls made are a prefix of the plan, and all but the last returned nil. A failed run's error is the one its last call returned. |
| Pipeline.Reached | libdockerg5k/cluster/node.go:84-161 | The k-th planned call is made iff every call planned before it returned nil. |
| Pipeline.AllSucceedTail | libdockerg5k/cluster/node.go:84-161 | All calls returned nil iff the first did and all of the rest did. |
| Pipeline.ConcatSucceeded | libdockerg5k/cluster/node.go:84-161 | After a block whose calls all returned nil, the run goes on with the next block. |
| Pipeline.ConcatFailed | libdockerg5k/cluster/node.go:84-161 | After a block with a failing call, nothing later is made. |
| Pipeline.Continue | libdockerg5k/cluster/node.go:84-161 | A call that returns nil is made and the run continues with the rest. |
| Pipeline.Stop | libdockerg5k/cluster/node.go:84-161 | A call that returns an error is the last one made, and its error is the result. |
| Pipeline.Sequence | libdockerg5k/cluster/node.go:84-161 | Running two blocks: the first block's run if it failed, otherwise its calls followed by the second block's run. |
| Pipeline.SequenceAfter | libdockerg5k/cluster/node.go:84-161 | The same, after calls already made. |
| Pipeline.MadeInSequence | libdockerg5k/cluster/node.go:84-161 | A call is made by two blocks in sequence iff the first block made it, or the first block fully succeeded and the second made it. |
| Pipeline.MadeOnlyPlanned | libdockerg5k/cluster/node.go:84-161 | Only planned calls are made. |
| NodeProperties.MandatoryBlock | libdockerg5k/cluster/node.go:83-122 | Marshal, NewHost, Create and AddClusterHostsMapping come in that order, and all four succeed iff each returns nil. |
| NodeProperties.StorageBlock | libdockerg5k/cluster/node.go:126-129 | Storage is started, with the master list, iff the node is a master and Zookeeper storage is on. It never fails. |
| NodeProperties.WeaveBlock | libdockerg5k/cluster/node.go:131-142 | Weave Net runs iff Weave is on. Weave Discovery runs, with the standalone discovery endpoint, iff moreover Weave Net returned nil. |
| NodeProperties.StandaloneBlock | libdockerg5k/cluster/node.go:124-143 | The standalone block makes storage, Weave Net and Discovery under exactly those conditions, only when standalone is configured, and fails only on a Weave call. |
| NodeProperties.SwarmModeBlock | libdockerg5k/cluster/node.go:145-159 | With Swarm mode on: the query is made, Init iff not initialised, Join(b) iff initialised with b = the node is a master. None of them when Swarm mode is off. |
| NodeProperties.MadeBy | libdockerg5k/cluster/node.go:59-162 | A call of the run comes from the mandatory block; or from the standalone block once the mandatory calls succeeded; or from the Swarm mode block once both earlier blocks succeeded. |
| NodeProperties.PlanOrdered | libdockerg5k/cluster/node.go:59-162 | The plan lists the calls in stage order: Marshal, NewHost, Create, hosts mapping, storage, Weave Net, Weave Discovery, query, init/join. |
| NodeProperties.ProvisionFailsFast | libdockerg5k/cluster/node.go:59-162 | The run is a prefix of the plan, in stage order, so no call repeats. All calls but the last returned nil. The run returns nil iff every planned call did. Otherwise it returns the last call's error. |
| NodeProperties.MandatoryFirst | libdockerg5k/cluster/node.go:83-122 | Marshal of the node's descriptor is always the first call. The first calls of every run are the mandatory ones, in order. |
| NodeProperties.CreateOptions | libdockerg5k/cluster/node.go:95-117 | Create is made iff Marshal and NewHost returned nil. Its flags are exactly the node's flags followed by `cluster-advertise=eth0:2379` and `cluster-store=<discovery>` when Zookeeper storage is on, and exactly the node's flags when it is off. They also hold the labels, the install URL, the credentials layout, and the standalone node options iff standalone is on (the defaults otherwise). |
| NodeProperties.ClusterStorageStarted | libdockerg5k/cluster/node.go:124-129 | StartClusterStorage(m) is made iff the mandatory calls succeeded, standalone is on, the node is a master, Zookeeper storage is on, and m is the master list. |
| NodeProperties.WeaveStarted | libdockerg5k/cluster/node.go:124-143 | Weave Net is made iff the mandatory calls succeeded and standalone and Weave are on. Weave Discovery(d) is made iff moreover Weave Net returned nil and d is the discovery endpoint. |
| NodeProperties.SwarmModeJoinedOrInitialized | libdockerg5k/cluster/node.go:145-159 | Swarm mode is reached iff it is on and the mandatory calls and the standalone block (when on) succeeded. Init is made iff it is reached and the cluster is not initialised. Join(b) is made iff it is reached, the cluster is initialised, and b = the node is a master. |
| NodeProperties.NeverBothInitAndJoin | libdockerg5k/cluster/node.go:148-158 | A run never both initialises and joins the Swarm mode cluster. |
| NodeProperties.StandaloneMasterRun | libdockerg5k/cluster/node.go:59-162 | A standalone master with Zookeeper and Weave, all calls nil, makes exactly: Marshal, NewHost, Create (with the cluster-store flags), hosts mapping, storage with the master list, Weave Net, Weave Discovery; it returns nil. |
| NodeProperties.SwarmModeWorkerRun | libdockerg5k/cluster/node.go:145-159 | A worker in Swarm mode on an initialised cluster, with the mandatory calls nil, makes the mandatory calls, the query and Join(false), returns Join's error, and never calls Init. |
| NodeProperties.SwarmModeWorkerSkipsStandalone | libdockerg5k/cluster/node.go:124-143 | That worker makes no storage or Weave call. |

## Left out

- Cluster.Provision: the input where Zookeeper storage is on but no Swarm standalone configuration is present is excluded by `requires ClusterStoreConfigured(...)`. The Go code dereferences the nil configuration at node.go:111 there, and the panic is not modelled. `Decorate`, `NewDecoratedHost`, `Plan`, `Provisioned` and the lemmas about them carry the same precondition.
- Cluster.Provision: the collaborators receive the host handle by pointer (node.go:115, 120, 128, 134, 139, 150, 155), and the model assumes they do not modify it. The final options equal the options `Create` received only under that assumption; the model shows that `Provision` itself writes no option after `Create`.
- Cluster.Decorate: libmachine's `HostOptions` and `EngineOptions` have more fields than the model records (only flags, labels, install URL, credentials and Swarm options). Those other fields keep whatever NewHost gave them, so "nothing else changes" holds only for the fields the model has.
- Driver construction (`g5kdriver.NewDriver`, `GetSSHKeyPath`, node.go:65, 81): the descriptor records only the fields `Provision` copies. The SSH key path is computed by the driver package, which is not part of this model.
- The driver descriptor is built as one record value (`G5kDriver`), not field by field (node.go:68-80). It is a local value nothing else sees before it is encoded.
- JSON encoding of the descriptor (node.go:84): `Marshal` is a call whose error comes from the oracle. The encoded bytes are not modelled.
- libmachine, `hostsmapping`, `zookeeper`, `weave` and the Swarm mode configuration are not part of this model. Their calls appear as trace events, and their outcomes come from `Collaborators`.
- `CreateNodeConfig` belongs to the swarm package, which is not part of this model. `SwarmOptions.NodeConfig` records its arguments as an uninterpreted value.
- `mcndirs` directories: the base, cert and machine directories are parameters (`MachineDirs`), not values read from the environment.
- `filepath.Join` cleaning (collapsing repeated separators, dropping empty elements) is not modelled. `Join` concatenates with one `/`, and `Join(dir, name, file)` is written `Join(Join(dir, name), file)`.
- Whether the Swarm mode cluster is already initialised is an oracle bit. The check-then-act race between nodes provisioned concurrently is not modelled.
- Go slice sharing: `append` at node.go:111 may reuse the backing array of the node's `EngineOpt`. The model works on values, so that aliasing is not captured (it changes no element the node can see).
- Both post-creation blocks run when both modes are configured, as the code does. Nothing enforces the mutual exclusion of the two modes.
- The disabled logging calls (node.go:61-62) have no effect and are not modelled.
- The host handle returned by `Provision` exists only so that the decorated options can be stated. The Go function returns only the error.
- The libmachine client (node.go:90, 115) is replaced by the NewHost and Create answers in `Collaborators`. Configuration fields `Provision` does not read are not modelled.
