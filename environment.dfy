/**
 * The deployment context of a cluster (environment.py): the network, the
 * per-node-type settings, the resource pools and the environment that holds
 * them, and the construction of all of these from the stack configuration.
 */
module Environments {
  import opened Wrappers

  /** The size of the IPv4 address space. */
  const ADDRESS_SPACE: nat := 0x1_0000_0000

  /** An IPv4 address, as the integer `int(ipaddress.IPv4Address)` gives. */
  type IPv4 = n: nat | n < ADDRESS_SPACE

  datatype AddressError = AddressOutOfRange(value: int)

  /**
   * `IPv4Address + k`: the sum is an address again, or the library raises
   * (negative or above 255.255.255.255).
   */
  function AddToAddress(a: IPv4, k: int): (r: Result<IPv4, AddressError>)
    ensures r.Success? <==> 0 <= a + k < ADDRESS_SPACE
    ensures r.Success? ==> r.value as int - a as int == k
    ensures r.Failure? ==> r.error == AddressOutOfRange(a + k)
  {
    if 0 <= a + k < ADDRESS_SPACE then Success(a + k) else Failure(AddressOutOfRange(a + k))
  }

  /**
   * An IPv4 network such as 192.168.1.0/24, already parsed: its network
   * address and prefix. The prefix mirrors `IPv4Network` only: the source
   * never compares node addresses with the subnet's size, and neither does
   * the model.
   */
  datatype Subnet = Subnet(networkAddress: IPv4, prefixLength: nat)

  /** Network (environment.py:20-23). */
  datatype Network = Network(id: string, subnet: Subnet, dnsServers: seq<string>, domains: seq<string>)

  /** One piece of a node-name format string such as "k8s-{env}-master{index}". */
  datatype Piece = Literal(text: string) | IndexField | EnvField

  type NameTemplate = seq<Piece>

  /** NodeSettings (environment.py:42-45): one per node type. */
  datatype NodeSettings = NodeSettings(name: NameTemplate, networkOffset: int, cpus: int, memory: int)

  /** ResourcePool (environment.py:66-68). */
  datatype ResourcePool = ResourcePool(id: string, datastoreId: string, weight: int)

  /** A disk of the base image, with its declared size in GB. */
  datatype SourceDisk = SourceDisk(size: real, thinProvisioned: bool, eagerlyScrub: bool)

  /** The base image (a vSphere virtual machine looked up by name). */
  datatype VmTemplate = VmTemplate(id: string, guestId: string, disks: seq<SourceDisk>)

  datatype Datacenter = Datacenter(id: string)

  /**
   * Environment (environment.py:114-122). The pool list is an array: the
   * cluster sorts it in place, and every holder of the environment sees that.
   */
  datatype Environment = Environment(
    name: string,
    datacenter: Datacenter,
    domain: string,
    pools: array<ResourcePool>,
    network: Network,
    nodeTemplate: VmTemplate,
    masterConfig: NodeSettings,
    workerConfig: NodeSettings,
    vaultAddress: string)

  /**
   * The vSphere lookups environment.py performs, each as the value it yields:
   * `get_datacenter(name)`, `get_compute_cluster(dc, name).resource_pool_id`,
   * `get_host(dc, name).resource_pool_id`, `get_datastore(dc, name).id`,
   * `get_network(dc, name).id` and `get_virtual_machine(dc, name)`.
   */
  datatype VSphere = VSphere(
    datacenter: string -> Datacenter,
    computeClusterPool: (string, string) -> string,
    hostPool: (string, string) -> string,
    datastore: (string, string) -> string,
    network: (string, string) -> string,
    virtualMachine: (string, string) -> VmTemplate)

  /** The configuration entries (`config['pools'][x]`, `config['node'][t]`, `config['network']`, `config`). */
  datatype PoolConfig = PoolConfig(kind: string, name: string, datastore: string, weight: int)
  datatype NodeConfig = NodeConfig(name: NameTemplate, networkOffset: int, cpus: int, memory: int)
  datatype NetworkConfig = NetworkConfig(name: string, subnet: Subnet, dnsServers: seq<string>, domains: seq<string>)
  datatype EnvConfig = EnvConfig(
    name: string,
    datacenter: string,
    domain: string,
    network: NetworkConfig,
    template: string,
    master: NodeConfig,
    worker: NodeConfig,
    pools: seq<PoolConfig>,
    vaultAddress: string)

  /** `c.lower()` on an ASCII character. */
  function LowerChar(c: char): char {
    if 'A' <= c <= 'Z' then (c as int - 'A' as int + 'a' as int) as char else c
  }

  function Lower(s: string): (r: string)
    ensures |r| == |s|
  {
    seq(|s|, i requires 0 <= i < |s| => LowerChar(s[i]))
  }

  /** `pool_config['type'].lower() == 'cluster'`. */
  predicate IsClusterKind(kind: string) {
    Lower(kind) == "cluster"
  }

  /** The comparison ignores case and nothing else: each letter may be either case. */
  lemma ClusterKindIgnoresCase(kind: string)
    ensures IsClusterKind(kind) <==>
      |kind| == 7 && forall i :: 0 <= i < 7 ==> kind[i] == "cluster"[i] || kind[i] == "CLUSTER"[i]
  {
    if |kind| == 7 {
      var l := Lower(kind);
      if forall i :: 0 <= i < 7 ==> kind[i] == "cluster"[i] || kind[i] == "CLUSTER"[i] {
        assert forall i :: 0 <= i < 7 ==> l[i] == "cluster"[i];
      }
      if l == "cluster" {
        forall i | 0 <= i < 7
          ensures kind[i] == "cluster"[i] || kind[i] == "CLUSTER"[i]
        {
          assert LowerChar(kind[i]) == "cluster"[i];
        }
      }
    }
  }

  /** ResourcePool.from_config (environment.py:70-92). */
  function PoolFromConfig(vs: VSphere, dc: Datacenter, c: PoolConfig): ResourcePool {
    if IsClusterKind(c.kind) then
      ResourcePool(vs.computeClusterPool(dc.id, c.name), vs.datastore(dc.id, c.datastore), c.weight)
    else
      ResourcePool(vs.hostPool(dc.id, c.name), vs.datastore(dc.id, c.datastore), c.weight)
  }

  /**
   * A "cluster" entry (in any case) takes its id from the compute-cluster
   * lookup, every other entry from the host lookup; weight and datastore come
   * from the same entry either way.
   */
  lemma PoolFromConfigLookups(vs: VSphere, dc: Datacenter, c: PoolConfig)
    ensures var p := PoolFromConfig(vs, dc, c);
      && (IsClusterKind(c.kind) ==> p.id == vs.computeClusterPool(dc.id, c.name))
      && (!IsClusterKind(c.kind) ==> p.id == vs.hostPool(dc.id, c.name))
      && p.datastoreId == vs.datastore(dc.id, c.datastore)
      && p.weight == c.weight
  {
  }

  /** The pool-building loop of Environment.from_config (environment.py:127-130). */
  method BuildPools(vs: VSphere, dc: Datacenter, configs: seq<PoolConfig>) returns (pools: seq<ResourcePool>)
    ensures |pools| == |configs|
    ensures forall i :: 0 <= i < |configs| ==> pools[i] == PoolFromConfig(vs, dc, configs[i])
  {
    pools := [];
    for i := 0 to |configs|
      invariant |pools| == i
      invariant forall k :: 0 <= k < i ==> pools[k] == PoolFromConfig(vs, dc, configs[k])
    {
      pools := pools + [PoolFromConfig(vs, dc, configs[i])];
    }
  }

  function SettingsFromConfig(c: NodeConfig): (s: NodeSettings)
    ensures s.name == c.name && s.networkOffset == c.networkOffset
    ensures s.cpus == c.cpus && s.memory == c.memory
  {
    NodeSettings(c.name, c.networkOffset, c.cpus, c.memory)
  }

  /** Environment.from_config (environment.py:124-158). */
  method FromConfig(vs: VSphere, config: EnvConfig) returns (env: Environment)
    ensures fresh(env.pools)
    ensures env.pools.Length == |config.pools|
    ensures forall i :: 0 <= i < |config.pools| ==>
      env.pools[i] == PoolFromConfig(vs, env.datacenter, config.pools[i])
    ensures env.datacenter == vs.datacenter(config.datacenter)
    ensures env.name == config.name && env.domain == config.domain
    ensures env.network == Network(
      vs.network(env.datacenter.id, config.network.name), config.network.subnet,
      config.network.dnsServers, config.network.domains)
    ensures env.nodeTemplate == vs.virtualMachine(env.datacenter.id, config.template)
    ensures env.masterConfig == SettingsFromConfig(config.master)
    ensures env.workerConfig == SettingsFromConfig(config.worker)
    ensures env.vaultAddress == config.vaultAddress
  {
    var dc := vs.datacenter(config.datacenter);
    var pools := BuildPools(vs, dc, config.pools);
    var poolArray := new ResourcePool[|pools|](i requires 0 <= i < |pools| => pools[i]);
    env := Environment(
      config.name,
      dc,
      config.domain,
      poolArray,
      Network(vs.network(dc.id, config.network.name), config.network.subnet,
              config.network.dnsServers, config.network.domains),
      vs.virtualMachine(dc.id, config.template),
      SettingsFromConfig(config.master),
      SettingsFromConfig(config.worker),
      config.vaultAddress);
  }
}
