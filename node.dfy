/**
 * One node of the cluster (node.py): its type, its IPv4 configuration, its
 * name, its disks and the virtual machine record it declares.
 */
module Nodes {
  import opened Wrappers
  import opened Decimal
  import opened Environments

  /** NodeType (node.py:49-52). */
  datatype NodeType = Master | Worker

  /** The settings of the node's type: `master_config` for MASTER, `worker_config` otherwise. */
  function SettingsFor(t: NodeType, env: Environment): NodeSettings {
    if t == Master then env.masterConfig else env.workerConfig
  }

  // ---------------------------------------------------------------------------
  // Disks (node.py:13-31)

  /** One entry of the disk list handed to vSphere. */
  datatype Disk = Disk(diskLabel: string, size: int, unitNumber: nat, thinProvisioned: bool, eagerlyScrub: bool)

  /** `'disk{}'.format(i)`. */
  function DiskLabel(i: nat): string {
    "disk" + NatString(i)
  }

  /** `int(float(size)) + 1`: truncation is the floor for a size that is not negative. */
  function DiskSize(declared: real): int {
    if declared >= 0.0 then declared.Floor + 1 else -((-declared).Floor) + 1
  }

  function DerivedDisk(i: nat, d: SourceDisk): Disk {
    Disk(DiskLabel(i), DiskSize(d.size), i, d.thinProvisioned, d.eagerlyScrub)
  }

  /**
   * The disk list derived from the base image: one entry per source disk, in
   * source order, the i-th labelled "disk<i>" with unit number i, flags copied,
   * and a size that is the least whole number strictly above the declared one.
   */
  function DerivedDisks(src: seq<SourceDisk>): (r: seq<Disk>)
    ensures |r| == |src|
    ensures forall i :: 0 <= i < |src| ==>
      && r[i].diskLabel == DiskLabel(i)
      && r[i].unitNumber == i
      && r[i].thinProvisioned == src[i].thinProvisioned
      && r[i].eagerlyScrub == src[i].eagerlyScrub
      && (src[i].size >= 0.0 ==> (r[i].size - 1) as real <= src[i].size < r[i].size as real)
  {
    seq(|src|, i requires 0 <= i < |src| => DerivedDisk(i, src[i]))
  }

  /** _build_disks (node.py:13-31): the counter `i` and the list appended in the loop. */
  method BuildDisks(src: seq<SourceDisk>) returns (disks: seq<Disk>)
    ensures disks == DerivedDisks(src)
  {
    var i := 0;
    disks := [];
    while i < |src|
      invariant 0 <= i <= |src|
      invariant |disks| == i
      invariant forall k :: 0 <= k < i ==> disks[k] == DerivedDisk(k, src[k])
    {
      disks := disks + [DerivedDisk(i, src[i])];
      i := i + 1;
    }
  }

  /** Every derived disk has its own label. */
  lemma DiskLabelsDistinct(src: seq<SourceDisk>, i: nat, j: nat)
    requires i < |src| && j < |src| && i != j
    ensures DerivedDisks(src)[i].diskLabel != DerivedDisks(src)[j].diskLabel
  {
    if DiskLabel(i) == DiskLabel(j) {
      assert DiskLabel(i)[4..] == NatString(i);
      assert DiskLabel(j)[4..] == NatString(j);
      NatStringInjective(i, j);
    }
  }

  lemma DiskSizeExamples()
    ensures DiskSize(10.4) == 11 && DiskSize(10.0) == 11
  {
  }

  // ---------------------------------------------------------------------------
  // IP configuration (node.py:55-97)

  /** IPConfig (node.py:58-70). */
  datatype IpConfig = IpConfig(ipAddress: IPv4, gateway: IPv4, dnsServers: seq<string>, domains: seq<string>)

  /**
   * IPConfig.from_environment (node.py:72-97): the network address plus the
   * type's offset plus the index, each addition checked by the address type;
   * the gateway is the network address plus one.
   */
  function FromEnvironment(index: int, t: NodeType, env: Environment): (r: Result<IpConfig, AddressError>)
    ensures var net, off := env.network.subnet.networkAddress as int, SettingsFor(t, env).networkOffset;
      r.Success? <==> 0 <= net + off < ADDRESS_SPACE && 0 <= net + off + index < ADDRESS_SPACE && net + 1 < ADDRESS_SPACE
    ensures r.Success? ==>
      && r.value.ipAddress as int - env.network.subnet.networkAddress as int == SettingsFor(t, env).networkOffset + index
      && r.value.gateway as int - env.network.subnet.networkAddress as int == 1
      && r.value.dnsServers == env.network.dnsServers
      && r.value.domains == env.network.domains
  {
    var net := env.network.subnet.networkAddress;
    var offset := SettingsFor(t, env).networkOffset;
    match AddToAddress(net, offset)
    case Failure(e) => Failure(e)
    case Success(base) =>
      match AddToAddress(base, index)
      case Failure(e) => Failure(e)
      case Success(address) =>
        match AddToAddress(net, 1)
        case Failure(e) => Failure(e)
        case Success(gateway) => Success(IpConfig(address, gateway, env.network.dnsServers, env.network.domains))
  }

  /** Within one type, distinct indices give distinct addresses. */
  lemma AddressesDistinct(t: NodeType, i: int, j: int, env: Environment)
    requires FromEnvironment(i, t, env).Success? && FromEnvironment(j, t, env).Success?
    ensures FromEnvironment(i, t, env).value.ipAddress == FromEnvironment(j, t, env).value.ipAddress <==> i == j
  {
  }

  /** The gateway and the DNS settings do not depend on the node's type or index. */
  lemma GatewayShared(t: NodeType, i: int, u: NodeType, j: int, env: Environment)
    requires FromEnvironment(i, t, env).Success? && FromEnvironment(j, u, env).Success?
    ensures var a, b := FromEnvironment(i, t, env).value, FromEnvironment(j, u, env).value;
      a.gateway == b.gateway && a.dnsServers == b.dnsServers && a.domains == b.domains
  {
  }

  // ---------------------------------------------------------------------------
  // Names (node.py:149-150)

  /** `props.index if props.index > 9 else '0' + str(props.index)`. */
  function IndexString(index: int): (s: string)
    ensures |s| >= 2
  {
    if index > 9 then IntString(index) else "0" + IntString(index)
  }

  /**
   * A nonnegative index renders as a decimal numeral that reads back as the
   * index, zero-padded to two digits and not padded beyond that.
   */
  lemma IndexStringValue(index: int)
    requires 0 <= index
    ensures AllDigits(IndexString(index)) && DigitsValue(IndexString(index)) == index
    ensures index <= 9 ==> |IndexString(index)| == 2 && IndexString(index)[0] == '0'
    ensures index > 9 ==> IndexString(index)[0] != '0'
  {
    NatStringValue(index);
    if index <= 9 {
      LeadingZeroValue(NatString(index));
    }
  }

  lemma IndexStringInjective(i: int, j: int)
    requires IndexString(i) == IndexString(j)
    ensures i == j
  {
    if i > 9 && j > 9 {
      IntStringInjective(i, j);
    } else if i <= 9 && j <= 9 {
      assert IndexString(i)[1..] == IntString(i);
      assert IndexString(j)[1..] == IntString(j);
      IntStringInjective(i, j);
    }
  }

  lemma IndexStringExamples()
    ensures IndexString(7) == "07" && IndexString(12) == "12"
  {
    assert NatString(12) == NatString(1) + [DigitChar(2)];
  }

  function PieceText(p: Piece, index: string, envName: string): string {
    match p
    case Literal(text) => text
    case IndexField => index
    case EnvField => envName
  }

  /** `template.format(index=..., env=...)` on a template given as its pieces. */
  function Format(template: NameTemplate, index: string, envName: string): string
    decreases |template|
  {
    if template == [] then [] else PieceText(template[0], index, envName) + Format(template[1..], index, envName)
  }

  /** How many `{index}` placeholders a template holds. */
  function IndexCount(template: NameTemplate): nat
    decreases |template|
  {
    if template == [] then 0 else (if template[0] == IndexField then 1 else 0) + IndexCount(template[1..])
  }

  /** A longer index text gives a longer name when the template uses `{index}`, and never a shorter one. */
  lemma {:induction false} FormatLengthMonotone(template: NameTemplate, x: string, y: string, envName: string)
    requires |x| < |y|
    ensures |Format(template, x, envName)| <= |Format(template, y, envName)|
    ensures IndexCount(template) > 0 ==> |Format(template, x, envName)| < |Format(template, y, envName)|
    decreases |template|
  {
    if template != [] {
      FormatLengthMonotone(template[1..], x, y, envName);
    }
  }

  lemma {:induction false} FormatInjectiveSameLength(template: NameTemplate, x: string, y: string, envName: string)
    requires |x| == |y| && IndexCount(template) > 0
    requires Format(template, x, envName) == Format(template, y, envName)
    ensures x == y
    decreases |template|
  {
    var head := template[0];
    var fx, fy := Format(template[1..], x, envName), Format(template[1..], y, envName);
    if head == IndexField {
      assert (x + fx)[..|x|] == x;
      assert (y + fy)[..|y|] == y;
    } else {
      var t := PieceText(head, x, envName);
      assert t == PieceText(head, y, envName);
      assert (t + fx)[|t|..] == fx;
      assert (t + fy)[|t|..] == fy;
      FormatInjectiveSameLength(template[1..], x, y, envName);
    }
  }

  /** A template with an `{index}` placeholder gives different names to different index texts. */
  lemma FormatInjective(template: NameTemplate, x: string, y: string, envName: string)
    requires IndexCount(template) > 0
    requires Format(template, x, envName) == Format(template, y, envName)
    ensures x == y
  {
    if |x| < |y| {
      FormatLengthMonotone(template, x, y, envName);
    } else if |y| < |x| {
      FormatLengthMonotone(template, y, x, envName);
    }
    FormatInjectiveSameLength(template, x, y, envName);
  }

  /** The name of the node of type `t` with index `index` (node.py:145-150). */
  function NodeName(t: NodeType, index: int, env: Environment): string {
    Format(SettingsFor(t, env).name, IndexString(index), env.name)
  }

  /** Within one type, distinct indices give distinct names when the template uses `{index}`. */
  lemma NodeNamesDistinct(t: NodeType, i: int, j: int, env: Environment)
    requires IndexCount(SettingsFor(t, env).name) > 0 && i != j
    ensures NodeName(t, i, env) != NodeName(t, j, env)
  {
    if NodeName(t, i, env) == NodeName(t, j, env) {
      FormatInjective(SettingsFor(t, env).name, IndexString(i), IndexString(j), env.name);
      IndexStringInjective(i, j);
    }
  }

  // ---------------------------------------------------------------------------
  // The node (node.py:100-191)

  /** NodeProperties (node.py:100-122). */
  datatype NodeProperties = NodeProperties(
    index: int,
    nodeType: NodeType,
    ipConfig: IpConfig,
    resourcePool: ResourcePool,
    vaultToken: string,
    env: Environment)

  /** NodeProperties.__init__: fails when the address computation fails (node.py:119). */
  function Properties(index: int, t: NodeType, pool: ResourcePool, token: string, env: Environment): (r: Result<NodeProperties, AddressError>)
    ensures r.Success? <==> FromEnvironment(index, t, env).Success?
    ensures r.Failure? ==> r.error == FromEnvironment(index, t, env).error
    ensures r.Success? ==>
      && r.value.ipConfig == FromEnvironment(index, t, env).value
      && r.value.index == index && r.value.nodeType == t && r.value.resourcePool == pool
      && r.value.vaultToken == token && r.value.env == env
  {
    match FromEnvironment(index, t, env)
    case Failure(e) => Failure(e)
    case Success(ip) => Success(NodeProperties(index, t, ip, pool, token, env))
  }

  const METADATA_TEMPLATE := "files/metadata.yml.j2"
  const USERDATA_TEMPLATE := "files/init.sh.j2"

  /** The variables the cloud-init metadata template is rendered with (node.py:153-158). */
  datatype MetadataVars = MetadataVars(hostname: string, ipAddress: IPv4, gateway: IPv4, dnsServers: seq<string>, domains: seq<string>)

  /** The variables the cloud-init userdata template is rendered with (node.py:159-161). */
  datatype UserdataVars = UserdataVars(vaultAddress: string, vaultToken: string)

  /**
   * A rendered cloud-init payload, kept as the template and the variables it
   * was rendered from; the rendered text itself is opaque.
   */
  datatype Payload<V> = Payload(template: string, vars: V)

  /** The vsphere.VirtualMachine the node declares (node.py:163-185), as a plain record. */
  datatype VirtualMachine = VirtualMachine(
    name: string,
    resourceName: string,
    resourcePoolId: string,
    numCpus: int,
    memory: int,
    datastoreId: string,
    guestId: string,
    disks: seq<Disk>,
    cloneTemplateUuid: string,
    networkId: string,
    metadata: Payload<MetadataVars>,
    userdata: Payload<UserdataVars>)

  /** What the node registers as its outputs (node.py:187-191). */
  datatype NodeOutputs = NodeOutputs(hostname: string, ipAddress: IPv4, kind: string)

  /**
   * A node: its name (computed once, node.py:146-150), the properties it was
   * built from and the disks derived from its image. The resources
   * Node.__init__ declares from these (node.py:151-191) are the member
   * functions below.
   */
  datatype Node = Node(name: string, props: NodeProperties, disks: seq<Disk>) {
    /** The node's own resource name. */
    function ResourceName(): string {
      "node-" + name
    }

    /** The vsphere.VirtualMachine the node declares (node.py:163-185). */
    function Vm(): VirtualMachine {
      var config := SettingsFor(props.nodeType, props.env);
      var metadata := Payload(METADATA_TEMPLATE, MetadataVars(
        name, props.ipConfig.ipAddress, props.ipConfig.gateway, props.ipConfig.dnsServers, props.ipConfig.domains));
      var userdata := Payload(USERDATA_TEMPLATE, UserdataVars(props.env.vaultAddress, props.vaultToken));
      VirtualMachine(
        name,
        "vm-" + name,
        props.resourcePool.id,
        config.cpus,
        config.memory,
        props.resourcePool.datastoreId,
        props.env.nodeTemplate.guestId,
        disks,
        props.env.nodeTemplate.id,
        props.env.network.id,
        metadata,
        userdata)
    }

    /** The outputs the node registers (node.py:187-191). */
    function Outputs(): NodeOutputs {
      NodeOutputs(name, props.ipConfig.ipAddress, if props.nodeType == Master then "master" else "worker")
    }
  }

  /** The node Node.__init__ builds from `props` (node.py:145-191). */
  function NodeFor(props: NodeProperties): Node {
    Node(NodeName(props.nodeType, props.index, props.env), props, DerivedDisks(props.env.nodeTemplate.disks))
  }

  /** Node.__init__: the disk list is built by the loop of BuildDisks. */
  method New(props: NodeProperties) returns (node: Node)
    ensures node == NodeFor(props)
  {
    var name := NodeName(props.nodeType, props.index, props.env);
    var disks := BuildDisks(props.env.nodeTemplate.disks);
    node := Node(name, props, disks);
  }

  /**
   * A MASTER takes its name template, CPUs and memory from `master_config`,
   * a WORKER from `worker_config`; both take pool id and datastore from the
   * assigned pool, the image's guest id, disks and id, and the network id.
   */
  lemma NodeSettingsSelection(props: NodeProperties)
    ensures var vm, env := NodeFor(props).Vm(), props.env;
      var config := if props.nodeType == Master then env.masterConfig else env.workerConfig;
      && vm.name == Format(config.name, IndexString(props.index), env.name)
      && vm.numCpus == config.cpus && vm.memory == config.memory
      && vm.resourcePoolId == props.resourcePool.id && vm.datastoreId == props.resourcePool.datastoreId
      && vm.guestId == env.nodeTemplate.guestId && vm.disks == DerivedDisks(env.nodeTemplate.disks)
      && vm.cloneTemplateUuid == env.nodeTemplate.id && vm.networkId == env.network.id
  {
  }

  /**
   * The node's resource names and outputs derive from its name; the boot
   * payloads carry its address settings and the credential token it was given.
   */
  lemma NodePayloads(props: NodeProperties)
    ensures var n := NodeFor(props);
      var vm := n.Vm();
      && n.ResourceName() == "node-" + vm.name && vm.resourceName == "vm-" + vm.name
      && vm.name == NodeName(props.nodeType, props.index, props.env)
      && vm.metadata == Payload(METADATA_TEMPLATE, MetadataVars(
           vm.name, props.ipConfig.ipAddress, props.ipConfig.gateway, props.ipConfig.dnsServers, props.ipConfig.domains))
      && vm.userdata == Payload(USERDATA_TEMPLATE, UserdataVars(props.env.vaultAddress, props.vaultToken))
      && n.Outputs() == NodeOutputs(vm.name, props.ipConfig.ipAddress, if props.nodeType == Master then "master" else "worker")
  {
  }
}
