# Cluster topology and placement for a vSphere Kubernetes deployment

This project models the placement engine of a Pulumi program. The program
declares the virtual machines of a Kubernetes cluster on vSphere. From a
stack configuration it builds an environment: the network, the master and
worker node settings, the weighted resource pools and the base image. A
cluster then:

- validates the requested node and master counts and the pool list;
- sorts the environment's pools by weight, heaviest first, in place;
- places the masters, then the workers, round-robin over the sorted pools,
  numbering the nodes of each type 1, 2, ...;
- gives every node a name from its type's template, an IPv4 address
  (network address + type offset + index), a disk list copied from the
  base image and the cloud-init payload arguments;
- exports the `name.domain` host names of masters and workers.

An inventory helper reads those host names back and chooses the etcd
members.

Modules, one per file:

- `Wrappers` (wrappers.dfy): `Option` and `Result`.
- `Decimal` (decimal.dfy): Python's `str(int)` and the value a digit
  string reads back as.
- `Environments` (environment.dfy): the records of environment.py, IPv4
  arithmetic, and the construction from configuration.
- `Nodes` (node.py → node.dfy): the disk list, the IP configuration, the
  node name, the node properties, and the VM record and outputs of a node.
- `PoolOrder` (pool_order.dfy): the stable descending sort of the pools,
  given as a specification function plus an in-place insertion sort on
  the pools array.
- `Clusters` (cluster.dfy):
  - `Plan`, the whole construction as a function of its inputs, with
    lemmas about it;
  - class `Cluster`, which performs the construction step by step as the
    source does: fields updated by `AddNodes`, `Populate` and
    `PlaceWorkers`;
  - the static method `Create`, proved to produce exactly what `Plan`
    says.
- `Inventory` (inventory.dfy): the etcd selection of inv.py.

The environment holds its pools as an `array`. The cluster sorts that
array in place (cluster.py:68), and every holder of the environment sees
the new order, as in the source. The vSphere lookups are a `VSphere`
record of total functions. The credential token is a parameter of
`Create`.

Behaviours of the code a reader might not expect (the model follows the
code):

- The rotation restarts at the first pool for the workers: each
  `add_nodes` call builds its own `itertools.cycle`. It does not continue
  from where the masters left off.
- `IPv4Address + int` raises when the sum leaves the address space. So
  node creation, and with it the cluster, can fail for valid counts.
  `PlanSucceeds` states the exact condition.
- The master check is `not props.masters`, which rejects only 0. A
  negative master count passes, creates no masters and makes every node a
  worker (`PlanNodeCount`).
- The pools are sorted by `Cluster.__init__`, not when the environment is
  built.
- Pool weights are not validated to be positive.

## Model

| member | source | states |
|---|---|---|
| Decimal.NatString | node.py:25 | `str(n)` of a natural number is a nonempty digit string; it starts with '0' exactly when n is 0 and has two or more digits from 10 on |
| Decimal.NatStringValue | node.py:25 | reading the decimal rendering of n back gives n |
| Decimal.IntString | node.py:149 | `str(i)` starts with '-' exactly for negative i and is the natural rendering otherwise |
| Decimal.IntStringInjective | node.py:149 | distinct integers render differently |
| Environments.AddToAddress | node.py:89-94 | `IPv4Address + k` succeeds exactly when the sum is in [0, 2^32); it then differs from the address by k, and otherwise fails with that sum |
| Environments.Lower | environment.py:81 | `str.lower` on ASCII text keeps the length; ClusterKindIgnoresCase states what the comparison built on it accepts |
| Environments.IsClusterKind | environment.py:81 | definition of `pool_config['type'].lower() == 'cluster'`; ClusterKindIgnoresCase states which type strings satisfy it |
| Environments.ClusterKindIgnoresCase | environment.py:81 | a pool entry is a compute cluster exactly when its type has seven characters, each one the matching letter of "cluster" in either case |
| Environments.PoolFromConfig | environment.py:70-92 | definition of `ResourcePool.from_config`; PoolFromConfigLookups states which lookup each field comes from |
| Environments.PoolFromConfigLookups | environment.py:81-92 | a "cluster" entry takes its pool id from the compute-cluster lookup and every other entry from the host lookup; the datastore and weight come from the entry |
| Environments.BuildPools | environment.py:127-130 | the pool loop builds one pool per configuration entry, in order, the i-th from the i-th entry |
| Environments.SettingsFromConfig | environment.py:144-155 | node settings carry the configured name template, network offset, CPUs and memory |
| Environments.FromConfig | environment.py:124-157 | a fresh pools array holds one pool per entry in configuration order; datacenter, network, template and node settings come from their lookups and entries; name, domain and vault address are copied |
| Nodes.SettingsFor | node.py:145-148 | definition: the master settings for a MASTER, the worker settings otherwise; NodeSettingsSelection states what a node takes from them |
| Nodes.DiskSize | node.py:26 | definition of `int(float(size)) + 1`, truncating toward zero; DerivedDisks bounds it and DiskSizeExamples shows the +1 on whole sizes |
| Nodes.DerivedDisks | node.py:22-31 | one disk per source disk, in order: the i-th is labelled "disk" + str(i) with unit number i and the source's flags; its size is the least integer strictly above a nonnegative declared size |
| Nodes.BuildDisks | node.py:13-31 | the counting loop of `_build_disks` yields exactly the derived disk list |
| Nodes.DiskLabelsDistinct | node.py:25 | the derived disks have pairwise distinct labels |
| Nodes.DiskSizeExamples | node.py:26 | a declared 10.4 becomes 11, and a declared 10.0 also becomes 11 (the +1 applies to whole sizes too) |
| Nodes.FromEnvironment | node.py:88-97 | the IP configuration exists exactly when network + offset, that plus the index, and network + 1 are all addresses; the address is then network + type offset + index, the gateway network + 1, and DNS servers and domains are the network's |
| Nodes.AddressesDistinct | node.py:88-93 | within one node type, two nodes have the same address exactly when they have the same index |
| Nodes.GatewayShared | node.py:94-96 | the gateway, DNS servers and search domains are the same for every node of either type |
| Nodes.IndexString | node.py:149 | the index text is at least two characters long |
| Nodes.IndexStringValue | node.py:149 | a nonnegative index is rendered as digits that read back as the index; it is zero-padded to exactly two digits below 10 and has no leading zero above 9 |
| Nodes.IndexStringInjective | node.py:149 | distinct indices give distinct index texts |
| Nodes.IndexStringExamples | node.py:149 | index 7 renders as "07" and index 12 as "12" |
| Nodes.Format | node.py:150 | definition of `template.format(index=..., env=...)` on a template split into pieces; FormatInjective states that `{index}` makes it injective |
| Nodes.FormatLengthMonotone | node.py:150 | a longer index text never gives a shorter name, and gives a strictly longer one when the template uses `{index}` |
| Nodes.FormatInjectiveSameLength | node.py:150 | for index texts of one length, a template with `{index}` tells them apart |
| Nodes.FormatInjective | node.py:150 | a template with an `{index}` placeholder gives distinct names to distinct index texts |
| Nodes.NodeName | node.py:145-150 | definition: the type's template formatted with the padded index and the environment name; NodeNamesDistinct states that names differ within a type |
| Nodes.NodeNamesDistinct | node.py:145-150 | within one type, distinct indices give distinct node names when the type's template uses `{index}` |
| Nodes.Properties | node.py:117-122 | node properties exist exactly when the IP configuration does, fail with its error, and carry index, type, pool, token, environment and that IP configuration |
| Nodes.NodeFor | node.py:145-191 | definition of the node `Node.__init__` builds: the templated name, the properties and the disks derived from the image; New computes it and NodePayloads describes it |
| Nodes.Node.ResourceName | node.py:151 | definition: "node-" + name; NodePayloads states it |
| Nodes.Node.Vm | node.py:163-185 | definition of the VM record; NodeSettingsSelection and NodePayloads state each of its fields |
| Nodes.Node.Outputs | node.py:187-191 | definition of the registered outputs; NodePayloads states them |
| Nodes.New | node.py:145-172 | `Node.__init__` builds the node named from its type's template, with disks from the disk loop |
| Nodes.NodeSettingsSelection | node.py:145-178 | a master takes its name template, CPUs and memory from the master settings and a worker from the worker settings; pool id and datastore come from the assigned pool; guest id, disks, clone id and network id come from the environment |
| Nodes.NodePayloads | node.py:151-191 | the resource names are "node-" and "vm-" plus the name; the metadata carries the host name and the IP settings; the userdata carries the vault address and the node's token; the outputs are name, address and "master"/"worker" |
| PoolOrder.Insert | cluster.py:68 | one insertion step of the sort: the result is one longer than the list; InsertSorted, InsertMultiset and InsertWithWeight state what it does |
| PoolOrder.SortByWeight | cluster.py:68 | the sort result has the input's length; SortSorted, SortPermutation, SortStable and SortCharacterization state that it is Python's stable descending sort |
| PoolOrder.SortSorted | cluster.py:68 | the sorted pools are non-increasing by weight |
| PoolOrder.SortPermutation | cluster.py:68 | the sorted pools are a permutation of the original pools |
| PoolOrder.SortStable | cluster.py:68 | for every weight, the pools of that weight keep their original relative order (Python's sort is stable with `reverse=True`) |
| PoolOrder.SortCharacterization | cluster.py:68 | any ordering that is non-increasing by weight and keeps each weight's pools in their original order is the sort result, so the result is unique |
| PoolOrder.InsertSorted | cluster.py:68 | inserting a pool into a sorted list keeps it sorted |
| PoolOrder.InsertMultiset | cluster.py:68 | insertion adds exactly the inserted pool |
| PoolOrder.InsertWithWeight | cluster.py:68 | insertion places the new pool after every pool of its weight already present |
| PoolOrder.SortedWithSameWeightsEqual | cluster.py:68 | two sorted lists with the same pools per weight, in the same order, are equal |
| PoolOrder.InsertAt | cluster.py:68 | inserting a pool places it at the first position where a strictly lighter pool begins |
| PoolOrder.OpenGap | cluster.py:68 | the inner loop moves every pool lighter than the one being inserted one place to the right, stopping at the first pool at least as heavy |
| PoolOrder.InsertLast | cluster.py:68 | one outer step turns the sorted prefix plus the next pool into their insertion, leaving the rest of the array unchanged |
| PoolOrder.SortInPlace | cluster.py:68 | the array ends up holding the stable descending sort of its old contents, sorted and a permutation of them |
| Clusters.Validate | cluster.py:51-56 | no error exactly when nodes >= 3, masters != 0 and the pool list is nonempty; otherwise the first failing check's error with the offending value |
| Clusters.Cycle | cluster.py:98-100 | the rotation for n turns has n entries |
| Clusters.CycleAt | cluster.py:98-100 | turn i of the rotation uses `pools[i mod |pools|]` |
| Clusters.CyclePrefix | cluster.py:98-100 | the first m turns of a longer rotation are the rotation of m turns |
| Clusters.CycleNext | cluster.py:98-100 | each `next(c)` extends the rotation by `pools[n mod |pools|]` |
| Clusters.CycleRounds | cluster.py:98-100 | q·|pools| + r turns are q full passes in sorted order and then the first r pools, so placement is by rotation priority, not in proportion to weight |
| Clusters.RotationExample | cluster.py:98-100 | two pools and five nodes give p1, p2, p1, p2, p1; three nodes give p1, p2, p1 |
| Clusters.NodeAt | cluster.py:112-119 | `make_node` succeeds exactly when the node's IP configuration exists |
| Clusters.NodeAtSpec | cluster.py:112-119 | a built node has the requested index, type, pool, token and environment, the computed IP configuration and the templated name; a failure carries the address error |
| Clusters.AddedNodes | cluster.py:99-100 | definition of the nodes one `add_nodes` call appends, stopping at the first failure; the AddedNodes and Rotation lemmas state its properties |
| Clusters.AddedNodesSucceed | cluster.py:99-100 | one `add_nodes` call succeeds exactly when each of its node builds succeeds |
| Clusters.AddedNodesValues | cluster.py:99-100 | a successful call yields one node per turn, in order, the k-th built with index start + k + 1 in the k-th pool of the placement |
| Clusters.AddedNodesExact | cluster.py:99-100 | nodes that match the builder turn by turn are exactly the call's result |
| Clusters.AddedNodesSnoc | cluster.py:99-100 | one more turn either propagates an earlier failure, fails with the new node's error, or appends the new node |
| Clusters.AddedNodesPrefixFails | cluster.py:99-100 | the first failing turn decides the call's failure |
| Clusters.RotationDone | cluster.py:98-100 | a run whose every turn succeeded yields what the call's specification says |
| Clusters.RotationFails | cluster.py:98-100 | a run that fails at turn i fails with that turn's error |
| Clusters.MakeRotation | cluster.py:98-100 | the loop over a fresh cycle of the pools array returns exactly the call's specified result, failing at the first failing node |
| Clusters.RotationValues | cluster.py:98-100 | from an empty list the k-th node of a successful call is built with index k + 1 in `pools[k mod |pools|]` |
| Clusters.RotationSucceeds | cluster.py:98-100 | a call from an empty list succeeds exactly when every index 1..n can be built in its pool |
| Clusters.MakerSucceeds | cluster.py:112-119 | every turn's `make_node` succeeds exactly when every index 1..n has an address |
| Clusters.MakerNumbers | cluster.py:113-114 | `make_node` gives each node the index and type it was asked for |
| Clusters.AddedNodesNumbered | cluster.py:99-100 | the nodes a call appends continue the 1, 2, ... numbering of the type's list |
| Clusters.Hostnames | cluster.py:79-80 | one host name per node, in order, each the node's VM name + "." + domain |
| Clusters.PlanWith | cluster.py:39-80 | definition of the construction for any node builder: the checks, the masters, then the workers; PlanWithSteps, PlanWithNodes and PlanWithSucceeds state its properties |
| Clusters.Plan | cluster.py:39-80 | PlanWith with `make_node` as the builder; PlanNodes, PlanNodeCount, PlanSucceeds and PlanHostnamesDistinct state its properties, and Cluster.Create is proved to produce it |
| Clusters.PlanValidation | cluster.py:51-56 | a failed check is the result before any node is built: too few nodes first, then zero masters, then no pools |
| Clusters.PlanWithSteps | cluster.py:71-77 | after the checks, the masters are placed first; a failure there is the result; otherwise `nodes - (masters created)` workers are placed in a rotation that starts again at the first pool |
| Clusters.PlanWithNodes | cluster.py:71-77 | for any node builder: max(masters, 0) masters and max(nodes - max(masters, 0), 0) workers, the k-th of each built with index k + 1 in `pools[k mod |pools|]` |
| Clusters.PlanWithSucceeds | cluster.py:51-77 | for any node builder: the construction succeeds exactly when the checks pass and every master and worker slot can be built |
| Clusters.PlanNodes | cluster.py:71-119 | the k-th master is the node `make_node` builds with index k + 1 in `pools[k mod |pools|]`, and so is the k-th worker, with the counts above |
| Clusters.PlanNodeCount | cluster.py:71-77 | with masters <= nodes the cluster has exactly `nodes` nodes; with more masters than nodes it has those masters and no workers; with a negative master count every node is a worker |
| Clusters.PlanSucceeds | cluster.py:51-119 | the construction succeeds exactly when the checks pass and every master index 1..max(masters, 0) and every worker index has an address |
| Clusters.PlanHostnamesDistinct | cluster.py:79-80 | the host names of one type are pairwise distinct when its name template uses `{index}` |
| Clusters.HostnamesDistinct | cluster.py:79-80 | nodes named by their 1-based position get distinct host names when the template uses `{index}` |
| Clusters.NamesFromNodeAt | cluster.py:112-119 | nodes built by `make_node` at indices 1, 2, ... carry the templated names of those indices |
| Clusters.WithDomainDistinct | cluster.py:79-80 | appending "." + domain keeps distinct names distinct |
| Clusters.ModNext | cluster.py:98-100 | the rotation position advances by one and wraps to 0 at the end of the pools |
| Clusters.Cluster.constructor | cluster.py:47-65 | the name, node count, properties and token are set, both node lists and host-name lists are empty, and `make_node` is bound to each node type with this cluster's token and environment |
| Clusters.Cluster.MakeNode | cluster.py:102-119 | the node is built with index `len(nodes[type]) + 1`, the given pool, the cluster's token and the environment |
| Clusters.Cluster.AddNodes | cluster.py:88-100 | the type's list grows by exactly the call's nodes, and stays numbered 1, 2, ...; the other list and the host names are unchanged; a failing node's error is returned |
| Clusters.Cluster.Append | cluster.py:100 | the nodes are appended to the type's list only |
| Clusters.Cluster.Populate | cluster.py:71-80 | on sorted pools, the cluster ends up holding exactly the construction's masters, workers and host names, or reports its error |
| Clusters.Cluster.PlaceWorkers | cluster.py:74-80 | `nodes - (masters created)` workers are placed in a fresh rotation, and then both host-name lists are built |
| Clusters.Cluster.Create | cluster.py:39-86 | a failed check is reported with the pools untouched; otherwise the pools array is sorted in place, and the result is a fresh cluster holding exactly what `Plan` gives on the sorted pools, or `Plan`'s error |
| Inventory.AllNodes | inv.py:10 | all nodes are the masters followed by the workers |
| Inventory.EtcdNodes | inv.py:11-16 | every node when there are at most three nodes, otherwise the first three |
| Inventory.EtcdFromMasters | inv.py:10-16 | with three or more masters the etcd members are the first three masters |
| Inventory.PlanEtcdMembers | inv.py:10-16 | every cluster that can be built has at least three nodes, so its inventory always names exactly three etcd members, the first three host names |

## Left out

- Pulumi resource plumbing is not modelled. This covers component registration, resource options and parenting. The resources are kept as plain records (`VirtualMachine`, `NodeOutputs`, the `Cluster` fields).
- Issuing the Vault token (cluster.py:64-65) is a call to an external credential service. The token is a parameter of `Create`.
- The vSphere lookups are calls into the provider. They are the fields of the `VSphere` record, taken as given total functions.
- Cloud-init rendering (node.py:34-46) reads a Jinja2 template file and base64-encodes the output. The model keeps each payload as its template path and the variables it is rendered with. Neither the template text nor the encoding is in the model.
- Parsing and printing addresses with `ipaddress` is not modelled. A subnet is kept as its network address, and an address as its integer value. `str(address)`, the dotted-quad text, is not modelled.
- Node-name templates are `str.format` strings. They are kept already split into literal text, `{index}` and `{env}`. Parsing format strings, and format errors, are not modelled.
- Nodes.DerivedDisks: the size goes through `str`, then `float`, then `int`. The model takes it as a real number. It does not model floating-point rounding or string parsing.
- Clusters.Hostnames: in the source, `m.vm.name` is an attribute of a `vsphere.VirtualMachine` resource, which Pulumi exposes as an `Output[str]` and not as a string. `'{}.{}'.format(...)` then renders the Output object, not the VM name. The model uses the node's plain name, which is the evident intent and what a plain record gives. This rests on Pulumi's documented semantics of resource outputs.
- Environments.Lower: lowercasing is ASCII only. Python's `str.lower` maps more characters, but none of them to the letters of "cluster", so the comparison with "cluster" is unaffected.
- Environments.FromConfig: the configuration is a typed record. Missing keys (`KeyError`) and wrongly typed values are not modelled.
- Clusters.Cluster.AddNodes: it appends a call's nodes together after the loop, where the source appends one per turn. A failing node raises out of `Cluster.__init__`, so a partially filled list is never observable.
- Clusters.Cluster.AddNodes: it builds nodes with the cluster's bound builder fields, which the constructor sets to `make_node` for each type. `Clusters.Cluster.MakeNode` models `make_node` as a method on its own.
- inv.py's input and output are not modelled: reading JSON from standard input, rendering the inventory template and printing. Only the selection of all nodes and etcd members is modelled.
- builders.py, glab.py and `__main__.py` are not part of this model. They hold configuration loading and the program's entry point.
