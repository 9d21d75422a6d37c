/**
 * The etcd member selection of the inventory helper (inv.py:10-16): the host
 * names the cluster exports, masters first, and among them the etcd members.
 * Reading the outputs and rendering the inventory file are not modelled.
 */
module Inventory {
  import opened Environments
  import opened Clusters

  /** `all_nodes = j['masters'] + j['workers']` (inv.py:10). */
  function AllNodes(masters: seq<string>, workers: seq<string>): (r: seq<string>)
    ensures |r| == |masters| + |workers|
    ensures r[..|masters|] == masters && r[|masters|..] == workers
  {
    masters + workers
  }

  /** How many etcd members a cluster of the minimum size has. */
  const ETCD_MEMBERS: nat := 3

  /**
   * The etcd members (inv.py:13-16): every node of a cluster of at most three
   * nodes, otherwise the first three.
   */
  function EtcdNodes(all: seq<string>): (r: seq<string>)
    ensures |r| == if |all| <= ETCD_MEMBERS then |all| else ETCD_MEMBERS
    ensures r == all[..|r|]
  {
    if |all| <= ETCD_MEMBERS then all else all[..ETCD_MEMBERS]
  }

  /** With at least three masters the etcd members are the first three masters. */
  lemma EtcdFromMasters(masters: seq<string>, workers: seq<string>)
    requires |masters| >= ETCD_MEMBERS
    ensures EtcdNodes(AllNodes(masters, workers)) == masters[..ETCD_MEMBERS]
  {
    var all := AllNodes(masters, workers);
    assert all[..ETCD_MEMBERS] == all[..|masters|][..ETCD_MEMBERS];
  }

  /**
   * Every cluster that can be built has at least MINIMUM_NUM_NODES nodes, so
   * the inventory for its host names always names exactly three etcd members,
   * the first three host names in masters-then-workers order.
   */
  lemma PlanEtcdMembers(nodes: int, masters: int, sortedPools: seq<ResourcePool>, token: string, env: Environment)
    requires Plan(nodes, masters, sortedPools, token, env).Success?
    ensures var l := Plan(nodes, masters, sortedPools, token, env).value;
      var all := AllNodes(Hostnames(l.masterNodes, env.domain), Hostnames(l.workerNodes, env.domain));
      |all| >= MINIMUM_NUM_NODES && |EtcdNodes(all)| == ETCD_MEMBERS && EtcdNodes(all) == all[..ETCD_MEMBERS]
  {
    PlanValidation(nodes, masters, sortedPools, token, env);
    PlanNodeCount(nodes, masters, sortedPools, token, env);
  }
}
