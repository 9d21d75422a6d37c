/**
 * The cluster builder (cluster.py): validates the request, sorts the
 * environment's pools by weight, places the masters and then the workers
 * round-robin over the pools, numbers the nodes of each type 1, 2, ... and
 * builds the `name.domain` host names.
 *
 * Plan is the whole construction as one function of its inputs; class
 * Cluster carries it out step by step as the source does, and Create is
 * proved to produce what Plan says.
 */
module Clusters {
  import opened Wrappers
  import opened Environments
  import opened PoolOrder
  import opened Nodes

  /** MINIMUM_NUM_NODES (cluster.py:10); the check at cluster.py:51 writes the literal 3. */
  const MINIMUM_NUM_NODES: int := 3

  /** ClusterProperties (cluster.py:13-26). */
  datatype ClusterProperties = ClusterProperties(nodes: int, masters: int, env: Environment)

  /** The exceptions Cluster.__init__ can raise. */
  datatype ClusterError =
    | InvalidNodeCount(nodes: int)
    | InvalidMasterCount(masters: int)
    | NoResourcePools
    | NodeFailed(error: AddressError)

  /**
   * The three checks of cluster.py:51-56, in order. Only a master count of
   * exactly 0 is rejected: `not props.masters` is false for a negative count.
   */
  function Validate(nodes: int, masters: int, poolCount: nat): (r: Option<ClusterError>)
    ensures r == None <==> nodes >= MINIMUM_NUM_NODES && masters != 0 && poolCount > 0
    ensures nodes < MINIMUM_NUM_NODES ==> r == Some(InvalidNodeCount(nodes))
    ensures nodes >= MINIMUM_NUM_NODES && masters == 0 ==> r == Some(InvalidMasterCount(masters))
    ensures nodes >= MINIMUM_NUM_NODES && masters != 0 && poolCount == 0 ==> r == Some(NoResourcePools)
  {
    if nodes < 3 then Some(InvalidNodeCount(nodes))
    else if masters == 0 then Some(InvalidMasterCount(masters))
    else if poolCount == 0 then Some(NoResourcePools)
    else None
  }

  /** How many times `for i in range(0, count)` runs. */
  function RangeLength(count: int): nat {
    if count > 0 then count else 0
  }

  // ---------------------------------------------------------------------------
  // The rotation (cluster.py:98): the first n items of itertools.cycle(pools)

  function Cycle(pools: seq<ResourcePool>, n: nat): (r: seq<ResourcePool>)
    requires |pools| > 0
    ensures |r| == n
    decreases n
  {
    if n <= |pools| then pools[..n] else pools + Cycle(pools, n - |pools|)
  }

  /** `q` complete passes over the pools. */
  function Repeat(pools: seq<ResourcePool>, q: nat): seq<ResourcePool> {
    if q == 0 then [] else pools + Repeat(pools, q - 1)
  }

  lemma ModBelow(i: int, n: int)
    requires n > 0 && n <= i
    ensures (i - n) % n == i % n
  {
    var q, r := (i - n) / n, (i - n) % n;
    assert i == (q + 1) * n + r;
    ModUnique(i, n, q + 1, r);
  }

  lemma ModUnique(i: int, n: int, q: int, r: int)
    requires n > 0 && 0 <= r < n && i == q * n + r
    ensures i % n == r && i / n == q
  {
    var q', r' := i / n, i % n;
    assert (q - q') * n == r' - r;
    if q' < q {
      MulAtLeast(q - q', n);
      assert false;
    } else if q < q' {
      MulAtLeast(q' - q, n);
      assert false;
    }
  }

  lemma {:induction false} MulAtLeast(d: int, n: int)
    requires d >= 1 && n > 0
    ensures d * n >= n
    decreases d
  {
    if d > 1 {
      MulAtLeast(d - 1, n);
      assert d * n == (d - 1) * n + n;
    }
  }

  /** The i-th pool of the rotation is `pools[i mod |pools|]`. */
  lemma {:induction false} CycleAt(pools: seq<ResourcePool>, n: nat, i: nat)
    requires |pools| > 0 && i < n
    ensures |Cycle(pools, n)| == n && Cycle(pools, n)[i] == pools[i % |pools|]
    decreases n
  {
    if i < |pools| {
      ModUnique(i, |pools|, 0, i);
    } else {
      CycleAt(pools, n - |pools|, i - |pools|);
      ModBelow(i, |pools|);
    }
  }

  lemma CyclePrefix(pools: seq<ResourcePool>, m: nat, n: nat)
    requires |pools| > 0 && m <= n
    ensures Cycle(pools, n)[..m] == Cycle(pools, m)
  {
    forall i | 0 <= i < m
      ensures Cycle(pools, n)[i] == Cycle(pools, m)[i]
    {
      CycleAt(pools, n, i);
      CycleAt(pools, m, i);
    }
  }

  lemma CycleNext(pools: seq<ResourcePool>, n: nat)
    requires |pools| > 0
    ensures Cycle(pools, n + 1) == Cycle(pools, n) + [pools[n % |pools|]]
  {
    CyclePrefix(pools, n, n + 1);
    CycleAt(pools, n + 1, n);
    assert Cycle(pools, n + 1) == Cycle(pools, n + 1)[..n] + [Cycle(pools, n + 1)[n]];
  }

  /**
   * Round-robin, not proportional: `q * |pools| + r` nodes make `q` full
   * passes and then one more node on each of the first `r` pools, which after
   * the sort are the heaviest.
   */
  lemma {:induction false} CycleRounds(pools: seq<ResourcePool>, q: nat, r: nat)
    requires r < |pools|
    ensures Cycle(pools, q * |pools| + r) == Repeat(pools, q) + pools[..r]
    decreases q
  {
    var n := q * |pools| + r;
    if q == 0 {
    } else if n <= |pools| {
      MulAtLeast(q, |pools|);
      ModUnique(n, |pools|, q, r);
      ModUnique(n, |pools|, 1, 0);
      assert Repeat(pools, 1) == pools + [];
    } else {
      assert n - |pools| == (q - 1) * |pools| + r;
      CycleRounds(pools, q - 1, r);
    }
  }

  lemma RotationExample(p1: ResourcePool, p2: ResourcePool)
    ensures Cycle([p1, p2], 5) == [p1, p2, p1, p2, p1]
    ensures Cycle([p1, p2], 3) == [p1, p2, p1] && Cycle([p1, p2], 2) == [p1, p2]
  {
    assert Cycle([p1, p2], 1) == [p1];
    assert Cycle([p1, p2], 3) == [p1, p2] + Cycle([p1, p2], 1);
    assert Cycle([p1, p2], 5) == [p1, p2] + Cycle([p1, p2], 3);
  }

  // ---------------------------------------------------------------------------
  // The nodes each call of add_nodes creates

  /** make_node (cluster.py:102-119) for a given index: NodeProperties, then Node. */
  function NodeAt(t: NodeType, index: int, pool: ResourcePool, token: string, env: Environment): (r: Result<Node, AddressError>)
    ensures r.Success? <==> FromEnvironment(index, t, env).Success?
  {
    match Properties(index, t, pool, token, env)
    case Failure(e) => Failure(e)
    case Success(props) => Success(NodeFor(props))
  }

  /** What make_node produces: the node's properties, its VM name and its IP settings. */
  lemma NodeAtSpec(t: NodeType, index: int, pool: ResourcePool, token: string, env: Environment)
    ensures var r := NodeAt(t, index, pool, token, env);
      && (r.Failure? ==> r.error == FromEnvironment(index, t, env).error)
      && (r.Success? ==>
            && r.value.props.index == index && r.value.props.nodeType == t
            && r.value.props.resourcePool == pool && r.value.props.vaultToken == token && r.value.props.env == env
            && r.value.props.ipConfig == FromEnvironment(index, t, env).value
            && r.value.name == NodeName(t, index, env)
            && r.value == NodeFor(r.value.props))
  {
  }

  /** The node builder one add_nodes call uses: make_node for a fixed type, token and environment. */
  function NodeMaker(t: NodeType, token: string, env: Environment): (int, ResourcePool) -> Result<Node, AddressError> {
    (index: int, pool: ResourcePool) => NodeAt(t, index, pool, token, env)
  }

  /**
   * The nodes one add_nodes call appends when the list already holds `start`
   * nodes and the rotation yields `placement`: the k-th is built by `make`
   * with index start + k + 1. The first failing node aborts the whole call.
   * The call's bookkeeping does not depend on how one node is built, so it is
   * stated for any builder.
   */
  function AddedNodes<N>(make: (int, ResourcePool) -> Result<N, AddressError>, start: nat, placement: seq<ResourcePool>): Result<seq<N>, AddressError>
    decreases |placement|
  {
    if placement == [] then Success([])
    else
      match AddedNodes(make, start, placement[..|placement| - 1])
      case Failure(e) => Failure(e)
      case Success(ns) =>
        match make(start + |placement|, placement[|placement| - 1])
        case Failure(e) => Failure(e)
        case Success(n) => Success(ns + [n])
  }

  /** The call succeeds exactly when every node it builds succeeds. */
  lemma {:induction false} AddedNodesSucceed<N>(make: (int, ResourcePool) -> Result<N, AddressError>, start: nat, placement: seq<ResourcePool>)
    ensures AddedNodes(make, start, placement).Success? <==>
      forall k :: 0 <= k < |placement| ==> make(start + k + 1, placement[k]).Success?
    decreases |placement|
  {
    if placement != [] {
      var m := |placement| - 1;
      var init := placement[..m];
      AddedNodesSucceed(make, start, init);
      assert forall k :: 0 <= k < m ==> init[k] == placement[k];
    }
  }

  /**
   * A successful call yields one node per placement slot, in order, the k-th
   * built with index start + k + 1.
   */
  lemma {:induction false} AddedNodesValues<N>(make: (int, ResourcePool) -> Result<N, AddressError>, start: nat, placement: seq<ResourcePool>)
    requires AddedNodes(make, start, placement).Success?
    ensures var ns := AddedNodes(make, start, placement).value;
      |ns| == |placement| &&
      forall k :: 0 <= k < |placement| ==> make(start + k + 1, placement[k]) == Success(ns[k])
    decreases |placement|
  {
    if placement != [] {
      var m := |placement| - 1;
      var init := placement[..m];
      AddedNodesValues(make, start, init);
      var ns := AddedNodes(make, start, placement).value;
      var prev := AddedNodes(make, start, init).value;
      assert ns == prev + [make(start + |placement|, placement[m]).value];
      forall k | 0 <= k < |placement|
        ensures make(start + k + 1, placement[k]) == Success(ns[k])
      {
        if k < m {
          assert placement[k] == init[k] && ns[k] == prev[k];
        }
      }
    }
  }

  /** The converse: nodes that match the builder slot by slot are the call's result. */
  lemma {:induction false} AddedNodesExact<N>(make: (int, ResourcePool) -> Result<N, AddressError>, start: nat, placement: seq<ResourcePool>, ns: seq<N>)
    requires |ns| == |placement|
    requires forall k :: 0 <= k < |placement| ==> make(start + k + 1, placement[k]) == Success(ns[k])
    ensures AddedNodes(make, start, placement) == Success(ns)
    decreases |placement|
  {
    if placement != [] {
      var m := |placement| - 1;
      var init := placement[..m];
      assert forall k :: 0 <= k < m ==> init[k] == placement[k];
      AddedNodesExact(make, start, init, ns[..m]);
      assert ns == ns[..m] + [ns[m]];
    }
  }

  /** Appending one placement slot: the call goes on only while every node succeeds. */
  lemma AddedNodesSnoc<N>(make: (int, ResourcePool) -> Result<N, AddressError>, start: nat, placement: seq<ResourcePool>, pool: ResourcePool)
    ensures var prev := AddedNodes(make, start, placement);
      var n := make(start + |placement| + 1, pool);
      AddedNodes(make, start, placement + [pool]) ==
        if prev.Failure? then prev
        else if n.Failure? then Failure(n.error)
        else Success(prev.value + [n.value])
  {
    assert (placement + [pool])[..|placement|] == placement;
  }

  /** Once a prefix of the placement fails, the whole call fails with the same error. */
  lemma {:induction false} AddedNodesPrefixFails<N>(make: (int, ResourcePool) -> Result<N, AddressError>, start: nat, placement: seq<ResourcePool>, m: nat)
    requires m <= |placement|
    requires AddedNodes(make, start, placement[..m]).Failure?
    ensures AddedNodes(make, start, placement) == AddedNodes(make, start, placement[..m])
    decreases |placement| - m
  {
    if m < |placement| {
      var init := placement[..|placement| - 1];
      assert init[..m] == placement[..m];
      AddedNodesPrefixFails(make, start, init, m);
    } else {
      assert placement[..m] == placement;
    }
  }

  /** A run of add_nodes whose every turn succeeded produces what AddedNodes says. */
  lemma RotationDone<N>(make: (int, ResourcePool) -> Result<N, AddressError>, start: nat, pools: seq<ResourcePool>, n: nat, done: seq<N>)
    requires |pools| > 0 && |done| == n
    requires forall k :: 0 <= k < n ==> make(start + k + 1, pools[k % |pools|]) == Success(done[k])
    ensures AddedNodes(make, start, Cycle(pools, n)) == Success(done)
  {
    var p := Cycle(pools, n);
    forall k | 0 <= k < n
      ensures make(start + k + 1, p[k]) == Success(done[k])
    {
      CycleAt(pools, n, k);
    }
    AddedNodesExact(make, start, p, done);
  }

  /** A run of add_nodes that fails at turn i fails with that turn's error. */
  lemma RotationFails<N>(make: (int, ResourcePool) -> Result<N, AddressError>, start: nat, pools: seq<ResourcePool>, i: nat, n: nat, done: seq<N>)
    requires |pools| > 0 && i < n && |done| == i
    requires forall k :: 0 <= k < i ==> make(start + k + 1, pools[k % |pools|]) == Success(done[k])
    requires make(start + i + 1, pools[i % |pools|]).Failure?
    ensures AddedNodes(make, start, Cycle(pools, n)) == Failure(make(start + i + 1, pools[i % |pools|]).error)
  {
    var p := Cycle(pools, n);
    CyclePrefix(pools, i, n);
    RotationDone(make, start, pools, i, done);
    CycleAt(pools, n, i);
    AddedNodesSnoc(make, start, p[..i], p[i]);
    assert p[..i] + [p[i]] == p[..i + 1];
    AddedNodesPrefixFails(make, start, p, i + 1);
  }

  // ---------------------------------------------------------------------------
  // The whole construction

  /** The nodes of a cluster, masters and workers, in creation order. */
  datatype Layout<N> = Layout(masterNodes: seq<N>, workerNodes: seq<N>)

  /**
   * Cluster.__init__ (cluster.py:39-86) on the already sorted pools, for any
   * way of building one master and one worker: the checks, then the masters,
   * then `nodes - (masters created)` workers, each call starting its own
   * rotation at the first pool.
   */
  function PlanWith<N>(nodes: int, masters: int, sortedPools: seq<ResourcePool>,
                       makeMaster: (int, ResourcePool) -> Result<N, AddressError>,
                       makeWorker: (int, ResourcePool) -> Result<N, AddressError>): Result<Layout<N>, ClusterError>
  {
    match Validate(nodes, masters, |sortedPools|)
    case Some(e) => Failure(e)
    case None =>
      match AddedNodes(makeMaster, 0, Cycle(sortedPools, RangeLength(masters)))
      case Failure(e) => Failure(NodeFailed(e))
      case Success(ms) =>
        match AddedNodes(makeWorker, 0, Cycle(sortedPools, RangeLength(nodes - |ms|)))
        case Failure(e) => Failure(NodeFailed(e))
        case Success(ws) => Success(Layout(ms, ws))
  }

  /** The nodes Cluster.__init__ creates, each built by make_node. */
  function Plan(nodes: int, masters: int, sortedPools: seq<ResourcePool>, token: string, env: Environment): Result<Layout<Node>, ClusterError> {
    PlanWith(nodes, masters, sortedPools, NodeMaker(Master, token, env), NodeMaker(Worker, token, env))
  }

  /** `['{}.{}'.format(n.vm.name, domain) for n in nodes]` (cluster.py:79-80). */
  function Hostnames(nodes: seq<Node>, domain: string): (r: seq<string>)
    ensures |r| == |nodes|
    ensures forall k :: 0 <= k < |nodes| ==> r[k] == nodes[k].name + "." + domain
  {
    seq(|nodes|, k requires 0 <= k < |nodes| => nodes[k].name + "." + domain)
  }

  /** A failed check is reported before any node is made, first failing check first. */
  lemma PlanValidation(nodes: int, masters: int, sortedPools: seq<ResourcePool>, token: string, env: Environment)
    ensures Validate(nodes, masters, |sortedPools|).Some? ==>
      Plan(nodes, masters, sortedPools, token, env) == Failure(Validate(nodes, masters, |sortedPools|).value)
    ensures nodes < MINIMUM_NUM_NODES ==> Plan(nodes, masters, sortedPools, token, env) == Failure(InvalidNodeCount(nodes))
    ensures nodes >= MINIMUM_NUM_NODES && masters == 0 ==>
      Plan(nodes, masters, sortedPools, token, env) == Failure(InvalidMasterCount(0))
    ensures nodes >= MINIMUM_NUM_NODES && masters != 0 && sortedPools == [] ==>
      Plan(nodes, masters, sortedPools, token, env) == Failure(NoResourcePools)
  {
  }

  /** PlanWith as the sequence of steps Cluster.__init__ takes once the checks have passed. */
  lemma PlanWithSteps<N>(nodes: int, masters: int, sortedPools: seq<ResourcePool>,
                         makeMaster: (int, ResourcePool) -> Result<N, AddressError>,
                         makeWorker: (int, ResourcePool) -> Result<N, AddressError>)
    requires Validate(nodes, masters, |sortedPools|).None?
    ensures var plan := PlanWith(nodes, masters, sortedPools, makeMaster, makeWorker);
      var am := AddedNodes(makeMaster, 0, Cycle(sortedPools, RangeLength(masters)));
      && (am.Failure? ==> plan == Failure(NodeFailed(am.error)))
      && (am.Success? ==>
            var aw := AddedNodes(makeWorker, 0, Cycle(sortedPools, RangeLength(nodes - |am.value|)));
            && (aw.Failure? ==> plan == Failure(NodeFailed(aw.error)))
            && (aw.Success? ==> plan == Success(Layout(am.value, aw.value))))
  {
  }

  /**
   * For any builders: the k-th master (0-based) is built with index k + 1 in
   * pool `pools[k mod |pools|]`, and so is the k-th worker.
   */
  lemma PlanWithNodes<N>(nodes: int, masters: int, sortedPools: seq<ResourcePool>,
                         makeMaster: (int, ResourcePool) -> Result<N, AddressError>,
                         makeWorker: (int, ResourcePool) -> Result<N, AddressError>)
    requires PlanWith(nodes, masters, sortedPools, makeMaster, makeWorker).Success?
    ensures var l := PlanWith(nodes, masters, sortedPools, makeMaster, makeWorker).value;
      && |sortedPools| > 0
      && |l.masterNodes| == RangeLength(masters)
      && |l.workerNodes| == RangeLength(nodes - RangeLength(masters))
      && (forall k :: 0 <= k < |l.masterNodes| ==> makeMaster(k + 1, sortedPools[k % |sortedPools|]) == Success(l.masterNodes[k]))
      && (forall k :: 0 <= k < |l.workerNodes| ==> makeWorker(k + 1, sortedPools[k % |sortedPools|]) == Success(l.workerNodes[k]))
  {
    PlanWithSteps(nodes, masters, sortedPools, makeMaster, makeWorker);
    var am := AddedNodes(makeMaster, 0, Cycle(sortedPools, RangeLength(masters)));
    RotationValues(makeMaster, sortedPools, RangeLength(masters));
    RotationValues(makeWorker, sortedPools, RangeLength(nodes - |am.value|));
  }

  /**
   * For any builders: the construction succeeds exactly when the checks pass
   * and every master and every worker can be built in its pool.
   */
  lemma PlanWithSucceeds<N>(nodes: int, masters: int, sortedPools: seq<ResourcePool>,
                            makeMaster: (int, ResourcePool) -> Result<N, AddressError>,
                            makeWorker: (int, ResourcePool) -> Result<N, AddressError>)
    ensures PlanWith(nodes, masters, sortedPools, makeMaster, makeWorker).Success? <==>
      && Validate(nodes, masters, |sortedPools|).None?
      && (forall k :: 0 <= k < RangeLength(masters) ==> makeMaster(k + 1, sortedPools[k % |sortedPools|]).Success?)
      && (forall k :: 0 <= k < RangeLength(nodes - RangeLength(masters)) ==> makeWorker(k + 1, sortedPools[k % |sortedPools|]).Success?)
  {
    if Validate(nodes, masters, |sortedPools|).None? {
      PlanWithSteps(nodes, masters, sortedPools, makeMaster, makeWorker);
      var m, w := RangeLength(masters), RangeLength(nodes - RangeLength(masters));
      RotationSucceeds(makeMaster, sortedPools, m);
      if AddedNodes(makeMaster, 0, Cycle(sortedPools, m)).Success? {
        RotationValues(makeMaster, sortedPools, m);
      }
      RotationSucceeds(makeWorker, sortedPools, w);
    }
  }

  /**
   * The k-th master (0-based) is the node make_node builds with index k + 1
   * in pool `pools[k mod |pools|]`, and so is the k-th worker: the worker
   * rotation starts again at the first pool. There are max(masters, 0)
   * masters and max(nodes - max(masters, 0), 0) workers.
   */
  lemma PlanNodes(nodes: int, masters: int, sortedPools: seq<ResourcePool>, token: string, env: Environment)
    requires Plan(nodes, masters, sortedPools, token, env).Success?
    ensures var l := Plan(nodes, masters, sortedPools, token, env).value;
      && |sortedPools| > 0
      && |l.masterNodes| == RangeLength(masters)
      && |l.workerNodes| == RangeLength(nodes - RangeLength(masters))
      && (forall k :: 0 <= k < |l.masterNodes| ==>
            NodeMaker(Master, token, env)(k + 1, sortedPools[k % |sortedPools|]) == Success(l.masterNodes[k]))
      && (forall k :: 0 <= k < |l.workerNodes| ==>
            NodeMaker(Worker, token, env)(k + 1, sortedPools[k % |sortedPools|]) == Success(l.workerNodes[k]))
  {
    PlanWithNodes(nodes, masters, sortedPools, NodeMaker(Master, token, env), NodeMaker(Worker, token, env));
  }

  /** The k-th node of a successful call from an empty list is built with index k + 1 in pool k mod |pools|. */
  lemma RotationValues<N>(make: (int, ResourcePool) -> Result<N, AddressError>, pools: seq<ResourcePool>, n: nat)
    requires |pools| > 0 && AddedNodes(make, 0, Cycle(pools, n)).Success?
    ensures var ns := AddedNodes(make, 0, Cycle(pools, n)).value;
      |ns| == n && forall k :: 0 <= k < n ==> make(k + 1, pools[k % |pools|]) == Success(ns[k])
  {
    AddedNodesValues(make, 0, Cycle(pools, n));
    forall k | 0 <= k < n
      ensures Cycle(pools, n)[k] == pools[k % |pools|]
    {
      CycleAt(pools, n, k);
    }
  }

  /** A call from an empty list succeeds exactly when every index 1..n can be built in its pool. */
  lemma RotationSucceeds<N>(make: (int, ResourcePool) -> Result<N, AddressError>, pools: seq<ResourcePool>, n: nat)
    requires |pools| > 0
    ensures AddedNodes(make, 0, Cycle(pools, n)).Success? <==>
      forall k :: 0 <= k < n ==> make(k + 1, pools[k % |pools|]).Success?
  {
    AddedNodesSucceed(make, 0, Cycle(pools, n));
    forall k | 0 <= k < n
      ensures Cycle(pools, n)[k] == pools[k % |pools|]
    {
      CycleAt(pools, n, k);
    }
  }

  /** make_node succeeds exactly when the node's address can be computed. */
  lemma MakerSucceeds(t: NodeType, token: string, env: Environment, pools: seq<ResourcePool>, n: nat)
    requires |pools| > 0
    ensures (forall k :: 0 <= k < n ==> NodeMaker(t, token, env)(k + 1, pools[k % |pools|]).Success?) <==>
      (forall i :: 0 < i <= n ==> FromEnvironment(i, t, env).Success?)
  {
    if forall k :: 0 <= k < n ==> NodeMaker(t, token, env)(k + 1, pools[k % |pools|]).Success? {
      forall i | 0 < i <= n
        ensures FromEnvironment(i, t, env).Success?
      {
        assert NodeMaker(t, token, env)((i - 1) + 1, pools[(i - 1) % |pools|]).Success?;
      }
    }
    if forall i :: 0 < i <= n ==> FromEnvironment(i, t, env).Success? {
      forall k | 0 <= k < n
        ensures NodeMaker(t, token, env)(k + 1, pools[k % |pools|]).Success?
      {
        assert FromEnvironment(k + 1, t, env).Success?;
      }
    }
  }

  /**
   * The worker count is derived from the masters actually created: with
   * masters <= nodes the cluster has exactly `nodes` nodes; with more masters
   * than nodes it has no workers; a negative master count creates no masters
   * and makes every node a worker.
   */
  lemma PlanNodeCount(nodes: int, masters: int, sortedPools: seq<ResourcePool>, token: string, env: Environment)
    requires Plan(nodes, masters, sortedPools, token, env).Success?
    ensures var l := Plan(nodes, masters, sortedPools, token, env).value;
      && (masters <= nodes ==> |l.masterNodes| + |l.workerNodes| == nodes)
      && (masters > nodes ==> |l.masterNodes| == masters && l.workerNodes == [])
      && (masters < 0 ==> l.masterNodes == [] && |l.workerNodes| == nodes)
  {
    PlanWithNodes(nodes, masters, sortedPools, NodeMaker(Master, token, env), NodeMaker(Worker, token, env));
  }

  /**
   * The construction succeeds exactly when the checks pass and every master
   * index 1..max(masters, 0) and every worker index has an address.
   */
  lemma PlanSucceeds(nodes: int, masters: int, sortedPools: seq<ResourcePool>, token: string, env: Environment)
    ensures Plan(nodes, masters, sortedPools, token, env).Success? <==>
      && Validate(nodes, masters, |sortedPools|).None?
      && (forall i :: 0 < i <= RangeLength(masters) ==> FromEnvironment(i, Master, env).Success?)
      && (forall i :: 0 < i <= RangeLength(nodes - RangeLength(masters)) ==> FromEnvironment(i, Worker, env).Success?)
  {
    PlanWithSucceeds(nodes, masters, sortedPools, NodeMaker(Master, token, env), NodeMaker(Worker, token, env));
    if |sortedPools| > 0 {
      MakerSucceeds(Master, token, env, sortedPools, RangeLength(masters));
      MakerSucceeds(Worker, token, env, sortedPools, RangeLength(nodes - RangeLength(masters)));
    }
  }

  /** The host names of one type are pairwise distinct when its name template uses `{index}`. */
  lemma PlanHostnamesDistinct(nodes: int, masters: int, sortedPools: seq<ResourcePool>, token: string, env: Environment)
    requires Plan(nodes, masters, sortedPools, token, env).Success?
    ensures var l := Plan(nodes, masters, sortedPools, token, env).value;
      var hm, hw := Hostnames(l.masterNodes, env.domain), Hostnames(l.workerNodes, env.domain);
      && (IndexCount(env.masterConfig.name) > 0 ==> forall i, j :: 0 <= i < j < |hm| ==> hm[i] != hm[j])
      && (IndexCount(env.workerConfig.name) > 0 ==> forall i, j :: 0 <= i < j < |hw| ==> hw[i] != hw[j])
  {
    var l := Plan(nodes, masters, sortedPools, token, env).value;
    PlanNodes(nodes, masters, sortedPools, token, env);
    NamesFromNodeAt(l.masterNodes, Master, sortedPools, token, env);
    NamesFromNodeAt(l.workerNodes, Worker, sortedPools, token, env);
    HostnamesDistinct(l.masterNodes, Master, env);
    HostnamesDistinct(l.workerNodes, Worker, env);
  }

  lemma NamesFromNodeAt(ns: seq<Node>, t: NodeType, pools: seq<ResourcePool>, token: string, env: Environment)
    requires |pools| > 0
    requires forall k :: 0 <= k < |ns| ==> NodeMaker(t, token, env)(k + 1, pools[k % |pools|]) == Success(ns[k])
    ensures forall k :: 0 <= k < |ns| ==> ns[k].name == NodeName(t, k + 1, env)
  {
    forall k | 0 <= k < |ns|
      ensures ns[k].name == NodeName(t, k + 1, env)
    {
      NodeAtSpec(t, k + 1, pools[k % |pools|], token, env);
    }
  }

  lemma HostnamesDistinct(ns: seq<Node>, t: NodeType, env: Environment)
    requires forall k :: 0 <= k < |ns| ==> ns[k].name == NodeName(t, k + 1, env)
    ensures var h := Hostnames(ns, env.domain);
      IndexCount(SettingsFor(t, env).name) > 0 ==> forall i, j :: 0 <= i < j < |h| ==> h[i] != h[j]
  {
    if IndexCount(SettingsFor(t, env).name) > 0 {
      var names := Names(ns);
      forall i, j | 0 <= i < j < |names|
        ensures names[i] != names[j]
      {
        NodeNamesDistinct(t, i + 1, j + 1, env);
      }
      WithDomainDistinct(names, env.domain);
    }
  }

  function Names(ns: seq<Node>): (r: seq<string>)
    ensures |r| == |ns| && forall k :: 0 <= k < |ns| ==> r[k] == ns[k].name
  {
    seq(|ns|, k requires 0 <= k < |ns| => ns[k].name)
  }

  /** Appending the same domain keeps distinct names distinct. */
  lemma WithDomainDistinct(names: seq<string>, domain: string)
    requires forall i, j :: 0 <= i < j < |names| ==> names[i] != names[j]
    ensures forall i, j :: 0 <= i < j < |names| ==> names[i] + "." + domain != names[j] + "." + domain
  {
    forall i, j | 0 <= i < j < |names|
      ensures names[i] + "." + domain != names[j] + "." + domain
    {
      DomainSuffixCancel(names[i], names[j], domain);
    }
  }

  lemma DomainSuffixCancel(a: string, b: string, domain: string)
    requires a != b
    ensures a + "." + domain != b + "." + domain
  {
    if |a| == |b| {
      assert (a + "." + domain)[..|a|] == a;
      assert (b + "." + domain)[..|b|] == b;
    } else {
      assert |a + "." + domain| != |b + "." + domain|;
    }
  }

  /** Nodes `ns` of type `t` numbered 1, 2, ... in order. */
  ghost predicate Numbered(ns: seq<Node>, t: NodeType) {
    forall k :: 0 <= k < |ns| ==> ns[k].props.index == k + 1 && ns[k].props.nodeType == t
  }

  /** A builder for type `t`: every node it builds has the index it was asked for and type `t`. */
  ghost predicate Numbers(make: (int, ResourcePool) -> Result<Node, AddressError>, t: NodeType) {
    forall i, p :: make(i, p).Success? ==> make(i, p).value.props.index == i && make(i, p).value.props.nodeType == t
  }

  /** make_node numbers the nodes it builds. */
  lemma MakerNumbers(t: NodeType, token: string, env: Environment)
    ensures Numbers(NodeMaker(t, token, env), t)
  {
    forall i, p | NodeMaker(t, token, env)(i, p).Success?
      ensures NodeMaker(t, token, env)(i, p).value.props.index == i && NodeMaker(t, token, env)(i, p).value.props.nodeType == t
    {
      NodeAtSpec(t, i, p, token, env);
    }
  }

  /** The nodes one add_nodes call appends continue the numbering of the type's list. */
  lemma AddedNodesNumbered(make: (int, ResourcePool) -> Result<Node, AddressError>, t: NodeType, ns: seq<Node>, placement: seq<ResourcePool>)
    requires Numbers(make, t) && Numbered(ns, t)
    requires AddedNodes(make, |ns|, placement).Success?
    ensures Numbered(ns + AddedNodes(make, |ns|, placement).value, t)
  {
    var added := AddedNodes(make, |ns|, placement).value;
    AddedNodesValues(make, |ns|, placement);
    var all := ns + added;
    forall k | 0 <= k < |all|
      ensures all[k].props.index == k + 1 && all[k].props.nodeType == t
    {
      if k >= |ns| {
        assert all[k] == added[k - |ns|];
        assert make(|ns| + (k - |ns|) + 1, placement[k - |ns|]) == Success(added[k - |ns|]);
      }
    }
  }

  /**
   * The loop of add_nodes (cluster.py:98-100): `next(pools)` walks the pools
   * array round-robin from its first entry, and the i-th turn builds the node
   * of index start + i + 1 in that pool; the first failure ends the call.
   */
  method MakeRotation<N>(make: (int, ResourcePool) -> Result<N, AddressError>, start: nat, pools: array<ResourcePool>, count: int)
    returns (r: Result<seq<N>, AddressError>)
    requires pools.Length > 0
    ensures r == AddedNodes(make, start, Cycle(pools[..], RangeLength(count)))
  {
    ghost var p := pools[..];
    var n := RangeLength(count);
    var done: seq<N> := [];
    var pos := 0;
    var i := 0;
    while i < n
      invariant 0 <= i <= n && |done| == i
      invariant pos == i % pools.Length
      invariant forall k :: 0 <= k < i ==> make(start + k + 1, p[k % |p|]) == Success(done[k])
    {
      var node := make(start + i + 1, pools[pos]);
      if node.Failure? {
        RotationFails(make, start, p, i, n, done);
        return Failure(node.error);
      }
      done := done + [node.value];
      pos := if pos + 1 == pools.Length then 0 else pos + 1;
      ModNext(i, pools.Length);
      i := i + 1;
    }
    RotationDone(make, start, p, n, done);
    return Success(done);
  }

  /** Cluster (cluster.py:29-119). */
  class Cluster {
    const name: string
    const nodeCount: int
    const props: ClusterProperties
    /** The credential token, issued once by the credential service and shared by all nodes. */
    const token: string
    /** `self.nodes[NodeType.MASTER]` and `self.nodes[NodeType.WORKER]`. */
    var masterNodes: seq<Node>
    var workerNodes: seq<Node>
    /** The host-name outputs. */
    var masters: seq<string>
    var workers: seq<string>
    /**
     * `self.make_node` bound to each node type: make_node (cluster.py:102-119)
     * with this cluster's token and environment, as the constructor sets them.
     */
    const makeMaster: (int, ResourcePool) -> Result<Node, AddressError>
    const makeWorker: (int, ResourcePool) -> Result<Node, AddressError>

    /** Each list holds nodes of its type numbered 1, 2, ...; each builder numbers what it builds. */
    ghost predicate Valid()
      reads this
    {
      && Numbers(makeMaster, Master) && Numbers(makeWorker, Worker)
      && Numbered(masterNodes, Master) && Numbered(workerNodes, Worker)
    }

    function Maker(t: NodeType): (int, ResourcePool) -> Result<Node, AddressError> {
      if t == Master then makeMaster else makeWorker
    }

    function Nodes(t: NodeType): seq<Node>
      reads this
    {
      if t == Master then masterNodes else workerNodes
    }

    /** The fields Cluster.__init__ sets before placing any node (cluster.py:47-65). */
    constructor (name: string, props: ClusterProperties, token: string)
      ensures this.name == name && nodeCount == props.nodes && this.props == props && this.token == token
      ensures masterNodes == [] && workerNodes == [] && masters == [] && workers == []
      ensures makeMaster == NodeMaker(Master, token, props.env) && makeWorker == NodeMaker(Worker, token, props.env)
      ensures Valid()
    {
      this.name := name;
      this.nodeCount := props.nodes;
      this.props := props;
      this.token := token;
      masterNodes, workerNodes := [], [];
      masters, workers := [], [];
      makeMaster := NodeMaker(Master, token, props.env);
      makeWorker := NodeMaker(Worker, token, props.env);
      MakerNumbers(Master, token, props.env);
      MakerNumbers(Worker, token, props.env);
    }

    /** make_node (cluster.py:102-119): the index is the current length of the type's list plus one. */
    method MakeNode(t: NodeType, pool: ResourcePool) returns (r: Result<Node, AddressError>)
      ensures r == NodeMaker(t, token, props.env)(|Nodes(t)| + 1, pool)
    {
      match Properties(|Nodes(t)| + 1, t, pool, token, props.env)
      case Failure(e) =>
        r := Failure(e);
      case Success(nodeProps) =>
        var node := New(nodeProps);
        r := Success(node);
    }

    /**
     * add_nodes (cluster.py:88-100): a fresh cycle over the pools, one node
     * per turn of `range(0, count)`, appended to the type's list.
     */
    method AddNodes(t: NodeType, count: int) returns (err: Option<AddressError>)
      requires Valid() && props.env.pools.Length > 0
      modifies this
      ensures Valid()
      ensures t == Master ==> workerNodes == old(workerNodes)
      ensures t == Worker ==> masterNodes == old(masterNodes)
      ensures masters == old(masters) && workers == old(workers)
      ensures var added := AddedNodes(Maker(t), old(|Nodes(t)|), Cycle(props.env.pools[..], RangeLength(count)));
        && (added.Success? ==> err == None && Nodes(t) == old(Nodes(t)) + added.value)
        && (added.Failure? ==> err == Some(added.error))
    {
      var added := MakeRotation(Maker(t), |Nodes(t)|, props.env.pools, count);
      match added
      case Failure(e) =>
        return Some(e);
      case Success(ns) =>
        AddedNodesNumbered(Maker(t), t, Nodes(t), Cycle(props.env.pools[..], RangeLength(count)));
        Append(t, ns);
        return None;
    }

    /** `self.nodes[node_type].append(node)` (cluster.py:100), for the nodes of one call. */
    method Append(t: NodeType, ns: seq<Node>)
      requires Valid() && Numbered(Nodes(t) + ns, t)
      modifies this
      ensures Valid()
      ensures Nodes(t) == old(Nodes(t)) + ns
      ensures t == Master ==> workerNodes == old(workerNodes)
      ensures t == Worker ==> masterNodes == old(masterNodes)
      ensures masters == old(masters) && workers == old(workers)
    {
      if t == Master {
        masterNodes := masterNodes + ns;
      } else {
        workerNodes := workerNodes + ns;
      }
    }

    /** The cluster holds exactly the nodes of `l` and their host names. */
    ghost predicate Realizes(l: Layout<Node>)
      reads this
    {
      && Valid()
      && masterNodes == l.masterNodes && workerNodes == l.workerNodes
      && masters == Hostnames(l.masterNodes, props.env.domain)
      && workers == Hostnames(l.workerNodes, props.env.domain)
    }

    /**
     * The placement part of Cluster.__init__ (cluster.py:71-80), on pools
     * that are already sorted: the masters, then `nodes` minus the masters
     * created as workers, then the host-name lists.
     */
    method Populate() returns (err: Option<ClusterError>)
      requires Valid() && masterNodes == [] && workerNodes == []
      requires Validate(nodeCount, props.masters, props.env.pools.Length).None?
      modifies this
      ensures var plan := PlanWith(nodeCount, props.masters, props.env.pools[..], makeMaster, makeWorker);
        && (plan.Failure? ==> err == Some(plan.error))
        && (plan.Success? ==> err == None && Realizes(plan.value))
    {
      ghost var pools := props.env.pools[..];
      PlanWithSteps(nodeCount, props.masters, pools, makeMaster, makeWorker);
      ghost var am := AddedNodes(makeMaster, 0, Cycle(pools, RangeLength(props.masters)));
      var e := AddNodes(Master, props.masters);
      if e.Some? {
        assert am.Failure? && e.value == am.error;
        return Some(NodeFailed(e.value));
      }
      assert am.Success? && masterNodes == am.value;
      err := PlaceWorkers();
    }

    /** The workers of Cluster.__init__ (cluster.py:74-77) and the host-name lists (cluster.py:79-80). */
    method PlaceWorkers() returns (err: Option<ClusterError>)
      requires Valid() && workerNodes == [] && props.env.pools.Length > 0
      modifies this
      ensures masterNodes == old(masterNodes)
      ensures var aw := AddedNodes(makeWorker, 0, Cycle(props.env.pools[..], RangeLength(nodeCount - |masterNodes|)));
        && (aw.Failure? ==> err == Some(NodeFailed(aw.error)))
        && (aw.Success? ==>
              && err == None && Valid() && workerNodes == aw.value
              && masters == Hostnames(masterNodes, props.env.domain) && workers == Hostnames(workerNodes, props.env.domain))
    {
      var workerCount := nodeCount - |masterNodes|;
      var e := AddNodes(Worker, workerCount);
      if e.Some? {
        return Some(NodeFailed(e.value));
      }
      masters := Hostnames(masterNodes, props.env.domain);
      workers := Hostnames(workerNodes, props.env.domain);
      return None;
    }

    /**
     * Cluster.__init__ (cluster.py:39-86). A failed check raises before the
     * pools are touched; otherwise the pools are sorted in place and the
     * nodes placed as Plan describes.
     */
    static method Create(name: string, props: ClusterProperties, token: string) returns (r: Result<Cluster, ClusterError>)
      modifies props.env.pools
      ensures var v := Validate(props.nodes, props.masters, props.env.pools.Length);
        && (v.Some? ==> r == Failure(v.value) && props.env.pools[..] == old(props.env.pools[..]))
        && (v.None? ==> props.env.pools[..] == SortByWeight(old(props.env.pools[..])))
      ensures var plan := Plan(props.nodes, props.masters, SortByWeight(old(props.env.pools[..])), token, props.env);
        && (plan.Failure? ==> r == Failure(plan.error))
        && (plan.Success? ==>
              && r.Success? && fresh(r.value)
              && r.value.name == name && r.value.nodeCount == props.nodes
              && r.value.props == props && r.value.token == token
              && r.value.Realizes(plan.value))
    {
      ghost var sorted := SortByWeight(props.env.pools[..]);
      var v := Validate(props.nodes, props.masters, props.env.pools.Length);
      if v.Some? {
        PlanValidation(props.nodes, props.masters, sorted, token, props.env);
        return Failure(v.value);
      }
      SortInPlace(props.env.pools);
      var c := new Cluster(name, props, token);
      assert Plan(props.nodes, props.masters, props.env.pools[..], token, props.env)
        == PlanWith(props.nodes, props.masters, props.env.pools[..], c.makeMaster, c.makeWorker);
      var err := c.Populate();
      if err.Some? {
        return Failure(err.value);
      }
      return Success(c);
    }
  }

  lemma ModNext(i: nat, n: nat)
    requires n > 0
    ensures (i + 1) % n == if i % n + 1 == n then 0 else i % n + 1
  {
    var q, r := i / n, i % n;
    if r + 1 == n {
      ModUnique(i + 1, n, q + 1, 0);
    } else {
      ModUnique(i + 1, n, q, r + 1);
    }
  }
}
