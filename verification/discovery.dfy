/** AssemblySystem: discovery of a network from a seed set of nodes, and the
    typed query on the discovered system (wordmill/node_types.py; the text of
    wordmill/wordmill.py is the same). */
module Discovery {
  import opened Outcomes
  import opened Nodes

  /** An assembly system: the arena and the indices of its member nodes. */
  datatype System = System(g: Graph, nodes: set<nat>)

  /** No member has a neighbour outside the set. */
  ghost predicate Closed(g: Graph, s: set<nat>) {
    forall i | i in s :: i < |g| && Neighbors(g, i) <= s
  }

  /** `d` is the neighbour closure of `seeds`: it contains them, is closed, and
      lies inside every closed set that contains them (so it holds only nodes
      reachable from the seeds). */
  ghost predicate IsClosure(g: Graph, seeds: set<nat>, d: set<nat>) {
    && seeds <= d
    && Closed(g, d)
    && forall t | seeds <= t && Closed(g, t) :: d <= t
  }

  /** The closure of a seed set is unique, so the traversal order of the
      worklist cannot affect the discovered set. */
  lemma ClosureUnique(g: Graph, seeds: set<nat>, d1: set<nat>, d2: set<nat>)
    requires IsClosure(g, seeds, d1) && IsClosure(g, seeds, d2)
    ensures d1 == d2
  {
  }

  /** Discovering again from a discovered set finds that same set. */
  lemma RediscoverSame(g: Graph, seeds: set<nat>, d: set<nat>, d2: set<nat>)
    requires IsClosure(g, seeds, d) && IsClosure(g, d, d2)
    ensures d2 == d
  {
  }

  /** The loop invariant of `discover`'s worklist: every discovered node has
      its neighbours discovered or queued, and nothing outside the closure is
      ever reached. */
  ghost predicate Frontier(g: Graph, seeds: set<nat>, untreated: set<nat>, d: set<nat>) {
    && (forall x | x in untreated + d :: x < |g|)
    && seeds <= untreated + d
    && (forall x | x in d :: Neighbors(g, x) <= d + untreated)
    && (forall t | seeds <= t && Closed(g, t) :: untreated + d <= t)
  }

  /** One iteration of the loop keeps the invariant. */
  lemma FrontierStep(g: Graph, seeds: set<nat>, untreated: set<nat>, d: set<nat>, n: nat)
    requires WF(g) && Frontier(g, seeds, untreated, d) && n in untreated
    ensures n < |g| && (n in d ==> Neighbors(g, n) - d <= untreated - {n})
    ensures Frontier(g, seeds, (untreated - {n}) + (Neighbors(g, n) - d), d + {n})
  {
    var u' := (untreated - {n}) + (Neighbors(g, n) - d);
    var d' := d + {n};
    forall t | seeds <= t && Closed(g, t)
      ensures u' + d' <= t
    {
      assert n in t;
    }
  }

  /** Before the loop, the seeds are queued and nothing is discovered. */
  lemma FrontierInit(g: Graph, seeds: set<nat>)
    requires forall s | s in seeds :: s < |g|
    ensures Frontier(g, seeds, seeds, {})
  {
  }

  /** When the worklist runs empty, the discovered set is the closure. */
  lemma FrontierDone(g: Graph, seeds: set<nat>, d: set<nat>)
    requires Frontier(g, seeds, {}, d)
    ensures IsClosure(g, seeds, d)
  {
    assert Closed(g, d);
  }

  /** The termination measure of the loop: either one more node of the arena
      is discovered, or an already discovered node leaves the worklist. */
  lemma WorklistShrinks(all: set<nat>, untreated: set<nat>, d: set<nat>, n: nat, nbrs: set<nat>)
    requires d <= all && n in untreated && n in all
    requires n in d ==> nbrs - d <= untreated - {n}
    ensures var u' := (untreated - {n}) + (nbrs - d);
      || |all - (d + {n})| < |all - d|
      || (|all - (d + {n})| == |all - d| && |u'| < |untreated|)
  {
    var u' := (untreated - {n}) + (nbrs - d);
    if n in d {
      assert d + {n} == d;
      assert u' == untreated - {n};
    } else {
      assert all - (d + {n}) == (all - d) - {n};
    }
  }

  /** The `while untreated_nodes` loop of `discover`: pop any untreated node,
      queue its neighbours not yet discovered, mark it discovered. */
  method Closure(g: Graph, seeds: set<nat>) returns (d: set<nat>)
    requires WF(g)
    requires forall s | s in seeds :: s < |g|
    ensures IsClosure(g, seeds, d)
  {
    ghost var all := Slots(|g|);
    var untreated := seeds;
    d := {};
    FrontierInit(g, seeds);
    hide Frontier, IsClosure, Closed;
    while untreated != {}
      invariant Frontier(g, seeds, untreated, d)
      invariant d <= all
      decreases |all - d|, |untreated|
    {
      var n :| n in untreated;
      FrontierStep(g, seeds, untreated, d, n);
      WorklistShrinks(all, untreated, d, n, Neighbors(g, n));
      untreated := (untreated - {n}) + (Neighbors(g, n) - d);
      d := d + {n};
    }
    FrontierDone(g, seeds, d);
  }

  /** `discover`: the closure of the seeds, accepted only when every
      discovered node is fully connected. */
  method Discover(g: Graph, seeds: set<nat>) returns (r: Result<System>)
    requires WF(g)
    requires forall s | s in seeds :: s < |g|
    ensures r.Ok? ==> r.value.g == g && IsClosure(g, seeds, r.value.nodes)
    ensures r.Ok? ==> forall i | i in r.value.nodes :: i < |g| && FullyConnected(g, i)
    ensures r.Err? ==> r.error == IncompleteGraph
    ensures r.Err? ==> forall d | IsClosure(g, seeds, d) ::
      exists i | i in d :: i < |g| && !FullyConnected(g, i)
    ensures (forall i | 0 <= i < |g| :: FullyConnected(g, i)) ==> r.Ok?
  {
    var d := Closure(g, seeds);
    if forall i | i in d :: FullyConnected(g, i) {
      r := Ok(System(g, d));
    } else {
      r := Err(IncompleteGraph);
      forall d' | IsClosure(g, seeds, d')
        ensures exists i | i in d' :: i < |g| && !FullyConnected(g, i)
      {
        ClosureUnique(g, seeds, d, d');
      }
    }
  }

  /** `get_nodes_of_type`: the members of kind `k`, each listed once. */
  method NodesOfKind(s: System, k: Kind) returns (r: seq<nat>)
    requires forall i | i in s.nodes :: i < |s.g|
    ensures forall i :: i in r <==> i in s.nodes && KindOf(s.g[i].shape) == k
    ensures forall x, y | 0 <= x < y < |r| :: r[x] != r[y]
  {
    r := [];
    var rest := s.nodes;
    while rest != {}
      invariant rest <= s.nodes
      invariant forall i :: i in r <==> i in s.nodes - rest && KindOf(s.g[i].shape) == k
      invariant forall x, y | 0 <= x < y < |r| :: r[x] != r[y]
      decreases |rest|
    {
      var n :| n in rest;
      if KindOf(s.g[n].shape) == k {
        r := r + [n];
      }
      rest := rest - {n};
    }
  }
}
