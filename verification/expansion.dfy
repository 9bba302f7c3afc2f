/** The expansion step shared by the linear and component generators of
    wordmill/algorithms.py: an Inventory of `l + r` gets a new Machine(l, r)
    fed by two new Inventories, each of which may also be fed by its Source. */
module Expansion {
  import opened Outcomes
  import opened Words
  import opened Nodes
  import opened Construction

  /** The nodes an expansion adds: Machine(l, r), Inventory(l), Inventory(r). */
  function NewNodes(l: Word, r: Word): seq<Shape> {
    [MachineOf(l, r), InventoryOf(l), InventoryOf(r)]
  }

  /** The edge from a Source to a new Inventory, when there is a Source. */
  function Supply(o: Option<nat>, k: nat): seq<Edge> {
    if o.Some? then [Edge(o.value, k)] else []
  }

  /** The edges an expansion forms, in the order of the source, when the new
      nodes start at index `n`: Machine -> the expanded Inventory,
      Source(l) -> Inventory(l), Inventory(l) -> Machine,
      Inventory(r) -> Machine, Source(r) -> Inventory(r). */
  function NewEdges(n: nat, inv: nat, s: Option<nat>, t: Option<nat>): seq<Edge> {
    [Edge(n, inv)] + Supply(s, n + 1) + [Edge(n + 1, n), Edge(n + 2, n)] + Supply(t, n + 2)
  }

  /** What an expansion needs: `inv` holds `l + r`, and the Sources it draws
      on hold `l` and `r`. */
  ghost predicate CanExpand(g: Graph, inv: nat, l: Word, r: Word, s: Option<nat>, t: Option<nat>) {
    && IsInventoryAt(g, inv, l + r)
    && (s.Some? ==> IsSourceAt(g, s.value, l))
    && (t.Some? ==> IsSourceAt(g, t.value, r))
  }

  lemma NewEdgeFeeds(g: Graph, inv: nat, l: Word, r: Word, s: Option<nat>, t: Option<nat>, e: Edge)
    requires CanExpand(g, inv, l, r, s, t)
    requires e in NewEdges(|g|, inv, s, t)
    ensures var g1 := AddNodes(g, NewNodes(l, r));
      e.from < |g1| && e.to < |g1| && Feeds(g1[e.from].shape, g1[e.to].shape)
  {
    var g1 := AddNodes(g, NewNodes(l, r));
    var n := |g|;
    assert g1[n].shape == MachineOf(l, r);
    assert g1[n + 1].shape == InventoryOf(l);
    assert g1[n + 2].shape == InventoryOf(r);
    NewEdgesCases(n, inv, s, t, e);
  }

  lemma NewEdgesCases(n: nat, inv: nat, s: Option<nat>, t: Option<nat>, e: Edge)
    requires e in NewEdges(n, inv, s, t)
    ensures || e == Edge(n, inv) || (s.Some? && e == Edge(s.value, n + 1)) || e == Edge(n + 1, n)
            || e == Edge(n + 2, n) || (t.Some? && e == Edge(t.value, n + 2))
  {
  }

  lemma NewEdgesAdmissible(g: Graph, inv: nat, l: Word, r: Word, s: Option<nat>, t: Option<nat>)
    requires CanExpand(g, inv, l, r, s, t)
    ensures EdgesAdmissible(AddNodes(g, NewNodes(l, r)), NewEdges(|g|, inv, s, t))
  {
    forall e | e in NewEdges(|g|, inv, s, t)
      ensures var g1 := AddNodes(g, NewNodes(l, r));
        e.from < |g1| && e.to < |g1| && Feeds(g1[e.from].shape, g1[e.to].shape)
    {
      NewEdgeFeeds(g, inv, l, r, s, t, e);
    }
  }

  /** The edges of an expansion, one by one. */
  lemma NewEdgesListed(n: nat, inv: nat, s: Option<nat>, t: Option<nat>)
    ensures Edge(n, inv) in NewEdges(n, inv, s, t)
    ensures Edge(n + 1, n) in NewEdges(n, inv, s, t) && Edge(n + 2, n) in NewEdges(n, inv, s, t)
    ensures s.Some? ==> Edge(s.value, n + 1) in NewEdges(n, inv, s, t)
    ensures t.Some? ==> Edge(t.value, n + 2) in NewEdges(n, inv, s, t)
  {
    var es := NewEdges(n, inv, s, t);
    var k := |Supply(s, n + 1)|;
    assert es[0] == Edge(n, inv);
    assert es[k + 1] == Edge(n + 1, n) && es[k + 2] == Edge(n + 2, n);
    if s.Some? {
      assert es[1] == Edge(s.value, n + 1);
    }
    if t.Some? {
      assert es[k + 3] == Edge(t.value, n + 2);
    }
  }

  /** The arena part of an expansion: Machine(l, r) feeding `inv`, a new
      Inventory(l) feeding the Machine, fed by Source `s` when there is one,
      and a new Inventory(r) likewise with Source `t`. */
  function Expand(g: Graph, inv: nat, l: Word, r: Word, s: Option<nat>, t: Option<nat>): (g': Graph)
    requires CanExpand(g, inv, l, r, s, t)
    ensures |g'| == |g| + 3 && Recorded(g', NewEdges(|g|, inv, s, t))
  {
    NewEdgesAdmissible(g, inv, l, r, s, t);
    Wire(AddNodes(g, NewNodes(l, r)), NewEdges(|g|, inv, s, t))
  }

  /** An expansion keeps every old node and edge and adds only a Machine and
      Inventories. */
  lemma ExpandGrows(g: Graph, inv: nat, l: Word, r: Word, s: Option<nat>, t: Option<nat>)
    requires CanExpand(g, inv, l, r, s, t)
    ensures Grows(g, Expand(g, inv, l, r, s, t))
  {
    hide Wire, AddNodes, Connect;
    NewEdgesAdmissible(g, inv, l, r, s, t);
    GrowsByAdding(g, NewNodes(l, r), Wire(AddNodes(g, NewNodes(l, r)), NewEdges(|g|, inv, s, t)));
  }

  /** The new nodes are the Machine and the two Inventories, in that order. */
  lemma ExpandShapes(g: Graph, inv: nat, l: Word, r: Word, s: Option<nat>, t: Option<nat>)
    requires CanExpand(g, inv, l, r, s, t)
    ensures var g' := Expand(g, inv, l, r, s, t);
      g'[|g|].shape == MachineOf(l, r) && g'[|g| + 1].shape == InventoryOf(l) && g'[|g| + 2].shape == InventoryOf(r)
  {
    hide Wire, AddNodes, Connect;
    var g1 := AddNodes(g, NewNodes(l, r));
    NewEdgesAdmissible(g, inv, l, r, s, t);
    var g' := Wire(g1, NewEdges(|g|, inv, s, t));
    assert g'[|g|].shape == g1[|g|].shape;
  }

  lemma ExpandKeepsWired(g: Graph, inv: nat, l: Word, r: Word, s: Option<nat>, t: Option<nat>)
    requires CanExpand(g, inv, l, r, s, t)
    ensures Wired(g) ==> Wired(Expand(g, inv, l, r, s, t))
  {
    hide Wire, AddNodes, Connect;
    NewEdgesAdmissible(g, inv, l, r, s, t);
    AddNodesKeepsWired(g, NewNodes(l, r));
    WireKeepsWired(AddNodes(g, NewNodes(l, r)), NewEdges(|g|, inv, s, t));
  }

  /** A list holding two different values has at least two entries. */
  lemma TwoEntries(s: seq<nat>, x: nat, y: nat)
    requires x in s && y in s && x != y
    ensures |s| >= 2
  {
  }

  /** The Machine an expansion creates is fully connected. */
  lemma MachineConnected(g': Graph, n: nat, inv: nat, s: Option<nat>, t: Option<nat>, l: Word, r: Word)
    requires Recorded(g', NewEdges(n, inv, s, t))
    requires g'[n].shape == MachineOf(l, r) && g'[n + 1].shape == InventoryOf(l) && g'[n + 2].shape == InventoryOf(r)
    ensures FullyConnected(g', n)
  {
    NewEdgesListed(n, inv, s, t);
    TwoEntries(g'[n].inputNodes, n + 1, n + 2);
    assert WordOf(g'[n + 1].shape) == l && WordOf(g'[n + 2].shape) == r;
    assert l in InWords(g', n) && r in InWords(g', n);
  }

  /** A new Inventory with a Source is fully connected. */
  lemma LeftConnected(g': Graph, n: nat, inv: nat, s: Option<nat>, t: Option<nat>, l: Word)
    requires Recorded(g', NewEdges(n, inv, s, t))
    requires s.Some? && g'[n + 1].shape == InventoryOf(l) && g'[s.value].shape == SourceOf(l)
    ensures FullyConnected(g', n + 1)
  {
    NewEdgesListed(n, inv, s, t);
    assert WordOf(g'[s.value].shape) == l && l in InWords(g', n + 1);
  }

  lemma RightConnected(g': Graph, n: nat, inv: nat, s: Option<nat>, t: Option<nat>, r: Word)
    requires Recorded(g', NewEdges(n, inv, s, t))
    requires t.Some? && g'[n + 2].shape == InventoryOf(r) && g'[t.value].shape == SourceOf(r)
    ensures FullyConnected(g', n + 2)
  {
    NewEdgesListed(n, inv, s, t);
    assert WordOf(g'[t.value].shape) == r && r in InWords(g', n + 2);
  }

  /** The expanded Inventory is fed by the new Machine; it is fully connected
      once it also feeds something. */
  lemma TargetConnected(g': Graph, n: nat, inv: nat, s: Option<nat>, t: Option<nat>, l: Word, r: Word)
    requires Recorded(g', NewEdges(n, inv, s, t))
    requires g'[n].shape == MachineOf(l, r) && g'[inv].shape == InventoryOf(l + r)
    requires |g'[inv].outputNodes| > 0
    ensures FullyConnected(g', inv)
  {
    NewEdgesListed(n, inv, s, t);
    assert WordOf(g'[n].shape) == l + r && l + r in InWords(g', inv);
  }

  /** Everything an expansion is known to do, in one place: `g'` grows `g`
      by the Machine and the two Inventories, linked as listed. */
  ghost predicate Expanded(g: Graph, g': Graph, inv: nat, l: Word, r: Word, s: Option<nat>, t: Option<nat>) {
    && |g'| == |g| + 3 && Grows(g, g')
    && g'[|g|].shape == MachineOf(l, r) && g'[|g| + 1].shape == InventoryOf(l) && g'[|g| + 2].shape == InventoryOf(r)
    && Recorded(g', NewEdges(|g|, inv, s, t))
  }

  /** The Machine of an expansion puts the two new Inventories together
      into the expanded one. */
  lemma ExpandedCombines(g: Graph, g': Graph, inv: nat, l: Word, r: Word, s: Option<nat>, t: Option<nat>)
    requires Expanded(g, g', inv, l, r, s, t) && IsInventoryAt(g, inv, l + r)
    ensures Combines(g', |g|, l, r, |g| + 1, |g| + 2, inv)
  {
    var n := |g|;
    var es := NewEdges(n, inv, s, t);
    assert Recorded(g', es) && Grows(g, g');
    assert g'[n].shape == MachineOf(l, r) && g'[n + 1].shape == InventoryOf(l) && g'[n + 2].shape == InventoryOf(r);
    hide Expanded, NewEdges, Recorded, Grows;
    NewEdgesListed(n, inv, s, t);
    InventoryStays(g, g', inv, l + r);
    RecordedEdge(g', es, Edge(n, inv));
    RecordedEdge(g', es, Edge(n + 1, n));
    RecordedEdge(g', es, Edge(n + 2, n));
  }

  lemma ExpandFacts(g: Graph, inv: nat, l: Word, r: Word, s: Option<nat>, t: Option<nat>)
    requires CanExpand(g, inv, l, r, s, t)
    ensures Expanded(g, Expand(g, inv, l, r, s, t), inv, l, r, s, t)
  {
    ExpandGrows(g, inv, l, r, s, t);
    ExpandShapes(g, inv, l, r, s, t);
  }
}
