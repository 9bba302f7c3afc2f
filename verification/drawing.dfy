/** An arena written down the way the tests write their expected networks:
    the shapes of its nodes and the edges formed between them, in order.
    Every generator only ever adds nodes and forms edges, so what it builds
    is such a drawing; the lemmas here turn each building operation into a
    longer list of shapes or of edges. */
module Drawing {
  import opened Outcomes
  import opened Words
  import opened Nodes
  import opened Construction
  import opened Expansion

  /** The arena of unconnected nodes of the given shapes. */
  function Bare(shapes: seq<Shape>): (g: Graph)
    ensures |g| == |shapes|
    ensures forall i | 0 <= i < |g| :: g[i] == Fresh(shapes[i])
  {
    seq(|shapes|, i requires 0 <= i < |shapes| => Fresh(shapes[i]))
  }

  /** Every edge joins two nodes of an arena of `n` nodes. */
  ghost predicate Within(n: nat, edges: seq<Edge>) {
    forall k | 0 <= k < |edges| :: edges[k].from < n && edges[k].to < n
  }

  /** The edges formed in order, each recorded at the end of its producer's
      output list and of its consumer's input list; an edge naming a node
      outside the arena is passed over. Shapes never change. */
  function Links(g: Graph, edges: seq<Edge>): (r: Graph)
    ensures |r| == |g| && forall i | 0 <= i < |g| :: r[i].shape == g[i].shape
    decreases |edges|
  {
    if edges == [] then g
    else
      var e := edges[0];
      Links(if e.from < |g| && e.to < |g| then Link(g, e.from, e.to) else g, edges[1..])
  }

  /** The network of the given nodes and edges. */
  function Network(shapes: seq<Shape>, edges: seq<Edge>): Graph {
    Links(Bare(shapes), edges)
  }

  /** A network without edges is its bare nodes. */
  lemma NetworkBare(shapes: seq<Shape>)
    ensures Within(|shapes|, []) && Network(shapes, []) == Bare(shapes)
  {
  }

  /** A network has one node per shape, of that shape. */
  lemma Shaped(shapes: seq<Shape>, edges: seq<Edge>)
    requires Within(|shapes|, edges)
    ensures |Network(shapes, edges)| == |shapes|
    ensures forall i | 0 <= i < |shapes| :: Network(shapes, edges)[i].shape == shapes[i]
  {
  }

  /** The producers of node `i`, in the order their edges were formed. */
  function Producers(edges: seq<Edge>, i: nat): (r: seq<nat>)
    ensures forall a :: a in r <==> Edge(a, i) in edges
    decreases |edges|
  {
    if edges == [] then []
    else
      var n := |edges| - 1;
      assert forall e :: e in edges <==> e in edges[..n] || e == edges[n];
      Producers(edges[..n], i) + (if edges[n].to == i then [edges[n].from] else [])
  }

  /** The consumers of node `i`, in the order their edges were formed. */
  function Consumers(edges: seq<Edge>, i: nat): (r: seq<nat>)
    ensures forall c :: c in r <==> Edge(i, c) in edges
    decreases |edges|
  {
    if edges == [] then []
    else
      var n := |edges| - 1;
      assert forall e :: e in edges <==> e in edges[..n] || e == edges[n];
      Consumers(edges[..n], i) + (if edges[n].from == i then [edges[n].to] else [])
  }

  // ---------------------------------------------------------------------
  // Reading a network node by node

  lemma {:induction false} LinksSnoc(g: Graph, edges: seq<Edge>, e: Edge)
    requires Within(|g|, edges) && e.from < |g| && e.to < |g|
    ensures Within(|g|, edges + [e])
    ensures Links(g, edges + [e]) == Link(Links(g, edges), e.from, e.to)
    decreases |edges|
  {
    if edges != [] {
      var g1 := Link(g, edges[0].from, edges[0].to);
      assert (edges + [e])[1..] == edges[1..] + [e];
      LinksSnoc(g1, edges[1..], e);
    }
  }

  /** Node `i` of a network has its own shape, its producers as inputs and
      its consumers as outputs, each in the order the edges were formed. */
  lemma {:induction false} NetworkNodes(shapes: seq<Shape>, edges: seq<Edge>)
    requires Within(|shapes|, edges)
    ensures forall i | 0 <= i < |shapes| ::
      Network(shapes, edges)[i] == Node(shapes[i], Producers(edges, i), Consumers(edges, i))
    decreases |edges|
  {
    if edges != [] {
      var n := |edges| - 1;
      var e := edges[n];
      assert Within(|shapes|, edges[..n]);
      NetworkNodes(shapes, edges[..n]);
      assert edges[..n] + [e] == edges;
      LinksSnoc(Bare(shapes), edges[..n], e);
      var g := Links(Bare(shapes), edges[..n]);
      forall i | 0 <= i < |shapes|
        ensures Network(shapes, edges)[i] == Node(shapes[i], Producers(edges, i), Consumers(edges, i))
      {
        LinkedNode(g, e.from, e.to, i);
      }
    }
  }

  /** Forming the edge from `a` to `c` adds `a` to the inputs of `c` and `c`
      to the outputs of `a`, and changes no other list. */
  lemma LinkedNode(g: Graph, a: nat, c: nat, i: nat)
    requires a < |g| && c < |g| && i < |g|
    ensures Link(g, a, c)[i] == Node(g[i].shape,
      g[i].inputNodes + (if c == i then [a] else []),
      g[i].outputNodes + (if a == i then [c] else []))
  {
  }

  // ---------------------------------------------------------------------
  // Building operations on networks

  lemma LinkAppend(g: Graph, h: Graph, a: nat, c: nat)
    requires a < |g| && c < |g|
    ensures Link(g + h, a, c) == Link(g, a, c) + h
  {
    assert |Link(g + h, a, c)| == |Link(g, a, c) + h|;
    forall i | 0 <= i < |g| + |h|
      ensures Link(g + h, a, c)[i] == (Link(g, a, c) + h)[i]
    {
    }
  }

  /** Nodes added after some edges were formed do not change those edges. */
  lemma {:induction false} LinksAppend(g: Graph, h: Graph, edges: seq<Edge>)
    requires Within(|g|, edges)
    ensures Within(|g + h|, edges)
    ensures Links(g + h, edges) == Links(g, edges) + h
    decreases |edges|
  {
    if edges != [] {
      LinkAppend(g, h, edges[0].from, edges[0].to);
      LinksAppend(Link(g, edges[0].from, edges[0].to), h, edges[1..]);
    }
  }

  lemma {:induction false} LinksConcat(g: Graph, e1: seq<Edge>, e2: seq<Edge>)
    requires Within(|g|, e1) && Within(|g|, e2)
    ensures Within(|g|, e1 + e2)
    ensures Links(Links(g, e1), e2) == Links(g, e1 + e2)
    decreases |e1|
  {
    if e1 != [] {
      assert (e1 + e2)[0] == e1[0] && (e1 + e2)[1..] == e1[1..] + e2;
      LinksConcat(Link(g, e1[0].from, e1[0].to), e1[1..], e2);
    } else {
      assert e1 + e2 == e2;
    }
  }

  lemma BareConcat(s1: seq<Shape>, s2: seq<Shape>)
    ensures Bare(s1) + Bare(s2) == Bare(s1 + s2)
  {
  }

  /** Adding nodes to a network lengthens its shape list. */
  lemma Grown(shapes: seq<Shape>, edges: seq<Edge>, more: seq<Shape>)
    requires Within(|shapes|, edges)
    ensures Within(|shapes + more|, edges)
    ensures Network(shapes, edges) + Bare(more) == Network(shapes + more, edges)
  {
    LinksAppend(Bare(shapes), Bare(more), edges);
    BareConcat(shapes, more);
  }

  /** A constructor call on a network lengthens its shape list by one. */
  lemma Added(shapes: seq<Shape>, edges: seq<Edge>, s: Shape)
    requires Within(|shapes|, edges)
    ensures Within(|shapes + [s]|, edges)
    ensures AddNode(Network(shapes, edges), s) == (Network(shapes + [s], edges), |shapes|)
  {
    Grown(shapes, edges, [s]);
    assert Bare([s]) == [Fresh(s)];
  }

  /** Forming edges on a network lengthens its edge list. */
  lemma Extended(shapes: seq<Shape>, edges: seq<Edge>, more: seq<Edge>)
    requires Within(|shapes|, edges) && Within(|shapes|, more)
    ensures Within(|shapes|, edges + more)
    ensures Links(Network(shapes, edges), more) == Network(shapes, edges + more)
  {
    LinksConcat(Bare(shapes), edges, more);
  }

  /** A checked `form_edge` is the unchecked one. */
  lemma {:induction false} WireLinks(g: Graph, edges: seq<Edge>)
    requires EdgesAdmissible(g, edges)
    ensures Within(|g|, edges) && Wire(g, edges) == Links(g, edges)
    decreases |edges|
  {
    if edges != [] {
      var Edge(a, c) := edges[0];
      AdmissibleIffFeeds(g[a].shape, g[c].shape);
      WireLinks(Connect(g, a, c), edges[1..]);
    }
  }

  /** A `form_edge` call on a network lengthens its edge list by one. */
  lemma Connected(shapes: seq<Shape>, edges: seq<Edge>, a: nat, c: nat)
    requires Within(|shapes|, edges) && a < |shapes| && c < |shapes|
    requires Admissible(shapes[a], shapes[c])
    ensures Within(|shapes|, edges + [Edge(a, c)])
    ensures Connect(Network(shapes, edges), a, c) == Network(shapes, edges + [Edge(a, c)])
  {
    Extended(shapes, edges, [Edge(a, c)]);
  }

  /** An expansion on a network adds its three nodes and then its edges. */
  lemma ExpandedNetwork(shapes: seq<Shape>, edges: seq<Edge>, inv: nat, l: Word, r: Word, s: Option<nat>, t: Option<nat>)
    requires Within(|shapes|, edges)
    requires CanExpand(Network(shapes, edges), inv, l, r, s, t)
    ensures Within(|shapes| + 3, edges + NewEdges(|shapes|, inv, s, t))
    ensures Expand(Network(shapes, edges), inv, l, r, s, t)
      == Network(shapes + NewNodes(l, r), edges + NewEdges(|shapes|, inv, s, t))
  {
    hide *;
    var g := Network(shapes, edges);
    var more := NewNodes(l, r);
    var es := NewEdges(|shapes|, inv, s, t);
    ExpandUnfolded(shapes, edges, inv, l, r, s, t);
    Grown(shapes, edges, more);
    WireLinks(AddNodes(g, more), es);
    Extended(shapes + more, edges, es);
  }

  /** An expansion on a network is its new edges wired onto its new nodes. */
  lemma ExpandUnfolded(shapes: seq<Shape>, edges: seq<Edge>, inv: nat, l: Word, r: Word, s: Option<nat>, t: Option<nat>)
    requires CanExpand(Network(shapes, edges), inv, l, r, s, t)
    ensures var g := Network(shapes, edges);
      && |g| == |shapes| && |NewNodes(l, r)| == 3
      && AddNodes(g, NewNodes(l, r)) == g + Bare(NewNodes(l, r))
      && EdgesAdmissible(AddNodes(g, NewNodes(l, r)), NewEdges(|shapes|, inv, s, t))
      && Expand(g, inv, l, r, s, t) == Wire(AddNodes(g, NewNodes(l, r)), NewEdges(|shapes|, inv, s, t))
  {
    var g := Network(shapes, edges);
    AddedBare(g, NewNodes(l, r));
    ExpandWires(g, inv, l, r, s, t);
  }

  /** Adding nodes appends their bare forms. */
  lemma AddedBare(g: Graph, more: seq<Shape>)
    ensures AddNodes(g, more) == g + Bare(more)
  {
  }

  /** An expansion wires its new edges onto the arena with its new nodes. */
  lemma ExpandWires(g: Graph, inv: nat, l: Word, r: Word, s: Option<nat>, t: Option<nat>)
    requires CanExpand(g, inv, l, r, s, t)
    ensures EdgesAdmissible(AddNodes(g, NewNodes(l, r)), NewEdges(|g|, inv, s, t))
    ensures Expand(g, inv, l, r, s, t) == Wire(AddNodes(g, NewNodes(l, r)), NewEdges(|g|, inv, s, t))
  {
    NewEdgesAdmissible(g, inv, l, r, s, t);
  }

  /** The sink loop's body on a network: a new Inventory feeding the Sink. */
  lemma Supplied(b: Build, src: Sources, w: Word, s: nat, shapes: seq<Shape>, edges: seq<Edge>)
    requires Within(|shapes|, edges) && b.g == Network(shapes, edges)
    requires Fits(b, src) && IsSinkAt(b.g, s, w)
    ensures Within(|shapes| + 1, edges + [Edge(|shapes|, s)])
    ensures SupplyOne(b, src, w, s) == Build(
      Network(shapes + [InventoryOf(w)], edges + [Edge(|shapes|, s)]),
      b.pending + [Pending(|shapes|, w)], b.invs[w := |shapes|], b.machines)
  {
    SupplyShapes(w);
    Added(shapes, edges, InventoryOf(w));
    Connected(shapes + [InventoryOf(w)], edges, |shapes|, s);
  }
  /** Feeding a queued word from its Source on a network forms one edge. */
  lemma Fed(b: Build, src: Sources, p: Pending, shapes: seq<Shape>, edges: seq<Edge>)
    requires Within(|shapes|, edges) && b.g == Network(shapes, edges)
    requires Fits(b, src) && IsInventoryAt(b.g, p.inv, p.word) && p.word in src
    ensures Within(|shapes|, edges + [Edge(src[p.word], p.inv)])
    ensures Feed(b, src, p) == b.(g := Network(shapes, edges + [Edge(src[p.word], p.inv)]))
  {
    SupplyShapes(p.word);
    assert IsSourceAt(b.g, src[p.word], p.word);
    hide Fits, Network;
    Shaped(shapes, edges);
    Connected(shapes, edges, src[p.word], p.inv);
  }
}
