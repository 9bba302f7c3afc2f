/** The node model of an assembly network (wordmill/node_types.py): four node
    kinds with fixed input and output words, an arena of nodes addressed by
    index, the checked edge protocol and the fully-connected predicate. */
module Nodes {
  import opened Outcomes
  import opened Words

  datatype Kind = Source | Inventory | Machine | Sink

  /** A node's kind together with the words it was constructed from. */
  datatype Shape =
    | SourceOf(w: Word)
    | InventoryOf(w: Word)
    | MachineOf(left: Word, right: Word)
    | SinkOf(w: Word)

  function KindOf(s: Shape): Kind {
    match s
    case SourceOf(_) => Source
    case InventoryOf(_) => Inventory
    case MachineOf(_, _) => Machine
    case SinkOf(_) => Sink
  }

  /** The words a node must receive. */
  function Inputs(s: Shape): seq<Word> {
    match s
    case SourceOf(_) => []
    case InventoryOf(w) => [w]
    case MachineOf(l, r) => [l, r]
    case SinkOf(w) => [w]
  }

  /** The words a node provides. */
  function Outputs(s: Shape): seq<Word> {
    match s
    case SourceOf(w) => [w]
    case InventoryOf(w) => [w]
    case MachineOf(l, r) => [l + r]
    case SinkOf(_) => []
  }

  /** The `word` property: the first output, except for a Sink, which has
      no outputs and reports its first input. */
  function WordOf(s: Shape): (w: Word)
    ensures s.SinkOf? ==> Inputs(s) == [w]
    ensures !s.SinkOf? ==> Outputs(s) == [w]
  {
    if s.SinkOf? then Inputs(s)[0] else Outputs(s)[0]
  }

  /** A node of the arena: its shape and its neighbour lists (indices into
      the arena; duplicates are parallel edges). */
  datatype Node = Node(shape: Shape, inputNodes: seq<nat>, outputNodes: seq<nat>)

  type Graph = seq<Node>

  /** A node as its constructor leaves it: no neighbours yet. */
  function Fresh(s: Shape): Node {
    Node(s, [], [])
  }

  /** The kinds a node of kind `k` may feed (allowed_output_node_class_names). */
  function AllowedOut(k: Kind): set<Kind> {
    match k
    case Source => {Inventory}
    case Inventory => {Sink, Machine}
    case Machine => {Inventory}
    case Sink => {}
  }

  /** The kinds a node of kind `k` may be fed by (allowed_input_node_class_names). */
  function AllowedIn(k: Kind): set<Kind> {
    match k
    case Source => {}
    case Inventory => {Source, Machine}
    case Machine => {Inventory}
    case Sink => {Inventory}
  }

  /** Producer outputs and consumer inputs have a word in common. */
  predicate SharesProduct(p: Shape, c: Shape) {
    exists x | x in Outputs(p) :: x in Inputs(c)
  }

  /** Everything `form_edge` of node_types.py checks: a shared product and the
      kind table read from both ends. */
  predicate Admissible(p: Shape, c: Shape) {
    && SharesProduct(p, c)
    && KindOf(c) in AllowedOut(KindOf(p))
    && KindOf(p) in AllowedIn(KindOf(c))
  }

  /** The edges an assembly network can have, by shape: Source(w) ->
      Inventory(w), Inventory(w) -> Sink(w), Inventory(x) -> a Machine with
      input x, and Machine(l, r) -> Inventory(l + r). */
  predicate Feeds(p: Shape, c: Shape) {
    match (p, c)
    case (SourceOf(w), InventoryOf(v)) => w == v
    case (InventoryOf(w), SinkOf(v)) => w == v
    case (InventoryOf(w), MachineOf(l, r)) => w == l || w == r
    case (MachineOf(l, r), InventoryOf(v)) => l + r == v
    case _ => false
  }

  /** The kind tables and the shared-product check together admit exactly
      those four edge shapes. */
  lemma AdmissibleIffFeeds(p: Shape, c: Shape)
    ensures Admissible(p, c) <==> Feeds(p, c)
  {
    if Feeds(p, c) {
      assert WordOf(p) in Outputs(p);
      if c.MachineOf? {
        assert WordOf(p) in Inputs(c);
      } else {
        assert Inputs(c) == [WordOf(p)];
      }
    }
  }

  /** The two kind tables describe the same relation, so an edge rejected by
      one end is rejected by the other. */
  lemma KindTablesAgree(p: Kind, c: Kind)
    ensures c in AllowedOut(p) <==> p in AllowedIn(c)
  {
  }

  /** The tables make the network bipartite: every allowed edge has exactly one
      Inventory end, Sources are never fed and Sinks never feed. */
  lemma KindAlternation(p: Kind, c: Kind)
    requires c in AllowedOut(p)
    ensures (p == Inventory) != (c == Inventory)
    ensures c != Source && p != Sink
  {
  }

  /** Append `b` to the output list of node `a` (nothing is checked). */
  function AppendOut(g: Graph, a: nat, b: nat): (g': Graph)
    requires a < |g|
    ensures |g'| == |g|
    ensures g'[a] == g[a].(outputNodes := g[a].outputNodes + [b])
    ensures forall i | 0 <= i < |g| && i != a :: g'[i] == g[i]
  {
    g[a := g[a].(outputNodes := g[a].outputNodes + [b])]
  }

  /** Append `a` to the input list of node `b` (nothing is checked). */
  function AppendIn(g: Graph, b: nat, a: nat): (g': Graph)
    requires b < |g|
    ensures |g'| == |g|
    ensures g'[b] == g[b].(inputNodes := g[b].inputNodes + [a])
    ensures forall i | 0 <= i < |g| && i != b :: g'[i] == g[i]
  {
    g[b := g[b].(inputNodes := g[b].inputNodes + [a])]
  }

  /** The effect of a successful `form_edge(a, b)`: both ends record the edge. */
  function Link(g: Graph, a: nat, b: nat): Graph
    requires a < |g| && b < |g|
  {
    AppendIn(AppendOut(g, a, b), b, a)
  }

  /** Node.form_outbound_edge: `a` registers `b` as a consumer. */
  function FormOutboundEdge(g: Graph, a: nat, b: nat): (r: Result<Graph>)
    requires a < |g| && b < |g|
    ensures r.Ok? <==> SharesProduct(g[a].shape, g[b].shape) && KindOf(g[b].shape) in AllowedOut(KindOf(g[a].shape))
    ensures !SharesProduct(g[a].shape, g[b].shape) ==> r == Err(ProductMismatch)
    ensures SharesProduct(g[a].shape, g[b].shape) && r.Err? ==> r == Err(KindViolation)
    ensures r.Ok? ==> r.value == AppendOut(g, a, b)
  {
    if !SharesProduct(g[a].shape, g[b].shape) then Err(ProductMismatch)
    else if KindOf(g[b].shape) !in AllowedOut(KindOf(g[a].shape)) then Err(KindViolation)
    else Ok(AppendOut(g, a, b))
  }

  /** Node.form_inbound_edge: `b` registers `a` as a supplier. */
  function FormInboundEdge(g: Graph, b: nat, a: nat): (r: Result<Graph>)
    requires a < |g| && b < |g|
    ensures r.Ok? <==> SharesProduct(g[a].shape, g[b].shape) && KindOf(g[a].shape) in AllowedIn(KindOf(g[b].shape))
    ensures !SharesProduct(g[a].shape, g[b].shape) ==> r == Err(ProductMismatch)
    ensures SharesProduct(g[a].shape, g[b].shape) && r.Err? ==> r == Err(KindViolation)
    ensures r.Ok? ==> r.value == AppendIn(g, b, a)
  {
    if !SharesProduct(g[a].shape, g[b].shape) then Err(ProductMismatch)
    else if KindOf(g[a].shape) !in AllowedIn(KindOf(g[b].shape)) then Err(KindViolation)
    else Ok(AppendIn(g, b, a))
  }

  /** form_edge of node_types.py: the outbound side, then the inbound side.
      It succeeds exactly for admissible pairs, and then both ends hold the
      edge; because the two kind tables agree, it never stops half-way. */
  function FormEdge(g: Graph, a: nat, b: nat): (r: Result<Graph>)
    requires a < |g| && b < |g|
    ensures r.Ok? <==> Admissible(g[a].shape, g[b].shape)
    ensures !SharesProduct(g[a].shape, g[b].shape) ==> r == Err(ProductMismatch)
    ensures SharesProduct(g[a].shape, g[b].shape) && r.Err? ==> r == Err(KindViolation)
    ensures r.Ok? ==> r.value == Link(g, a, b)
    ensures r.Ok? ==> b in r.value[a].outputNodes && a in r.value[b].inputNodes
    ensures r.Ok? ==> b in Neighbors(r.value, a) && a in Neighbors(r.value, b)
  {
    KindTablesAgree(KindOf(g[a].shape), KindOf(g[b].shape));
    var g1 :- FormOutboundEdge(g, a, b);
    FormInboundEdge(g1, b, a)
  }

  /** Node.split_word: both halves must be non-empty. */
  function SplitWord(w: Word, pos: int): (r: Result<(Word, Word)>)
    ensures r.Ok? <==> 1 <= pos <= |w| - 1
    ensures r.Err? ==> r.error == InvalidSplitPosition
    ensures r.Ok? ==> r.value.0 + r.value.1 == w && |r.value.0| == pos
    ensures r.Ok? ==> r.value.0 != [] && r.value.1 != []
  {
    if 1 <= pos <= |w| - 1 then Ok((w[..pos], w[pos..])) else Err(InvalidSplitPosition)
  }

  /** Splitting a concatenation of two non-empty words at the join gives the
      two words back. */
  lemma SplitWordInvertsConcat(l: Word, r: Word)
    requires l != [] && r != []
    ensures SplitWord(l + r, |l|) == Ok((l, r))
  {
    assert (l + r)[..|l|] == l;
    assert (l + r)[|l|..] == r;
  }

  /** The indices of an arena of `n` nodes. */
  function Slots(n: nat): (s: set<nat>)
    ensures forall i: nat :: i in s <==> i < n
    ensures |s| == n
  {
    if n == 0 then {} else Slots(n - 1) + {n - 1}
  }

  /** The `neighbors` property: the set of input and output neighbours. */
  function Neighbors(g: Graph, i: nat): (r: set<nat>)
    requires i < |g|
    ensures forall j :: j in r <==> j in g[i].inputNodes || j in g[i].outputNodes
  {
    (set j | j in g[i].inputNodes) + (set j | j in g[i].outputNodes)
  }

  /** The words supplied by the input neighbours of node `i`. */
  function InWords(g: Graph, i: nat): set<Word>
    requires i < |g|
  {
    set j | j in g[i].inputNodes && j < |g| :: WordOf(g[j].shape)
  }

  /** The `fully_connected` property: enough input neighbours, every required
      input supplied by the word of some input neighbour, enough output
      neighbours. Output words are only counted, not matched. */
  predicate FullyConnected(g: Graph, i: nat)
    requires i < |g|
    ensures FullyConnected(g, i) ==> Neighbors(g, i) != {}
  {
    NeedsSome(g[i].shape);
    assert g[i].inputNodes != [] ==> g[i].inputNodes[0] in Neighbors(g, i);
    assert g[i].outputNodes != [] ==> g[i].outputNodes[0] in Neighbors(g, i);
    && |g[i].inputNodes| >= |Inputs(g[i].shape)|
    && (set x | x in Inputs(g[i].shape)) <= InWords(g, i)
    && |g[i].outputNodes| >= |Outputs(g[i].shape)|
  }

  /** Every shape needs at least one input or one output. */
  lemma NeedsSome(s: Shape)
    ensures |Inputs(s)| + |Outputs(s)| > 0
  {
  }

  /** Every neighbour index addresses a node of the arena. */
  ghost predicate WF(g: Graph) {
    forall i | 0 <= i < |g| ::
      && (forall j | j in g[i].inputNodes :: j < |g|)
      && (forall j | j in g[i].outputNodes :: j < |g|)
  }

  /** Every recorded edge, from either end, would pass the node_types checks. */
  ghost predicate EdgesOk(g: Graph) {
    && (forall a, b | 0 <= a < |g| && b in g[a].outputNodes ::
          b < |g| && Admissible(g[a].shape, g[b].shape))
    && (forall b, a | 0 <= b < |g| && a in g[b].inputNodes ::
          a < |g| && Admissible(g[a].shape, g[b].shape))
  }

  /** Each end records an edge as often as the other end does. */
  ghost predicate Mirrored(g: Graph) {
    forall a, b | 0 <= a < |g| && 0 <= b < |g| :: MirroredAt(g, a, b)
  }

  /** `a` lists `b` as an output exactly as often as `b` lists `a` as an input. */
  ghost predicate MirroredAt(g: Graph, a: nat, b: nat)
    requires a < |g| && b < |g|
  {
    multiset(g[a].outputNodes)[b] == multiset(g[b].inputNodes)[a]
  }

  ghost predicate Wired(g: Graph) {
    WF(g) && EdgesOk(g) && Mirrored(g)
  }

  /** A successful edge keeps the arena well formed, admissible and mirrored. */
  lemma LinkPreservesWiring(g: Graph, a: nat, b: nat)
    requires a < |g| && b < |g|
    requires Admissible(g[a].shape, g[b].shape)
    requires Wired(g)
    ensures Wired(Link(g, a, b))
  {
    KindAlternation(KindOf(g[a].shape), KindOf(g[b].shape));
    LinkPreservesWF(g, a, b);
    LinkPreservesEdgesOk(g, a, b);
    LinkPreservesMirrored(g, a, b);
  }

  lemma LinkPreservesWF(g: Graph, a: nat, b: nat)
    requires a < |g| && b < |g|
    requires WF(g)
    ensures WF(Link(g, a, b))
  {
    var g' := Link(g, a, b);
    forall i | 0 <= i < |g'|
      ensures forall j | j in g'[i].inputNodes :: j < |g'|
      ensures forall j | j in g'[i].outputNodes :: j < |g'|
    {
    }
  }

  /** Linking an admissible pair keeps every edge admissible from its
      consumer-recording end. */
  lemma LinkKeepsOutputsOk(g: Graph, a: nat, b: nat)
    requires a < |g| && b < |g| && a != b
    requires Admissible(g[a].shape, g[b].shape)
    requires forall x, y {:trigger y in g[x].outputNodes} | 0 <= x < |g| && y in g[x].outputNodes :: y < |g| && Admissible(g[x].shape, g[y].shape)
    ensures forall x, y | 0 <= x < |Link(g, a, b)| && y in Link(g, a, b)[x].outputNodes ::
              y < |Link(g, a, b)| && Admissible(Link(g, a, b)[x].shape, Link(g, a, b)[y].shape)
  {
    var g' := Link(g, a, b);
    forall x, y | 0 <= x < |g'| && y in g'[x].outputNodes
      ensures y < |g'| && Admissible(g'[x].shape, g'[y].shape)
    {
      assert |g'| == |g| && g'[x].shape == g[x].shape;
      if x == a {
        assert g'[x].outputNodes == g[x].outputNodes + [b];
      } else {
        assert g'[x].outputNodes == g[x].outputNodes;
      }
      if y in g[x].outputNodes {
        assert y < |g| && Admissible(g[x].shape, g[y].shape);
        assert g'[y].shape == g[y].shape;
      } else {
        assert x == a && y == b && g'[y].shape == g[y].shape;
      }
    }
  }

  /** Linking an admissible pair keeps every edge admissible from its
      supplier-recording end. */
  lemma LinkKeepsInputsOk(g: Graph, a: nat, b: nat)
    requires a < |g| && b < |g| && a != b
    requires Admissible(g[a].shape, g[b].shape)
    requires forall y, x {:trigger x in g[y].inputNodes} | 0 <= y < |g| && x in g[y].inputNodes :: x < |g| && Admissible(g[x].shape, g[y].shape)
    ensures forall y, x | 0 <= y < |Link(g, a, b)| && x in Link(g, a, b)[y].inputNodes ::
              x < |Link(g, a, b)| && Admissible(Link(g, a, b)[x].shape, Link(g, a, b)[y].shape)
  {
    var g' := Link(g, a, b);
    forall y, x | 0 <= y < |g'| && x in g'[y].inputNodes
      ensures x < |g'| && Admissible(g'[x].shape, g'[y].shape)
    {
      assert |g'| == |g| && g'[y].shape == g[y].shape;
      if y == b {
        assert g'[y].inputNodes == g[y].inputNodes + [a];
      } else {
        assert g'[y].inputNodes == g[y].inputNodes;
      }
      if x in g[y].inputNodes {
        assert x < |g| && Admissible(g[x].shape, g[y].shape);
        assert g'[x].shape == g[x].shape;
      } else {
        assert x == a && y == b && g'[x].shape == g[x].shape;
      }
    }
  }

  lemma LinkPreservesEdgesOk(g: Graph, a: nat, b: nat)
    requires a < |g| && b < |g| && a != b
    requires Admissible(g[a].shape, g[b].shape)
    requires EdgesOk(g)
    ensures EdgesOk(Link(g, a, b))
  {
    LinkKeepsOutputsOk(g, a, b);
    LinkKeepsInputsOk(g, a, b);
  }

  lemma LinkPreservesMirrored(g: Graph, a: nat, b: nat)
    requires a < |g| && b < |g| && a != b
    requires Mirrored(g)
    ensures Mirrored(Link(g, a, b))
  {
    var g' := Link(g, a, b);
    forall x, y | 0 <= x < |g'| && 0 <= y < |g'|
      ensures MirroredAt(g', x, y)
    {
      assert MirroredAt(g, x, y);
      if x == a {
        assert g'[x].outputNodes == g[x].outputNodes + [b];
        assert multiset(g'[x].outputNodes) == multiset(g[x].outputNodes) + multiset{b};
      } else {
        assert g'[x].outputNodes == g[x].outputNodes;
      }
      if y == b {
        assert g'[y].inputNodes == g[y].inputNodes + [a];
        assert multiset(g'[y].inputNodes) == multiset(g[y].inputNodes) + multiset{a};
      } else {
        assert g'[y].inputNodes == g[y].inputNodes;
      }
    }
  }

  /** `g'` grows `g`: the same shapes in the old slots, and each old neighbour
      list is a prefix of the new one. */
  ghost predicate Extends(g: Graph, g': Graph) {
    && |g| <= |g'|
    && forall i | 0 <= i < |g| ::
         && g'[i].shape == g[i].shape
         && g[i].inputNodes <= g'[i].inputNodes
         && g[i].outputNodes <= g'[i].outputNodes
  }

  lemma ExtendsTransitive(g1: Graph, g2: Graph, g3: Graph)
    requires Extends(g1, g2) && Extends(g2, g3)
    ensures Extends(g1, g3)
  {
    forall i | 0 <= i < |g1|
      ensures g1[i].inputNodes <= g3[i].inputNodes && g1[i].outputNodes <= g3[i].outputNodes
    {
      PrefixTransitive(g1[i].inputNodes, g2[i].inputNodes, g3[i].inputNodes);
      PrefixTransitive(g1[i].outputNodes, g2[i].outputNodes, g3[i].outputNodes);
    }
  }

  lemma PrefixTransitive(a: seq<nat>, b: seq<nat>, c: seq<nat>)
    requires a <= b && b <= c
    ensures a <= c
  {
    assert c[..|b|] == b;
    assert c[..|a|] == b[..|a|];
  }

  lemma LinkExtends(g: Graph, a: nat, b: nat)
    requires a < |g| && b < |g|
    ensures Extends(g, Link(g, a, b))
  {
    var g' := Link(g, a, b);
    forall i | 0 <= i < |g|
      ensures g[i].inputNodes <= g'[i].inputNodes && g[i].outputNodes <= g'[i].outputNodes
    {
    }
  }

  /** Adding edges and nodes never undoes full connectivity: neighbour lists
      only grow and no node's words change. */
  lemma {:induction false} FullyConnectedPersists(g: Graph, g': Graph, i: nat)
    requires Extends(g, g')
    requires i < |g| && FullyConnected(g, i)
    ensures FullyConnected(g', i)
  {
    assert InWords(g, i) <= InWords(g', i) by {
      forall x | x in InWords(g, i) ensures x in InWords(g', i) {
        var j :| j in g[i].inputNodes && j < |g| && WordOf(g[j].shape) == x;
        assert j in g'[i].inputNodes;
      }
    }
  }

  /** A node without neighbours is never fully connected: every shape needs
      at least one input or one output. */
  lemma FreshNotFullyConnected(g: Graph, i: nat)
    requires i < |g| && g[i].inputNodes == [] && g[i].outputNodes == []
    ensures !FullyConnected(g, i)
  {
  }

  /** The arena of the Machine test: Machine("a", "b") at 0 with the given
      neighbour lists, then Inventory("a"), Inventory("ab") and
      Inventory("b"), with none. */
  function MachineBench(ins: seq<nat>, outs: seq<nat>): Graph {
    [Node(MachineOf("a", "b"), ins, outs), Fresh(InventoryOf("a")), Fresh(InventoryOf("ab")), Fresh(InventoryOf("b"))]
  }

  lemma MachineFirstInput()
    ensures FormInboundEdge(MachineBench([], []), 0, 1) == Ok(MachineBench([1], []))
    ensures Neighbors(MachineBench([1], []), 0) == {1} && !FullyConnected(MachineBench([1], []), 0)
  {
    var g := MachineBench([], []);
    assert SharesProduct(g[1].shape, g[0].shape) by { assert "a" in Outputs(g[1].shape); }
    assert KindOf(g[1].shape) in AllowedIn(KindOf(g[0].shape));
    assert FormInboundEdge(g, 0, 1).Ok?;
    assert [] + [1] == [1];
    assert AppendIn(g, 0, 1) == MachineBench([1], []);
  }

  lemma MachineOutput()
    ensures FormOutboundEdge(MachineBench([1], []), 0, 2) == Ok(MachineBench([1], [2]))
    ensures Neighbors(MachineBench([1], [2]), 0) == {1, 2} && !FullyConnected(MachineBench([1], [2]), 0)
  {
    var g := MachineBench([1], []);
    assert "a" + "b" == "ab";
    assert SharesProduct(g[0].shape, g[2].shape) by { assert "ab" in Outputs(g[0].shape); }
    assert KindOf(g[2].shape) in AllowedOut(KindOf(g[0].shape));
    assert FormOutboundEdge(g, 0, 2).Ok?;
    assert [] + [2] == [2];
    var g2 := MachineBench([1], [2]);
    assert AppendOut(g, 0, 2) == g2;
    assert (set j | j in g2[0].inputNodes) == {1} && (set j | j in g2[0].outputNodes) == {2};
    assert WordOf(g2[1].shape) == "a";
    assert InWords(g2, 0) == {"a"};
    assert "b" in Inputs(g2[0].shape) && "b" != "a";
  }

  lemma MachineSecondInput()
    ensures FormInboundEdge(MachineBench([1], [2]), 0, 3) == Ok(MachineBench([1, 3], [2]))
  {
    var g := MachineBench([1], [2]);
    assert SharesProduct(g[3].shape, g[0].shape) by { assert "b" in Outputs(g[3].shape); }
    assert KindOf(g[3].shape) in AllowedIn(KindOf(g[0].shape));
    assert FormInboundEdge(g, 0, 3).Ok?;
    assert [1] + [3] == [1, 3];
    assert AppendIn(g, 0, 3) == MachineBench([1, 3], [2]);
  }

  lemma MachineBenchComplete()
    ensures Neighbors(MachineBench([1, 3], [2]), 0) == {1, 2, 3}
    ensures FullyConnected(MachineBench([1, 3], [2]), 0)
  {
    var g3 := MachineBench([1, 3], [2]);
    assert (set j | j in g3[0].inputNodes) == {1, 3};
    assert (set j | j in g3[0].outputNodes) == {2};
    assert WordOf(g3[1].shape) == "a" && WordOf(g3[3].shape) == "b";
    assert InWords(g3, 0) == {"a", "b"};
    assert (set x | x in Inputs(g3[0].shape)) == {"a", "b"};
  }

  /** A Machine("a", "b") fed by an Inventory("a"), feeding an
      Inventory("ab") and fed by an Inventory("b"), one edge at a time, only
      at its own end: it is fully connected after the third edge and not
      before. */
  lemma MachineCompletes()
    ensures var g := [Fresh(MachineOf("a", "b")), Fresh(InventoryOf("a")), Fresh(InventoryOf("ab")), Fresh(InventoryOf("b"))];
      && !FullyConnected(g, 0)
      && var r1 := FormInboundEdge(g, 0, 1);
      && r1.Ok? && Neighbors(r1.value, 0) == {1} && !FullyConnected(r1.value, 0)
      && var r2 := FormOutboundEdge(r1.value, 0, 2);
      && r2.Ok? && Neighbors(r2.value, 0) == {1, 2} && !FullyConnected(r2.value, 0)
      && var r3 := FormInboundEdge(r2.value, 0, 3);
      && r3.Ok? && Neighbors(r3.value, 0) == {1, 2, 3} && FullyConnected(r3.value, 0)
  {
    assert MachineBench([], []) == [Fresh(MachineOf("a", "b")), Fresh(InventoryOf("a")), Fresh(InventoryOf("ab")), Fresh(InventoryOf("b"))];
    MachineFirstInput();
    MachineOutput();
    MachineSecondInput();
    MachineBenchComplete();
    hide *;
    FreshNotFullyConnected(MachineBench([], []), 0);
  }

  /** A Source("a") is fully connected once it feeds an Inventory("a"). */
  lemma SourceCompletes()
    ensures var g := [Fresh(SourceOf("a")), Fresh(InventoryOf("a"))];
      && !FullyConnected(g, 0)
      && var r1 := FormOutboundEdge(g, 0, 1);
      && r1.Ok? && FullyConnected(r1.value, 0)
  {
    var g := [Fresh(SourceOf("a")), Fresh(InventoryOf("a"))];
    assert SharesProduct(g[0].shape, g[1].shape) by { assert "a" in Outputs(g[0].shape); }
  }

  /** A Sink("a") is fully connected once an Inventory("a") feeds it. */
  lemma SinkCompletes()
    ensures var g := [Fresh(SinkOf("a")), Fresh(InventoryOf("a"))];
      && !FullyConnected(g, 0)
      && var r1 := FormInboundEdge(g, 0, 1);
      && r1.Ok? && FullyConnected(r1.value, 0)
  {
    var g := [Fresh(SinkOf("a")), Fresh(InventoryOf("a"))];
    assert SharesProduct(g[1].shape, g[0].shape) by { assert "a" in Outputs(g[1].shape); }
    var g1 := FormInboundEdge(g, 0, 1).value;
    assert InWords(g1, 0) == {"a"};
  }

  /** An Inventory("a") fed by a Source("a") is not yet fully connected;
      feeding a Sink("a") too completes it. */
  lemma InventoryCompletes()
    ensures var g := [Fresh(InventoryOf("a")), Fresh(SourceOf("a")), Fresh(SinkOf("a"))];
      && !FullyConnected(g, 0)
      && var r1 := FormInboundEdge(g, 0, 1);
      && r1.Ok? && !FullyConnected(r1.value, 0)
      && var r2 := FormOutboundEdge(r1.value, 0, 2);
      && r2.Ok? && FullyConnected(r2.value, 0)
  {
    var g := [Fresh(InventoryOf("a")), Fresh(SourceOf("a")), Fresh(SinkOf("a"))];
    assert SharesProduct(g[1].shape, g[0].shape) by { assert "a" in Outputs(g[1].shape); }
    var g1 := FormInboundEdge(g, 0, 1).value;
    assert SharesProduct(g1[0].shape, g1[2].shape) by { assert "a" in Outputs(g1[0].shape); }
    var g2 := FormOutboundEdge(g1, 0, 2).value;
    assert InWords(g2, 0) == {"a"};
  }
}
