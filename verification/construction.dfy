/** Building blocks shared by the five generators of wordmill/algorithms.py:
    the generator state, node creation, edge formation on pairs the
    node_types.py rules admit, and the invariants the completeness proofs
    carry through every step. */
module Construction {
  import opened Outcomes
  import opened Words
  import opened Nodes

  /** An Inventory on the worklist `inventories_to_supply`, with its word. */
  datatype Pending = Pending(inv: nat, word: Word)

  /** A generator's state: the arena, the worklist (its last entry is popped
      next, as by list.pop()), the inventory created for each word, and the
      machine created for each (left, right) pair. */
  datatype Build = Build(
    g: Graph,
    pending: seq<Pending>,
    invs: map<Word, nat>,
    machines: map<(Word, Word), nat>)

  /** Sink map of a generator: (word, sink index) pairs in dictionary order. */
  type Sinks = seq<(Word, nat)>

  /** Source map of a generator: word to source index. */
  type Sources = map<Word, nat>

  // ---------------------------------------------------------------------
  // Arena operations

  lemma AppendKeepsWired(g: Graph, n: Node)
    requires n.inputNodes == [] && n.outputNodes == []
    ensures Wired(g) ==> Wired(g + [n])
  {
    if !Wired(g) {
      return;
    }
    var g' := g + [n];
    forall a, b | 0 <= a < |g'| && 0 <= b < |g'|
      ensures MirroredAt(g', a, b)
    {
      if a < |g| && b < |g| {
        assert MirroredAt(g, a, b);
      }
      if a == |g| || b == |g| {
        if a < |g| {
          assert b !in g[a].outputNodes;
        }
        if b < |g| {
          assert a !in g[b].inputNodes;
        }
      }
    }
  }

  /** A constructor call: a new node with no neighbours at the end of the arena. */
  function AddNode(g: Graph, s: Shape): (r: (Graph, nat))
    ensures r.1 == |g| && r.0 == g + [Fresh(s)]
    ensures Extends(g, r.0)
  {
    (g + [Fresh(s)], |g|)
  }

  lemma LinkKeepsWired(g: Graph, a: nat, b: nat)
    requires a < |g| && b < |g| && Admissible(g[a].shape, g[b].shape)
    ensures Wired(g) ==> Wired(Link(g, a, b))
  {
    if Wired(g) {
      LinkPreservesWiring(g, a, b);
    }
  }

  /** `form_edge(a, b)` as the generators call it. Its precondition is the
      full node_types.py check, so every call site in a generator carries a
      proof that the edge would pass those rules; the legacy `form_edge`
      behaves identically on such pairs (Legacy.AgreesOnAdmissible). */
  function Connect(g: Graph, a: nat, b: nat): (g': Graph)
    requires a < |g| && b < |g| && Admissible(g[a].shape, g[b].shape)
    ensures |g'| == |g| && a != b
    ensures g'[a] == g[a].(outputNodes := g[a].outputNodes + [b])
    ensures g'[b] == g[b].(inputNodes := g[b].inputNodes + [a])
    ensures forall i | 0 <= i < |g| && i != a && i != b :: g'[i] == g[i]
    ensures Extends(g, g')
  {
    KindAlternation(KindOf(g[a].shape), KindOf(g[b].shape));
    LinkExtends(g, a, b);
    Link(g, a, b)
  }

  /** Several constructor calls: fresh nodes of the given shapes, in order, at
      the end of the arena. */
  function AddNodes(g: Graph, shapes: seq<Shape>): (g': Graph)
    ensures |g'| == |g| + |shapes|
    ensures forall i | 0 <= i < |g| :: g'[i] == g[i]
    ensures forall i | |g| <= i < |g'| :: g'[i] == Fresh(shapes[i - |g|])
    ensures forall i | |g| <= i < |g'| :: g'[i].shape in shapes
    ensures Extends(g, g')
    decreases |shapes|
  {
    if shapes == [] then g
    else
      var (g1, _) := AddNode(g, shapes[0]);
      var g' := AddNodes(g1, shapes[1..]);
      ExtendsTransitive(g, g1, g');
      g'
  }

  /** A `form_edge(from, to)` call to make. */
  datatype Edge = Edge(from: nat, to: nat)

  lemma {:induction false} AddNodesKeepsWired(g: Graph, shapes: seq<Shape>)
    ensures Wired(g) ==> Wired(AddNodes(g, shapes))
    decreases |shapes|
  {
    if shapes != [] {
      AppendKeepsWired(g, Fresh(shapes[0]));
      AddNodesKeepsWired(g + [Fresh(shapes[0])], shapes[1..]);
    }
  }

  /** Adding nodes of the given shapes and then edges grows the arena. */
  lemma GrowsByAdding(g: Graph, shapes: seq<Shape>, g': Graph)
    requires forall s | s in shapes :: s.InventoryOf? || s.MachineOf?
    requires Extends(AddNodes(g, shapes), g') && |g'| == |g| + |shapes|
    ensures Grows(g, g')
  {
    ExtendsTransitive(g, AddNodes(g, shapes), g');
  }

  /** An edge list every pair of which has one of the four edge shapes, so
      that `form_edge` of node_types.py accepts it (Nodes.AdmissibleIffFeeds). */
  ghost predicate EdgesAdmissible(g: Graph, edges: seq<Edge>) {
    forall e | e in edges :: e.from < |g| && e.to < |g| && Feeds(g[e.from].shape, g[e.to].shape)
  }

  /** Every edge of the list is recorded at both of its ends in `g`. */
  ghost predicate Recorded(g: Graph, edges: seq<Edge>) {
    forall e | e in edges ::
      e.to < |g| && e.from < |g| && e.to in g[e.from].outputNodes && e.from in g[e.to].inputNodes
  }

  lemma RecordedEdge(g: Graph, edges: seq<Edge>, e: Edge)
    requires Recorded(g, edges) && e in edges
    ensures e.to < |g| && e.from < |g| && e.to in g[e.from].outputNodes && e.from in g[e.to].inputNodes
  {
  }

  /** Several `form_edge` calls, in order. Each edge ends up recorded at both
      of its ends, and nodes on no edge are left alone. */
  function Wire(g: Graph, edges: seq<Edge>): (g': Graph)
    requires EdgesAdmissible(g, edges)
    ensures |g'| == |g| && Extends(g, g') && Recorded(g', edges)
    decreases |edges|
  {
    if edges == [] then g
    else
      var Edge(a, c) := edges[0];
      AdmissibleIffFeeds(g[a].shape, g[c].shape);
      var g1 := Connect(g, a, c);
      var g' := Wire(g1, edges[1..]);
      ExtendsTransitive(g, g1, g');
      PrefixMember(g1[a].outputNodes, g'[a].outputNodes, c);
      PrefixMember(g1[c].inputNodes, g'[c].inputNodes, a);
      g'
  }

  lemma {:induction false} WireKeepsWired(g: Graph, edges: seq<Edge>)
    requires EdgesAdmissible(g, edges)
    ensures Wired(g) ==> Wired(Wire(g, edges))
    decreases |edges|
  {
    if edges != [] {
      var Edge(a, c) := edges[0];
      AdmissibleIffFeeds(g[a].shape, g[c].shape);
      var g1 := Connect(g, a, c);
      LinkKeepsWired(g, a, c);
      WireKeepsWired(g1, edges[1..]);
    }
  }

  /** The edges that supply a word: Source(w) -> Inventory(w) -> Sink(w). */
  lemma SupplyShapes(w: Word)
    ensures Admissible(SourceOf(w), InventoryOf(w))
    ensures Admissible(InventoryOf(w), SinkOf(w))
  {
    assert w in Outputs(SourceOf(w)) && w in Inputs(InventoryOf(w));
    assert w in Outputs(InventoryOf(w)) && w in Inputs(SinkOf(w));
  }

  /** The edges around Machine(l, r): Inventory(l) and Inventory(r) feed it
      and it feeds Inventory(l + r). */
  lemma MachineShapes(l: Word, r: Word)
    ensures Admissible(MachineOf(l, r), InventoryOf(l + r))
    ensures Admissible(InventoryOf(l), MachineOf(l, r))
    ensures Admissible(InventoryOf(r), MachineOf(l, r))
  {
    assert l + r in Outputs(MachineOf(l, r)) && l + r in Inputs(InventoryOf(l + r));
    assert l in Outputs(InventoryOf(l)) && l in Inputs(MachineOf(l, r));
    assert r in Outputs(InventoryOf(r)) && r in Inputs(MachineOf(l, r));
  }

  // ---------------------------------------------------------------------
  // What the generators keep true of the arena

  /** `g'` grows `g` by appending edges and adding only Machines and Inventories. */
  ghost predicate Grows(g: Graph, g': Graph) {
    && Extends(g, g')
    && forall i | |g| <= i < |g'| :: g'[i].shape.InventoryOf? || g'[i].shape.MachineOf?
  }

  lemma GrowsTransitive(g1: Graph, g2: Graph, g3: Graph)
    requires Grows(g1, g2) && Grows(g2, g3)
    ensures Grows(g1, g3)
  {
    ExtendsTransitive(g1, g2, g3);
  }

  ghost predicate IsSourceAt(g: Graph, i: nat, w: Word) {
    i < |g| && g[i].shape == SourceOf(w)
  }

  ghost predicate IsInventoryAt(g: Graph, i: nat, w: Word) {
    i < |g| && g[i].shape == InventoryOf(w)
  }

  ghost predicate IsMachineAt(g: Graph, i: nat, l: Word, r: Word) {
    i < |g| && g[i].shape == MachineOf(l, r)
  }

  ghost predicate IsSinkAt(g: Graph, i: nat, w: Word) {
    i < |g| && g[i].shape == SinkOf(w)
  }

  /** A node keeps its shape as the arena grows. */
  lemma InventoryStays(g: Graph, g': Graph, i: nat, w: Word)
    requires IsInventoryAt(g, i, w) && Grows(g, g')
    ensures IsInventoryAt(g', i, w)
  {
  }

  lemma MachineStays(g: Graph, g': Graph, i: nat, l: Word, r: Word)
    requires IsMachineAt(g, i, l, r) && Grows(g, g')
    ensures IsMachineAt(g', i, l, r)
  {
  }

  /** The Machine(l, r) at `m` is fed by the Inventory `i` of `l` and the
      Inventory `j` of `r`, and feeds the Inventory `out` of `l + r`. */
  ghost predicate Combines(g: Graph, m: nat, l: Word, r: Word, i: nat, j: nat, out: nat) {
    && IsMachineAt(g, m, l, r) && IsInventoryAt(g, i, l) && IsInventoryAt(g, j, r)
    && IsInventoryAt(g, out, l + r)
    && i in g[m].inputNodes && j in g[m].inputNodes && m in g[out].inputNodes
  }

  lemma CombinesStays(g: Graph, g': Graph, m: nat, l: Word, r: Word, i: nat, j: nat, out: nat)
    requires Combines(g, m, l, r, i, j, out) && Grows(g, g')
    ensures Combines(g', m, l, r, i, j, out)
  {
    PrefixMember(g[m].inputNodes, g'[m].inputNodes, i);
    PrefixMember(g[m].inputNodes, g'[m].inputNodes, j);
    PrefixMember(g[out].inputNodes, g'[out].inputNodes, m);
  }

  /** Split `j` of `w` is produced into the Inventory `out`: some Machine of
      the two halves, fed by Inventories of both, feeds it. */
  ghost predicate SplitFeeds(g: Graph, out: nat, w: Word, j: nat) {
    && 1 <= j < |w|
    && exists m, a, c :: Combines(g, m, w[..j], w[j..], a, c, out)
  }

  /** Every sink entry addresses a Sink of that word. */
  ghost predicate SinksFit(g: Graph, sinks: Sinks) {
    forall j | 0 <= j < |sinks| :: IsSinkAt(g, sinks[j].1, sinks[j].0)
  }

  /** Every source entry addresses a Source of that word. */
  ghost predicate SourcesFit(g: Graph, src: Sources) {
    forall c | c in src :: IsSourceAt(g, src[c], c)
  }

  /** Every index the generator state holds addresses a node of the right shape. */
  ghost predicate Fits(b: Build, src: Sources) {
    && SourcesFit(b.g, src)
    && (forall k | 0 <= k < |b.pending| :: IsInventoryAt(b.g, b.pending[k].inv, b.pending[k].word))
    && (forall w | w in b.invs :: IsInventoryAt(b.g, b.invs[w], w))
    && (forall m | m in b.machines :: IsMachineAt(b.g, b.machines[m], m.0, m.1))
  }

  lemma FitsPending(b: Build, src: Sources, k: nat)
    requires Fits(b, src) && k < |b.pending|
    ensures IsInventoryAt(b.g, b.pending[k].inv, b.pending[k].word)
  {
  }

  /** Popping the last worklist entry keeps the state well formed. */
  lemma FitsPop(b: Build, src: Sources)
    requires Fits(b, src) && b.pending != []
    ensures Fits(b.(pending := b.pending[..|b.pending| - 1]), src)
    ensures IsInventoryAt(b.g, b.pending[|b.pending| - 1].inv, b.pending[|b.pending| - 1].word)
  {
  }

  lemma SinksFitGrow(g: Graph, g': Graph, sinks: Sinks)
    requires SinksFit(g, sinks) && Extends(g, g')
    ensures SinksFit(g', sinks)
  {
  }

  lemma FitsGrow(b: Build, g': Graph, src: Sources)
    requires Fits(b, src) && Extends(b.g, g')
    ensures Fits(b.(g := g'), src)
  {
  }

  lemma SinksFitInit(g: Graph, sinks: Sinks)
    requires SinksFit(g, sinks) && sinks != []
    ensures SinksFit(g, sinks[..|sinks| - 1])
  {
    forall j | 0 <= j < |sinks| - 1 ensures IsSinkAt(g, sinks[j].1, sinks[j].0) {
    }
  }

  lemma PrefixMember(a: seq<nat>, b: seq<nat>, x: nat)
    requires a <= b && x in a
    ensures x in b
  {
    var k :| 0 <= k < |a| && a[k] == x;
    assert b[k] == x;
  }

  /** Queueing an Inventory keeps the state well formed. */
  lemma FitsQueue(b: Build, src: Sources, p: Pending)
    requires Fits(b, src) && IsInventoryAt(b.g, p.inv, p.word)
    ensures Fits(b.(pending := b.pending + [p]), src)
  {
  }

  /** Recording an Inventory keeps the state well formed. */
  lemma FitsRecord(b: Build, src: Sources, w: Word, inv: nat)
    requires Fits(b, src) && IsInventoryAt(b.g, inv, w)
    ensures Fits(b.(invs := b.invs[w := inv]), src)
  {
  }

  // ---------------------------------------------------------------------
  // Termination measure of the word-splitting worklists

  /** The size of the split tree below a word: 2|w| - 1 nodes. */
  function Weight(w: Word): nat {
    if |w| == 0 then 0 else 2 * |w| - 1
  }

  function Load(ps: seq<Pending>): nat {
    if ps == [] then 0 else Load(ps[..|ps| - 1]) + Weight(ps[|ps| - 1].word)
  }

  lemma LoadPush(ps: seq<Pending>, q: Pending)
    ensures Load(ps + [q]) == Load(ps) + Weight(q.word)
  {
    assert (ps + [q])[..|ps|] == ps;
  }

  // ---------------------------------------------------------------------
  // The completeness invariant

  /** Node `i` is on the worklist. */
  ghost predicate IsPending(ps: seq<Pending>, i: nat) {
    exists k | 0 <= k < |ps| :: ps[k].inv == i
  }

  /** The source of word `c` exists and already feeds something. */
  ghost predicate Used(g: Graph, src: Sources, c: Word) {
    c in src && src[c] < |g| && |g[src[c]].outputNodes| > 0
  }

  /** Character `ch` occurs in a worklist word shorter than `n`. */
  ghost predicate Awaited(ps: seq<Pending>, ch: char, n: nat) {
    exists k | 0 <= k < |ps| :: ch in ps[k].word && |ps[k].word| < n
  }

  /** Every character of `w` has its source in use, or will be reached from a
      worklist word shorter than `n`. */
  ghost predicate CoveredBelow(g: Graph, src: Sources, ps: seq<Pending>, w: Word, n: nat) {
    forall k | 0 <= k < |w| :: Used(g, src, [w[k]]) || Awaited(ps, w[k], n)
  }

  /** The completeness invariant of a generator between two worklist pops:
      every node except Sources, worklist entries and the `waiting` ones is
      fully connected; every supplied Inventory is covered by used sources
      or shorter worklist words; and every worklist entry already feeds a
      consumer and is made of supplied characters. */
  ghost predicate Settled(g: Graph, src: Sources, ps: seq<Pending>, waiting: set<nat>) {
    && (forall i | 0 <= i < |g| :: NodeSettled(g, src, ps, waiting, i))
    && (forall k | 0 <= k < |ps| :: QueueOk(g, src, ps[k]))
  }

  /** The invariant at one node. */
  ghost predicate NodeSettled(g: Graph, src: Sources, ps: seq<Pending>, waiting: set<nat>, i: nat)
    requires i < |g|
  {
    && (!g[i].shape.SourceOf? && !IsPending(ps, i) && i !in waiting ==> FullyConnected(g, i))
    && (g[i].shape.InventoryOf? && !IsPending(ps, i) ==> CoveredBelow(g, src, ps, g[i].shape.w, |g[i].shape.w|))
  }

  /** The invariant at one worklist entry. */
  ghost predicate QueueOk(g: Graph, src: Sources, p: Pending) {
    && p.inv < |g|
    && |g[p.inv].outputNodes| > 0
    && AllCharsIn(p.word, src.Keys)
  }

  /** Every source word is a single character. */
  ghost predicate Atomic(src: Sources) {
    forall c | c in src :: |c| == 1
  }

  /** The sources are one per character and every Source of the arena is in
      the source map. */
  ghost predicate CharSources(g: Graph, src: Sources) {
    && Atomic(src)
    && (forall i | 0 <= i < |g| && g[i].shape.SourceOf? ::
          g[i].shape.w in src && src[g[i].shape.w] == i)
  }

  /** Every source character occurs in the word of some Sink. */
  ghost predicate Demanded(g: Graph, src: Sources) {
    forall c | c in src :: exists i, k | 0 <= i < |g| && g[i].shape.SinkOf? && 0 <= k < |g[i].shape.w| ::
      [g[i].shape.w[k]] == c
  }

  lemma UsedGrows(g: Graph, g': Graph, src: Sources, c: Word)
    requires Extends(g, g') && Used(g, src, c)
    ensures Used(g', src, c)
  {
  }

  lemma CharSourcesGrow(g: Graph, g': Graph, src: Sources)
    requires CharSources(g, src) && Grows(g, g')
    ensures CharSources(g', src)
  {
  }

  lemma DemandedGrows(g: Graph, g': Graph, src: Sources)
    requires Demanded(g, src) && Extends(g, g')
    ensures Demanded(g', src)
  {
    forall c | c in src
      ensures exists i, k | 0 <= i < |g'| && g'[i].shape.SinkOf? && 0 <= k < |g'[i].shape.w| ::
        [g'[i].shape.w[k]] == c
    {
      var i, k :| 0 <= i < |g| && g[i].shape.SinkOf? && 0 <= k < |g[i].shape.w| && [g[i].shape.w[k]] == c;
      assert g'[i].shape == g[i].shape;
    }
  }

  /** A fully connected Sink is fed by an Inventory of its own word. */
  lemma SinkFeeder(g: Graph, i: nat) returns (j: nat)
    requires Wired(g) && i < |g| && g[i].shape.SinkOf? && FullyConnected(g, i)
    ensures j < |g| && j in g[i].inputNodes && g[j].shape == InventoryOf(g[i].shape.w)
  {
    var w := g[i].shape.w;
    assert w in Inputs(g[i].shape);
    assert w in InWords(g, i);
    j :| j in g[i].inputNodes && j < |g| && WordOf(g[j].shape) == w;
    assert Admissible(g[j].shape, g[i].shape);
  }

  /** With an empty worklist, every source character demanded by a Sink
      has its source in use. */
  lemma SourceUsed(g: Graph, src: Sources, c: Word)
    requires Wired(g) && Demanded(g, src) && c in src
    requires Settled(g, src, [], {})
    ensures Used(g, src, c)
  {
    var i, k :| 0 <= i < |g| && g[i].shape.SinkOf? && 0 <= k < |g[i].shape.w| && [g[i].shape.w[k]] == c;
    var w := g[i].shape.w;
    assert NodeSettled(g, src, [], {}, i);
    assert !IsPending([], i);
    var j := SinkFeeder(g, i);
    assert NodeSettled(g, src, [], {}, j);
    assert !IsPending([], j);
    assert CoveredBelow(g, src, [], w, |w|);
    assert !Awaited([], w[k], |w|);
  }

  /** Once the worklist is empty, the invariant makes every node of the arena
      fully connected: each Sink is fed by an Inventory of its word, whose
      characters all have their source in use, and every source character is
      demanded by some Sink. */
  lemma {:induction false} SettledComplete(g: Graph, src: Sources)
    requires Wired(g) && CharSources(g, src) && Demanded(g, src)
    requires Settled(g, src, [], {})
    ensures forall i | 0 <= i < |g| :: FullyConnected(g, i)
  {
    forall i | 0 <= i < |g|
      ensures FullyConnected(g, i)
    {
      if g[i].shape.SourceOf? {
        var c := g[i].shape.w;
        assert c in src && src[c] == i;
        SourceUsed(g, src, c);
      } else {
        assert NodeSettled(g, src, [], {}, i);
        assert !IsPending([], i);
      }
    }
  }

  /** A one-character Inventory fed by its Source is covered. */
  lemma AtomCovered(g': Graph, src: Sources, ps': seq<Pending>, c: Word)
    requires Atomic(src) && c in src && Used(g', src, c)
    ensures CoveredBelow(g', src, ps', c, |c|)
  {
    assert [c[0]] == c;
  }

  /** Every queued word is spelled with source characters. */
  ghost predicate Spelled(ps: seq<Pending>, src: Sources) {
    forall k | 0 <= k < |ps| :: AllCharsIn(ps[k].word, src.Keys)
  }

  lemma SpelledSnoc(ps: seq<Pending>, q: Pending, src: Sources)
    ensures Spelled(ps + [q], src) <==> Spelled(ps, src) && AllCharsIn(q.word, src.Keys)
  {
    assert forall k | 0 <= k < |ps| :: (ps + [q])[k] == ps[k];
    assert (ps + [q])[|ps|] == q;
  }

  // ---------------------------------------------------------------------
  // Keeping the invariant across a step

  lemma AwaitedGrows(ps: seq<Pending>, ps': seq<Pending>, ch: char, n: nat)
    requires |ps| <= |ps'| && ps'[..|ps|] == ps && Awaited(ps, ch, n)
    ensures Awaited(ps', ch, n)
  {
    var k :| 0 <= k < |ps| && ch in ps[k].word && |ps[k].word| < n;
    assert ps'[k] == ps[k];
  }

  /** Coverage survives a step that pops `pops`, keeps `rest` and may push
      more, provided each popped word is itself covered below its length
      afterwards. */
  lemma CoverageShift(g: Graph, g': Graph, src: Sources, rest: seq<Pending>, pops: seq<Pending>,
                      ps': seq<Pending>, x: Word, n: nat)
    requires Extends(g, g') && |rest| <= |ps'| && ps'[..|rest|] == rest
    requires CoveredBelow(g, src, rest + pops, x, n)
    requires forall j | 0 <= j < |pops| :: CoveredBelow(g', src, ps', pops[j].word, |pops[j].word|)
    ensures CoveredBelow(g', src, ps', x, n)
  {
    forall k | 0 <= k < |x|
      ensures Used(g', src, [x[k]]) || Awaited(ps', x[k], n)
    {
      var ch := x[k];
      if Used(g, src, [ch]) {
        UsedGrows(g, g', src, [ch]);
      } else {
        var ps := rest + pops;
        var k' :| 0 <= k' < |ps| && ch in ps[k'].word && |ps[k'].word| < n;
        if k' < |rest| {
          assert ps[k'] == rest[k'];
          AwaitedGrows(rest, ps', ch, n);
        } else {
          var p := pops[k' - |rest|];
          assert p == ps[k'];
          var j :| 0 <= j < |p.word| && p.word[j] == ch;
          assert Used(g', src, [p.word[j]]) || Awaited(ps', p.word[j], |p.word|);
          if !Used(g', src, [ch]) {
            var k2 :| 0 <= k2 < |ps'| && ch in ps'[k2].word && |ps'[k2].word| < |p.word|;
            assert |ps'[k2].word| < n;
          }
        }
      }
    }
  }

  lemma PendingSplit(rest: seq<Pending>, pops: seq<Pending>, i: nat)
    requires IsPending(rest + pops, i)
    ensures IsPending(rest, i) || exists j | 0 <= j < |pops| :: pops[j].inv == i
  {
    var k :| 0 <= k < |rest + pops| && (rest + pops)[k].inv == i;
    if k >= |rest| {
      assert pops[k - |rest|].inv == i;
    } else {
      assert rest[k].inv == i;
    }
  }

  lemma PendingLast(ps: seq<Pending>, q: Pending)
    ensures IsPending(ps + [q], q.inv)
  {
    assert (ps + [q])[|ps|] == q;
  }

  lemma PendingKept(rest: seq<Pending>, ps': seq<Pending>, i: nat)
    requires |rest| <= |ps'| && ps'[..|rest|] == rest && IsPending(rest, i)
    ensures IsPending(ps', i)
  {
    var k :| 0 <= k < |rest| && rest[k].inv == i;
    assert ps'[k] == rest[k];
  }

  /** One step of a generator keeps the completeness invariant. Before the
      step the worklist is `rest + pops` and the nodes in `waiting` are
      exempt; after it the worklist is `ps'`, extending `rest`, with the
      exemptions `waiting'`. The step must leave every node it created or
      touched fully connected (or on the worklist), cover the popped words
      and every new supplied Inventory, and push only entries that already
      feed a consumer. */
  lemma {:induction false} Resettle(g: Graph, g': Graph, src: Sources, rest: seq<Pending>, pops: seq<Pending>,
                                    ps': seq<Pending>, waiting: set<nat>, waiting': set<nat>)
    requires Settled(g, src, rest + pops, waiting) && Extends(g, g')
    requires |rest| <= |ps'| && ps'[..|rest|] == rest
    requires forall j | 0 <= j < |pops| :: IsInventoryAt(g, pops[j].inv, pops[j].word)
    requires forall j | 0 <= j < |pops| :: CoveredBelow(g', src, ps', pops[j].word, |pops[j].word|)
    requires forall i | 0 <= i < |g'| && (i >= |g| || i in waiting || exists j | 0 <= j < |pops| :: pops[j].inv == i) ::
               !g'[i].shape.SourceOf? && !IsPending(ps', i) && i !in waiting' ==> FullyConnected(g', i)
    requires forall i | |g| <= i < |g'| && g'[i].shape.InventoryOf? && !IsPending(ps', i) ::
               CoveredBelow(g', src, ps', g'[i].shape.w, |g'[i].shape.w|)
    requires forall k | |rest| <= k < |ps'| :: QueueOk(g', src, ps'[k])
    ensures Settled(g', src, ps', waiting')
  {
    var ps := rest + pops;
    forall i | 0 <= i < |g'|
      ensures NodeSettled(g', src, ps', waiting', i)
    {
      var popped := exists j | 0 <= j < |pops| :: pops[j].inv == i;
      if i < |g| {
        assert g'[i].shape == g[i].shape;
        assert NodeSettled(g, src, ps, waiting, i);
        if !IsPending(ps', i) && !popped && IsPending(ps, i) {
          PendingSplit(rest, pops, i);
          PendingKept(rest, ps', i);
        }
        if !g'[i].shape.SourceOf? && !IsPending(ps', i) && i !in waiting' && i !in waiting && !popped {
          FullyConnectedPersists(g, g', i);
        }
        if g'[i].shape.InventoryOf? && !IsPending(ps', i) {
          if popped {
            var j :| 0 <= j < |pops| && pops[j].inv == i;
            assert g[i].shape == InventoryOf(pops[j].word);
          } else {
            CoverageShift(g, g', src, rest, pops, ps', g[i].shape.w, |g[i].shape.w|);
          }
        }
      }
    }
    forall k | 0 <= k < |ps'|
      ensures QueueOk(g', src, ps'[k])
    {
      if k < |rest| {
        assert ps'[k] == rest[k] == ps[k];
        assert QueueOk(g, src, ps[k]);
        assert g[ps[k].inv].outputNodes <= g'[ps[k].inv].outputNodes;
      }
    }
  }

  // ---------------------------------------------------------------------
  // Feeding a popped Inventory from its Source

  /** `form_edge(a, c)` on the generator state: both ends record the edge. */
  function Join(b: Build, src: Sources, a: nat, c: nat): (r: Build)
    requires Fits(b, src) && a < |b.g| && c < |b.g| && Admissible(b.g[a].shape, b.g[c].shape)
    ensures Fits(r, src) && Grows(b.g, r.g) && |r.g| == |b.g|
    ensures c in r.g[a].outputNodes && a in r.g[c].inputNodes
    ensures r.pending == b.pending && r.invs == b.invs && r.machines == b.machines
  {
    var g' := Connect(b.g, a, c);
    FitsGrow(b, g', src);
    b.(g := g')
  }

  lemma JoinKeepsWired(b: Build, src: Sources, a: nat, c: nat)
    requires Fits(b, src) && a < |b.g| && c < |b.g| && Admissible(b.g[a].shape, b.g[c].shape)
    ensures Wired(b.g) ==> Wired(Join(b, src, a, c).g)
  {
    LinkKeepsWired(b.g, a, c);
  }

  /** With single-character sources, a word spelled with them has a Source
      exactly when it is one character long. */
  lemma SourcedIffAtom(w: Word, src: Sources)
    requires Atomic(src) && AllCharsIn(w, src.Keys)
    ensures w in src <==> |w| == 1
  {
    if |w| == 1 {
      assert [w[0]] == w;
    }
  }

  /** `form_edge(sources[w], inv)`: the popped Inventory is fed by its Source. */
  function Feed(b: Build, src: Sources, p: Pending): Build
    requires Fits(b, src) && IsInventoryAt(b.g, p.inv, p.word) && p.word in src
  {
    SupplyShapes(p.word);
    b.(g := Connect(b.g, src[p.word], p.inv))
  }

  /** Feeding from a Source adds one edge at both ends and keeps the worklist
      and the well-placed indices. */
  lemma FeedFacts(b: Build, src: Sources, p: Pending)
    requires Fits(b, src) && IsInventoryAt(b.g, p.inv, p.word) && p.word in src
    ensures Grows(b.g, Feed(b, src, p).g) && |Feed(b, src, p).g| == |b.g|
    ensures IsSourceAt(b.g, src[p.word], p.word)
    ensures p.inv in Feed(b, src, p).g[src[p.word]].outputNodes
    ensures src[p.word] in Feed(b, src, p).g[p.inv].inputNodes
    ensures Feed(b, src, p).pending == b.pending
    ensures Feed(b, src, p).invs == b.invs && Feed(b, src, p).machines == b.machines
    ensures Fits(Feed(b, src, p), src)
    ensures Wired(b.g) ==> Wired(Feed(b, src, p).g)
  {
    SupplyShapes(p.word);
    FitsGrow(b, Feed(b, src, p).g, src);
    LinkKeepsWired(b.g, src[p.word], p.inv);
  }

  /** Feeding a popped one-character word from its Source keeps the
      completeness invariant: the Inventory is now fully connected and its
      Source is in use. */
  lemma FeedResettles(g: Graph, g': Graph, src: Sources, stack: seq<Pending>, rest: seq<Pending>,
                      p: Pending, waiting: set<nat>)
    requires Settled(g, src, stack, waiting) && stack == rest + [p]
    requires Atomic(src) && p.word in src && IsSourceAt(g, src[p.word], p.word)
    requires IsInventoryAt(g, p.inv, p.word)
    requires Grows(g, g') && |g'| == |g|
    requires p.inv in g'[src[p.word]].outputNodes && src[p.word] in g'[p.inv].inputNodes
    ensures Settled(g', src, rest, waiting)
  {
    var w := p.word;
    assert stack[|rest|] == p;
    assert QueueOk(g, src, p);
    assert [p][0] == p;
    assert Used(g', src, w);
    AtomCovered(g', src, rest, w);
    assert FullyConnected(g', p.inv) by {
      assert g'[src[w]].shape == SourceOf(w);
      assert w in InWords(g', p.inv);
      assert g[p.inv].outputNodes <= g'[p.inv].outputNodes;
    }
    assert rest[..|rest|] == rest;
    Resettle(g, g', src, rest, [p], rest, waiting, waiting);
  }

  /** Every queued word has at least one character. */
  ghost predicate NonEmpty(ps: seq<Pending>) {
    forall k | 0 <= k < |ps| :: |ps[k].word| >= 1
  }

  lemma NonEmptySnoc(ps: seq<Pending>, q: Pending)
    ensures NonEmpty(ps + [q]) <==> NonEmpty(ps) && |q.word| >= 1
  {
    assert forall k | 0 <= k < |ps| :: (ps + [q])[k] == ps[k];
    assert (ps + [q])[|ps|] == q;
  }

  // ---------------------------------------------------------------------
  // The generation setting and the shared sink loop

  /** The arena `generate` hands to a generator: one Sink per distinct
      output word and one Source per distinct character, no edges yet. */
  ghost predicate Setting(g: Graph, src: Sources, sinks: Sinks) {
    && (forall i | 0 <= i < |g| :: g[i].inputNodes == [] && g[i].outputNodes == [])
    && (forall i | 0 <= i < |g| :: g[i].shape.SourceOf? || g[i].shape.SinkOf?)
    && SinksFit(g, sinks) && SourcesFit(g, src)
    && (forall i | 0 <= i < |g| && g[i].shape.SinkOf? :: exists j | 0 <= j < |sinks| :: sinks[j].1 == i)
    && (forall j, j' | 0 <= j < j' < |sinks| :: sinks[j].0 != sinks[j'].0 && sinks[j].1 != sinks[j'].1)
    && (forall j | 0 <= j < |sinks| :: AllCharsIn(sinks[j].0, src.Keys))
    && CharSources(g, src) && Demanded(g, src)
  }

  /** The parts of the setting the generators' proofs use. */
  lemma SettingFacts(g: Graph, src: Sources, sinks: Sinks)
    requires Setting(g, src, sinks)
    ensures SinksFit(g, sinks) && SourcesFit(g, src) && Atomic(src)
    ensures CharSources(g, src) && Demanded(g, src)
    ensures forall j | 0 <= j < |sinks| :: AllCharsIn(sinks[j].0, src.Keys)
  {
  }

  function SinkIndices(sinks: Sinks): set<nat> {
    set j | 0 <= j < |sinks| :: sinks[j].1
  }

  function SinkWords(sinks: Sinks): set<Word> {
    set j | 0 <= j < |sinks| :: sinks[j].0
  }

  /** In the setting, nothing is connected yet and every Sink waits for its
      Inventory. */
  lemma {:induction false} SettingSettled(g: Graph, src: Sources, sinks: Sinks)
    requires Setting(g, src, sinks)
    ensures Wired(g)
    ensures Settled(g, src, [], SinkIndices(sinks))
  {
    forall i | 0 <= i < |g|
      ensures NodeSettled(g, src, [], SinkIndices(sinks), i)
    {
      if g[i].shape.SinkOf? {
        var j :| 0 <= j < |sinks| && sinks[j].1 == i;
        assert i in SinkIndices(sinks);
      }
    }
  }

  /** One iteration of the sink loop: a new Inventory of the sink's word,
      feeding the Sink, queued and recorded. */
  function SupplyOne(b: Build, src: Sources, w: Word, s: nat): (r: Build)
    requires Fits(b, src) && IsSinkAt(b.g, s, w)
    ensures Fits(r, src) && Grows(b.g, r.g)
    ensures |r.g| == |b.g| + 1 && r.g[|b.g|] == Node(InventoryOf(w), [], [s])
    ensures r.g[s] == b.g[s].(inputNodes := b.g[s].inputNodes + [|b.g|])
    ensures forall i | 0 <= i < |b.g| && i != s :: r.g[i] == b.g[i]
    ensures r.pending == b.pending + [Pending(|b.g|, w)]
    ensures r.invs == b.invs[w := |b.g|] && r.machines == b.machines
  {
    SupplyShapes(w);
    var (g1, inv) := AddNode(b.g, InventoryOf(w));
    var g2 := Connect(g1, inv, s);
    ExtendsTransitive(b.g, g1, g2);
    FitsGrow(b, g2, src);
    FitsQueue(b.(g := g2), src, Pending(inv, w));
    FitsRecord(b.(g := g2, pending := b.pending + [Pending(inv, w)]), src, w, inv);
    Build(g2, b.pending + [Pending(inv, w)], b.invs[w := inv], b.machines)
  }

  /** The worklist holds, in order, an Inventory of each sink word feeding
      its Sink. */
  ghost predicate Queued(b: Build, sinks: Sinks) {
    && |b.pending| == |sinks|
    && forall j | 0 <= j < |sinks| ::
         && b.pending[j].word == sinks[j].0
         && sinks[j].1 < |b.g|
         && b.pending[j].inv in b.g[sinks[j].1].inputNodes
  }

  lemma QueuedSnoc(b: Build, src: Sources, sinks: Sinks)
    requires sinks != [] && Queued(b, sinks[..|sinks| - 1])
    requires Fits(b, src) && IsSinkAt(b.g, sinks[|sinks| - 1].1, sinks[|sinks| - 1].0)
    ensures Queued(SupplyOne(b, src, sinks[|sinks| - 1].0, sinks[|sinks| - 1].1), sinks)
  {
    var n := |sinks| - 1;
    var (w, s) := sinks[n];
    var r := SupplyOne(b, src, w, s);
    forall j | 0 <= j < |sinks|
      ensures r.pending[j].word == sinks[j].0
      ensures sinks[j].1 < |r.g|
      ensures r.pending[j].inv in r.g[sinks[j].1].inputNodes
    {
      if j < n {
        assert sinks[..n][j] == sinks[j];
        var t := sinks[j].1;
        assert r.pending[j] == b.pending[j];
        assert b.g[t].inputNodes <= r.g[t].inputNodes;
        PrefixMember(b.g[t].inputNodes, r.g[t].inputNodes, b.pending[j].inv);
      } else {
        assert r.g[s].inputNodes[|b.g[s].inputNodes|] == |b.g|;
      }
    }
  }

  /** The `for w_out, sink in sinks.items()` loop of the linear, component
      and bio-inspired generators, run on an empty worklist, in sink order. */
  function SupplySinks(b: Build, src: Sources, sinks: Sinks): (r: Build)
    requires Fits(b, src) && SinksFit(b.g, sinks) && b.pending == []
    ensures Fits(r, src) && Grows(b.g, r.g)
    ensures |r.pending| == |sinks| && r.machines == b.machines
    decreases |sinks|
  {
    if sinks == [] then b
    else
      var n := |sinks| - 1;
      SinksFitInit(b.g, sinks);
      var b1 := SupplySinks(b, src, sinks[..n]);
      SinksFitGrow(b.g, b1.g, sinks);
      var r := SupplyOne(b1, src, sinks[n].0, sinks[n].1);
      GrowsTransitive(b.g, b1.g, r.g);
      r
  }

  lemma SupplyOneKeepsWired(b: Build, src: Sources, w: Word, s: nat)
    requires Fits(b, src) && IsSinkAt(b.g, s, w)
    ensures Wired(b.g) ==> Wired(SupplyOne(b, src, w, s).g)
  {
    SupplyShapes(w);
    AppendKeepsWired(b.g, Fresh(InventoryOf(w)));
    LinkKeepsWired(b.g + [Fresh(InventoryOf(w))], |b.g|, s);
  }

  lemma {:induction false} SupplySinksKeepsWired(b: Build, src: Sources, sinks: Sinks)
    requires Fits(b, src) && SinksFit(b.g, sinks) && b.pending == []
    ensures Wired(b.g) ==> Wired(SupplySinks(b, src, sinks).g)
    decreases |sinks|
  {
    if sinks != [] {
      var b1 := SupplySinksUnfold(b, src, sinks);
      SupplySinksKeepsWired(b, src, sinks[..|sinks| - 1]);
      SupplyOneKeepsWired(b1, src, sinks[|sinks| - 1].0, sinks[|sinks| - 1].1);
    }
  }

  lemma SinkWordsSnoc(sinks: Sinks)
    requires sinks != []
    ensures SinkWords(sinks) == SinkWords(sinks[..|sinks| - 1]) + {sinks[|sinks| - 1].0}
  {
    forall j | 0 <= j < |sinks| - 1 ensures sinks[j] == sinks[..|sinks| - 1][j] { }
    assert forall w :: w in SinkWords(sinks[..|sinks| - 1]) ==> w in SinkWords(sinks);
  }

  /** One unfolding of the sink loop: the loop over all sinks is the loop
      over all but the last, followed by the last. */
  lemma SupplySinksUnfold(b: Build, src: Sources, sinks: Sinks) returns (b1: Build)
    requires Fits(b, src) && SinksFit(b.g, sinks) && b.pending == [] && sinks != []
    ensures SinksFit(b.g, sinks[..|sinks| - 1])
    ensures b1 == SupplySinks(b, src, sinks[..|sinks| - 1])
    ensures Fits(b1, src) && IsSinkAt(b1.g, sinks[|sinks| - 1].1, sinks[|sinks| - 1].0)
    ensures SupplySinks(b, src, sinks) == SupplyOne(b1, src, sinks[|sinks| - 1].0, sinks[|sinks| - 1].1)
  {
    SinksFitInit(b.g, sinks);
    b1 := SupplySinks(b, src, sinks[..|sinks| - 1]);
    SinksFitGrow(b.g, b1.g, sinks);
  }

  /** What the sink loop queues: the j-th worklist entry is an Inventory of
      the j-th sink word feeding that Sink. */
  lemma {:induction false} SupplySinksQueues(b: Build, src: Sources, sinks: Sinks)
    requires Fits(b, src) && SinksFit(b.g, sinks) && b.pending == []
    ensures Queued(SupplySinks(b, src, sinks), sinks)
    decreases |sinks|
  {
    if sinks != [] {
      var b1 := SupplySinksUnfold(b, src, sinks);
      SupplySinksQueues(b, src, sinks[..|sinks| - 1]);
      QueuedSnoc(b1, src, sinks);
    }
  }

  lemma RecordsSnoc(b: Build, src: Sources, sinks: Sinks, keys: set<Word>)
    requires sinks != [] && b.invs.Keys == keys + SinkWords(sinks[..|sinks| - 1])
    requires Fits(b, src) && IsSinkAt(b.g, sinks[|sinks| - 1].1, sinks[|sinks| - 1].0)
    ensures SupplyOne(b, src, sinks[|sinks| - 1].0, sinks[|sinks| - 1].1).invs.Keys == keys + SinkWords(sinks)
  {
    SinkWordsSnoc(sinks);
  }

  /** What the sink loop records: exactly the sink words. */
  lemma {:induction false} SupplySinksRecords(b: Build, src: Sources, sinks: Sinks)
    requires Fits(b, src) && SinksFit(b.g, sinks) && b.pending == []
    ensures SupplySinks(b, src, sinks).invs.Keys == b.invs.Keys + SinkWords(sinks)
    decreases |sinks|
  {
    if sinks != [] {
      var b1 := SupplySinksUnfold(b, src, sinks);
      SupplySinksRecords(b, src, sinks[..|sinks| - 1]);
      RecordsSnoc(b1, src, sinks, b.invs.Keys);
    } else {
      assert SinkWords(sinks) == {};
    }
  }

  lemma SinkIndicesSnoc(sinks: Sinks)
    requires sinks != []
    ensures SinkIndices(sinks) == SinkIndices(sinks[..|sinks| - 1]) + {sinks[|sinks| - 1].1}
  {
    forall j | 0 <= j < |sinks| - 1 ensures sinks[j] == sinks[..|sinks| - 1][j] { }
    assert forall i :: i in SinkIndices(sinks[..|sinks| - 1]) ==> i in SinkIndices(sinks);
  }

  /** Supplying one Sink makes it fully connected and queues a consumer-fed
      Inventory. */
  lemma SettledSnoc(b: Build, src: Sources, w: Word, s: nat, waiting: set<nat>)
    requires Fits(b, src) && IsSinkAt(b.g, s, w)
    requires Settled(b.g, src, b.pending, waiting)
    requires AllCharsIn(w, src.Keys)
    ensures Settled(SupplyOne(b, src, w, s).g, src, SupplyOne(b, src, w, s).pending, waiting - {s})
  {
    var r := SupplyOne(b, src, w, s);
    var inv := |b.g|;
    var g' := r.g;
    assert FullyConnected(g', s) by {
      assert inv in g'[s].inputNodes && inv < |g'|;
      assert WordOf(g'[inv].shape) == w;
      assert w in InWords(g', s);
    }
    assert IsPending(r.pending, inv) by {
      assert r.pending[|b.pending|].inv == inv;
    }
    assert b.pending + [] == b.pending;
    Resettle(b.g, g', src, b.pending, [], r.pending, waiting, waiting - {s});
  }

  lemma SettledSinksSnoc(b: Build, src: Sources, sinks: Sinks, waiting: set<nat>)
    requires sinks != [] && Fits(b, src)
    requires IsSinkAt(b.g, sinks[|sinks| - 1].1, sinks[|sinks| - 1].0)
    requires Settled(b.g, src, b.pending, waiting - SinkIndices(sinks[..|sinks| - 1]))
    requires AllCharsIn(sinks[|sinks| - 1].0, src.Keys)
    ensures var r := SupplyOne(b, src, sinks[|sinks| - 1].0, sinks[|sinks| - 1].1);
      Settled(r.g, src, r.pending, waiting - SinkIndices(sinks))
  {
    var n := |sinks| - 1;
    SettledSnoc(b, src, sinks[n].0, sinks[n].1, waiting - SinkIndices(sinks[..n]));
    SinkIndicesSnoc(sinks);
    assert waiting - SinkIndices(sinks[..n]) - {sinks[n].1} == waiting - SinkIndices(sinks);
  }

  /** The sink loop over no sinks changes nothing. */
  lemma SupplySinksNone(b: Build, src: Sources, sinks: Sinks)
    requires Fits(b, src) && SinksFit(b.g, sinks) && b.pending == []
    ensures sinks == [] ==> SupplySinks(b, src, sinks) == b && SinkIndices(sinks) == {}
  {
  }

  /** The last iteration of the sink loop keeps the invariant. */
  lemma SupplySinksSettlesLast(b: Build, src: Sources, sinks: Sinks, waiting: set<nat>)
    requires Fits(b, src) && SinksFit(b.g, sinks) && b.pending == [] && sinks != []
    requires AllCharsIn(sinks[|sinks| - 1].0, src.Keys)
    requires SinksFit(b.g, sinks[..|sinks| - 1])
    requires var b1 := SupplySinks(b, src, sinks[..|sinks| - 1]);
      Settled(b1.g, src, b1.pending, waiting - SinkIndices(sinks[..|sinks| - 1]))
    ensures Settled(SupplySinks(b, src, sinks).g, src, SupplySinks(b, src, sinks).pending,
                    waiting - SinkIndices(sinks))
  {
    var b1 := SupplySinksUnfold(b, src, sinks);
    hide *;
    SettledSinksSnoc(b1, src, sinks, waiting);
  }

  /** After the sink loop on an empty worklist, every Sink it supplied is
      fully connected and every queued entry is a consumer-fed Inventory. */
  lemma {:induction false} SupplySinksSettles(b: Build, src: Sources, sinks: Sinks, waiting: set<nat>)
    requires Fits(b, src) && SinksFit(b.g, sinks) && b.pending == []
    requires Settled(b.g, src, [], waiting)
    requires forall j | 0 <= j < |sinks| :: AllCharsIn(sinks[j].0, src.Keys)
    ensures Settled(SupplySinks(b, src, sinks).g, src, SupplySinks(b, src, sinks).pending,
                    waiting - SinkIndices(sinks))
    decreases |sinks|
  {
    SupplySinksNone(b, src, sinks);
    if sinks != [] {
      SinksFitInit(b.g, sinks);
    }
    hide *;
    if sinks == [] {
      assert waiting - SinkIndices(sinks) == waiting;
    } else {
      var n := |sinks| - 1;
      assert forall j | 0 <= j < n :: sinks[..n][j] == sinks[j];
      SupplySinksSettles(b, src, sinks[..n], waiting);
      SupplySinksSettlesLast(b, src, sinks, waiting);
    }
  }
}
