/** The bio-inspired and team networks of test_algorithms.py, node by node
    and edge by edge, as drawings (see the Drawing module). Node numbers
    follow the model's creation order: Sinks, Sources, then each node as
    the generator adds it. The test compares its networks up to
    isomorphism, so its node names carry no meaning of their own. */
module BioScenarios {
  import opened Outcomes
  import opened Words
  import opened Nodes
  import opened Construction
  import opened Expansion
  import opened Drawing
  import opened Generate
  import Bio
  import Team

  // ---------------------------------------------------------------------
  // The bio-inspired loop's building operations on networks

  /** The `while` loop's body: feed from a Source, or run the `for` loop. */
  lemma StepIs(b: Build, src: Sources, share: bool, p: Pending)
    requires Fits(b, src) && IsInventoryAt(b.g, p.inv, p.word)
    ensures p.word in src ==> Bio.Step(b, src, share, p) == Feed(b, src, p)
    ensures p.word !in src ==> Bio.Step(b, src, share, p) == Bio.Junctions(b, src, share, p.inv, p.word, 1)
  {
  }

  /** A new Machine for `(l, r)`: one more node, and its edge to `inv`. */
  lemma HungNew(b: Build, src: Sources, share: bool, inv: nat, l: Word, r: Word, shapes: seq<Shape>, edges: seq<Edge>)
    requires Within(|shapes|, edges) && b.g == Network(shapes, edges)
    requires Fits(b, src) && IsInventoryAt(b.g, inv, l + r) && !(share && (l, r) in b.machines)
    ensures Within(|shapes| + 1, edges + [Edge(|shapes|, inv)])
    ensures Bio.Hang(b, src, share, inv, l, r) == (Build(
      Network(shapes + [MachineOf(l, r)], edges + [Edge(|shapes|, inv)]),
      b.pending, b.invs, b.machines[(l, r) := |shapes|]), |shapes|)
  {
    MachineShapes(l, r);
    Shaped(shapes, edges);
    Added(shapes, edges, MachineOf(l, r));
    Connected(shapes + [MachineOf(l, r)], edges, |shapes|, inv);
  }

  /** The cached Machine for `(l, r)`: one more edge, to `inv`. */
  lemma HungCached(b: Build, src: Sources, share: bool, inv: nat, l: Word, r: Word, shapes: seq<Shape>, edges: seq<Edge>)
    requires Within(|shapes|, edges) && b.g == Network(shapes, edges)
    requires Fits(b, src) && IsInventoryAt(b.g, inv, l + r) && share && (l, r) in b.machines
    ensures Within(|shapes|, edges + [Edge(b.machines[(l, r)], inv)])
    ensures Bio.Hang(b, src, share, inv, l, r)
      == (b.(g := Network(shapes, edges + [Edge(b.machines[(l, r)], inv)])), b.machines[(l, r)])
  {
    MachineShapes(l, r);
    Shaped(shapes, edges);
    assert IsMachineAt(b.g, b.machines[(l, r)], l, r);
    Connected(shapes, edges, b.machines[(l, r)], inv);
  }

  /** A new Inventory of `x`, queued and cached: one more node, and its edge
      to Machine `m`. */
  lemma AttachedNew(b: Build, src: Sources, m: nat, x: Word, shapes: seq<Shape>, edges: seq<Edge>)
    requires Within(|shapes|, edges) && b.g == Network(shapes, edges)
    requires Fits(b, src) && m < |b.g| && b.g[m].shape.MachineOf?
    requires (x == b.g[m].shape.left || x == b.g[m].shape.right) && x !in b.invs
    ensures Within(|shapes| + 1, edges + [Edge(|shapes|, m)])
    ensures Bio.Attach(b, src, m, x) == Build(
      Network(shapes + [InventoryOf(x)], edges + [Edge(|shapes|, m)]),
      b.pending + [Pending(|shapes|, x)], b.invs[x := |shapes|], b.machines)
  {
    MachineShapes(b.g[m].shape.left, b.g[m].shape.right);
    Shaped(shapes, edges);
    Added(shapes, edges, InventoryOf(x));
    Connected(shapes + [InventoryOf(x)], edges, |shapes|, m);
  }

  /** The cached Inventory of `x`: one more edge, to Machine `m`. */
  lemma AttachedCached(b: Build, src: Sources, m: nat, x: Word, shapes: seq<Shape>, edges: seq<Edge>)
    requires Within(|shapes|, edges) && b.g == Network(shapes, edges)
    requires Fits(b, src) && m < |b.g| && b.g[m].shape.MachineOf?
    requires (x == b.g[m].shape.left || x == b.g[m].shape.right) && x in b.invs
    ensures Within(|shapes|, edges + [Edge(b.invs[x], m)])
    ensures Bio.Attach(b, src, m, x) == b.(g := Network(shapes, edges + [Edge(b.invs[x], m)]))
  {
    MachineShapes(b.g[m].shape.left, b.g[m].shape.right);
    Shaped(shapes, edges);
    assert IsInventoryAt(b.g, b.invs[x], x);
    Connected(shapes, edges, b.invs[x], m);
  }

  /** One iteration of the `for` loop as its three building operations. */
  lemma JunctionSteps(b: Build, src: Sources, share: bool, inv: nat, w: Word, i: nat) returns (m: nat, b1: Build, b2: Build)
    requires Fits(b, src) && IsInventoryAt(b.g, inv, w) && 1 <= i < |w|
    ensures w[..i] + w[i..] == w
    ensures (b1, m) == Bio.Hang(b, src, share, inv, w[..i], w[i..])
    ensures Fits(b1, src) && m < |b1.g| && b1.g[m].shape == MachineOf(w[..i], w[i..])
    ensures b2 == Bio.Attach(b1, src, m, w[..i])
    ensures Fits(b2, src) && m < |b2.g| && b2.g[m].shape == MachineOf(w[..i], w[i..])
    ensures Bio.Junction(b, src, share, inv, w, i) == Bio.Attach(b2, src, m, w[i..])
  {
    Bio.CutFacts(w, i);
    var h := Bio.Hang(b, src, share, inv, w[..i], w[i..]);
    b1, m := h.0, h.1;
    b2 := Bio.Attach(b1, src, m, w[..i]);
  }

  /** The `for` loop, one iteration at a time. */
  lemma JunctionNext(b: Build, src: Sources, share: bool, inv: nat, w: Word, i: nat) returns (b': Build)
    requires Fits(b, src) && IsInventoryAt(b.g, inv, w) && 1 <= i < |w|
    ensures b' == Bio.Junction(b, src, share, inv, w, i) && Fits(b', src) && IsInventoryAt(b'.g, inv, w)
    ensures Bio.Junctions(b, src, share, inv, w, i) == Bio.Junctions(b', src, share, inv, w, i + 1)
  {
    b' := Bio.Junction(b, src, share, inv, w, i);
    InventoryStays(b.g, b'.g, inv, w);
    Bio.JunctionsUnfold(b, src, share, inv, w, i);
  }

  /** A turn of the `while` loop that feeds the last entry from its Source. */
  lemma BioFeedTurn(b: Build, src: Sources, share: bool, univ: set<Word>, shapes: seq<Shape>, edges: seq<Edge>)
    returns (b': Build)
    requires Within(|shapes|, edges) && b.g == Network(shapes, edges)
    requires Fits(b, src) && Bio.Within(b.pending, univ) && Bio.SplitClosed(univ)
    requires b.pending != [] && b.pending[|b.pending| - 1].word in src
    ensures Within(|shapes|, edges + [Edge(src[b.pending[|b.pending| - 1].word], b.pending[|b.pending| - 1].inv)])
    ensures b' == b.(
      g := Network(shapes, edges + [Edge(src[b.pending[|b.pending| - 1].word], b.pending[|b.pending| - 1].inv)]),
      pending := b.pending[..|b.pending| - 1])
    ensures Fits(b', src) && Bio.Within(b'.pending, univ)
    ensures Bio.Loop(b, src, share, univ) == Bio.Loop(b', src, share, univ)
  {
    hide *;
    var p, b1 := Bio.LoopPop(b, src, share, univ);
    StepIs(b1, src, share, p);
    Fed(b1, src, p, shapes, edges);
    b' := Bio.Step(b1, src, share, p);
  }

  /** A turn of the `while` loop that pops a word without a Source: the
      loop goes on from the end of the `for` loop. */
  lemma BioSplitTurn(b: Build, src: Sources, share: bool, univ: set<Word>) returns (b1: Build, p: Pending)
    requires Fits(b, src) && Bio.Within(b.pending, univ) && Bio.SplitClosed(univ)
    requires b.pending != [] && b.pending[|b.pending| - 1].word !in src
    ensures b1 == b.(pending := b.pending[..|b.pending| - 1]) && p == b.pending[|b.pending| - 1]
    ensures Fits(b1, src) && IsInventoryAt(b1.g, p.inv, p.word)
    ensures var r := Bio.Junctions(b1, src, share, p.inv, p.word, 1);
      && Fits(r, src) && Bio.Within(r.pending, univ)
      && Bio.Loop(b, src, share, univ) == Bio.Loop(r, src, share, univ)
  {
    hide *;
    p, b1 := Bio.LoopPop(b, src, share, univ);
    StepIs(b1, src, share, p);
  }

  /** The `while` loop stops on an empty worklist. */
  lemma BioDone(b: Build, src: Sources, share: bool, univ: set<Word>)
    requires Fits(b, src) && Bio.Within(b.pending, univ) && Bio.SplitClosed(univ) && b.pending == []
    ensures Bio.Loop(b, src, share, univ) == b
  {
    Bio.LoopDone(b, src, share, univ);
  }


  // ---------------------------------------------------------------------
  // The team generator's building operations on networks

  /** `generate` with one sink word: its loop body once. */
  lemma FrontsOne(g: Graph, w: Word, s: nat)
    requires SinksFit(g, [(w, s)])
    ensures IsSinkAt(g, s, w) && Team.Fronts(g, [(w, s)]) == Team.Front(g, w, s)
  {
    var g1, ps1 := Team.FrontsUnfold(g, [(w, s)]);
    assert [(w, s)][..0] == [];
    assert Team.Fronts(g, []) == (g, []);
    assert [] + Team.Front(g, w, s).1 == Team.Front(g, w, s).1;
  }

  /** The sink loop's body on a network: an Inventory feeding the Sink, then
      the `for` loop over the split positions. */
  lemma FrontSteps(g: Graph, w: Word, s: nat, shapes: seq<Shape>, edges: seq<Edge>)
    requires Within(|shapes|, edges) && g == Network(shapes, edges) && IsSinkAt(g, s, w)
    ensures Within(|shapes| + 1, edges + [Edge(|shapes|, s)])
    ensures IsInventoryAt(Network(shapes + [InventoryOf(w)], edges + [Edge(|shapes|, s)]), |shapes|, w)
    ensures Team.Front(g, w, s)
      == Team.Heads(Network(shapes + [InventoryOf(w)], edges + [Edge(|shapes|, s)]), |shapes|, w, 1)
  {
    SupplyShapes(w);
    Shaped(shapes, edges);
    Added(shapes, edges, InventoryOf(w));
    Connected(shapes + [InventoryOf(w)], edges, |shapes|, s);
    Shaped(shapes + [InventoryOf(w)], edges + [Edge(|shapes|, s)]);
  }

  /** One iteration of the `for` loop on a network: an expansion of split
      `i`, whose two new Inventories form the next pair. */
  lemma HeadDrawn(g: Graph, inv: nat, w: Word, i: nat, shapes: seq<Shape>, edges: seq<Edge>) returns (g1: Graph, p: Team.Pair)
    requires Within(|shapes|, edges) && g == Network(shapes, edges) && IsInventoryAt(g, inv, w) && 1 <= i < |w|
    ensures Within(|shapes| + 3, edges + NewEdges(|shapes|, inv, None, None))
    ensures g1 == Network(shapes + NewNodes(w[..i], w[i..]), edges + NewEdges(|shapes|, inv, None, None))
    ensures p == Team.Pair(Pending(|shapes| + 1, w[..i]), Pending(|shapes| + 2, w[i..]))
    ensures IsInventoryAt(g1, inv, w)
    ensures Team.Heads(g, inv, w, i)
      == (Team.Heads(g1, inv, w, i + 1).0, [p] + Team.Heads(g1, inv, w, i + 1).1)
  {
    hide Network, Links, Bare, Expand, Team.Heads, Team.Head, Fits, Grows, NewEdges, NewNodes;
    g1, p := Team.HeadsUnfold(g, inv, w, i);
    HeadExpands(g, inv, w, i);
    Shaped(shapes, edges);
    ExpandedNetwork(shapes, edges, inv, w[..i], w[i..], None, None);
  }

  lemma HeadExpands(g: Graph, inv: nat, w: Word, i: nat)
    requires IsInventoryAt(g, inv, w) && 1 <= i < |w|
    ensures w[..i] + w[i..] == w
    ensures Team.Head(g, inv, w, i)
      == (Expand(g, inv, w[..i], w[i..], None, None), Team.Pair(Pending(|g| + 1, w[..i]), Pending(|g| + 2, w[i..])))
  {
  }

  /** form_product_focussed_team_assembly as its two loops. */
  lemma TeamUnfold(g: Graph, src: Sources, sinks: Sinks)
    requires SourcesFit(g, src) && SinksFit(g, sinks)
    ensures var f := Team.Fronts(g, sinks);
      && SourcesFit(f.0, src) && Team.PairsFit(f.0, f.1)
      && Team.FormTeam(g, src, sinks) == Team.Crews(f.0, src, f.1)
  {
    Team.SourcesGrow(g, Team.Fronts(g, sinks).0, src);
  }

  /** The team loop, the last team last. */
  lemma CrewsNext(g: Graph, src: Sources, ps: seq<Team.Pair>)
    requires SourcesFit(g, src) && Team.PairsFit(g, ps) && ps != []
    ensures Team.PairsFit(g, ps[..|ps| - 1])
    ensures var g1 := Team.Crews(g, src, ps[..|ps| - 1]);
      && SourcesFit(g1, src) && Team.PairFits(g1, ps[|ps| - 1])
      && Team.Crews(g, src, ps) == Team.Crew(g1, src, ps[|ps| - 1])
  {
    var n := |ps| - 1;
    var g1 := Team.Crews(g, src, ps[..n]);
    Team.SourcesGrow(g, g1, src);
    Team.PairGrows(g, g1, ps[n]);
  }

  lemma CrewsNone(g: Graph, src: Sources)
    requires SourcesFit(g, src)
    ensures Team.PairsFit(g, []) && Team.Crews(g, src, []) == g
  {
  }

  /** One team: the bio-inspired `while` loop without sharing, from the
      team's two Inventories. */
  lemma CrewIs(g: Graph, src: Sources, p: Team.Pair)
    requires SourcesFit(g, src) && Team.PairFits(g, p)
    ensures var b := Team.Kickoff(g, p);
      && b == Build(g, [p.left, p.right], map[p.left.word := p.left.inv][p.right.word := p.right.inv], map[])
      && Fits(b, src) && Bio.Within(b.pending, Team.Scope(p)) && Bio.SplitClosed(Team.Scope(p))
      && Team.Crew(g, src, p) == Bio.Loop(b, src, false, Team.Scope(p)).g
  {
    Team.KickoffFits(g, src, p);
  }

  // ---------------------------------------------------------------------
  // form_bio_inspired_assembly on "ABC"

  // The arena and the sink loop on "ABC"

  lemma DistinctAbcUpper()
    ensures Distinct(["ABC"]) == ["ABC"]
    ensures Letters(["ABC"]) == "ABC"
    ensures Distinct("ABC") == "ABC"
  {
    assert ["ABC"][..0] == [];
    assert Letters(["ABC"]) == Letters([]) + "ABC";
    assert "ABC"[..2] == "AB" && "AB"[..1] == "A" && "A"[..0] == [];
  }

  lemma BioArenaNodes()
    ensures ArenaOf(["ABC"]).g == Network([SinkOf("ABC"), SourceOf("A"), SourceOf("B"), SourceOf("C")], [])
  {
    hide *;
    DistinctAbcUpper();
    var ws, cs := ArenaFacts(["ABC"]);
    var a := ArenaOf(["ABC"]);
    NetworkBare([SinkOf("ABC"), SourceOf("A"), SourceOf("B"), SourceOf("C")]);
    assert a.g[1] == Fresh(SourceOf(["ABC"[0]])) && a.g[2] == Fresh(SourceOf(["ABC"[1]]));
    assert a.g[3] == Fresh(SourceOf(["ABC"[2]]));
  }

  lemma BioArenaSources()
    ensures ArenaOf(["ABC"]).src == map["A" := 1, "B" := 2, "C" := 3]
  {
    hide *;
    DistinctAbcUpper();
    var ws, cs := ArenaFacts(["ABC"]);
    var a := ArenaOf(["ABC"]);
    assert ["ABC"[0]] == "A" && ["ABC"[1]] == "B" && ["ABC"[2]] == "C";
    assert a.src.Keys == {"A", "B", "C"};
  }

  /** `generate` on "ABC": the Sink, then the Sources of 'A' to 'C'. */
  lemma BioArena()
    ensures ArenaOf(["ABC"]) == Arena(
      Network([SinkOf("ABC"), SourceOf("A"), SourceOf("B"), SourceOf("C")], []),
      map["A" := 1, "B" := 2, "C" := 3], [("ABC", 0)])
  {
    hide *;
    BioArenaNodes();
    BioArenaSources();
    DistinctAbcUpper();
    var ws, cs := ArenaFacts(["ABC"]);
  }

  /** The sink loop on "ABC": an Inventory of "ABC" feeding its Sink,
      queued and cached. */
  lemma BioSupply(b0: Build, src: Sources)
    requires b0 == Build(Network([SinkOf("ABC"), SourceOf("A"), SourceOf("B"), SourceOf("C")], []),
      [], map[], map[])
    requires src == map["A" := 1, "B" := 2, "C" := 3] && Fits(b0, src)
    requires SinksFit(b0.g, [("ABC", 0)])
    ensures Within(5, [Edge(4, 0)])
    ensures SupplySinks(b0, src, [("ABC", 0)]) == Build(
      Network([SinkOf("ABC"), SourceOf("A"), SourceOf("B"), SourceOf("C"), InventoryOf("ABC")], [Edge(4, 0)]),
      [Pending(4, "ABC")], map["ABC" := 4], map[])
  {
    hide *;
    var shapes := [SinkOf("ABC"), SourceOf("A"), SourceOf("B"), SourceOf("C")];
    NetworkBare(shapes);
    var b1 := SupplySinksUnfold(b0, src, [("ABC", 0)]);
    assert [("ABC", 0)][..0] == [];
    SupplySinksNone(b0, src, []);
    Supplied(b0, src, "ABC", 0, shapes, []);
    assert shapes + [InventoryOf("ABC")]
      == [SinkOf("ABC"), SourceOf("A"), SourceOf("B"), SourceOf("C"), InventoryOf("ABC")];
    assert [] + [Edge(4, 0)] == [Edge(4, 0)] && [] + [Pending(4, "ABC")] == [Pending(4, "ABC")];
    assert map[]["ABC" := 4] == map["ABC" := 4];
  }

  /** test_algorithms.py, fifth case: the bio-inspired generator on "ABC"
      builds one Inventory per factor of "ABC" and one Machine per split of
      each factor of two or more characters, sharing Inventories between
      Machines: "A" feeds both A+B and A+BC, "B" both A+B and B+C, "C"
      both B+C and AB+C. */
  lemma BioAbc()
    ensures Run(BioInspired, ArenaOf(["ABC"])) == Ok(Network(
      [SinkOf("ABC"), SourceOf("A"), SourceOf("B"), SourceOf("C"), InventoryOf("ABC"),
        MachineOf("A", "BC"), InventoryOf("A"), InventoryOf("BC"), MachineOf("AB", "C"),
        InventoryOf("AB"), InventoryOf("C"), MachineOf("A", "B"), InventoryOf("B"),
        MachineOf("B", "C")],
      [Edge(4, 0), Edge(5, 4), Edge(6, 5), Edge(7, 5), Edge(8, 4), Edge(9, 8), Edge(10, 8),
        Edge(3, 10), Edge(11, 9), Edge(6, 11), Edge(12, 11), Edge(2, 12), Edge(13, 7), Edge(12, 13),
        Edge(10, 13), Edge(1, 6)]))
  {
    hide *;
    var a := ArenaOf(["ABC"]);
    BioArena();
    ArenaSetting(["ABC"]);
    SettingFacts(a.g, a.src, a.sinks);
    RunCases(BioInspired, a);
    var b1 := Bio.BioUnfold(a.g, a.src, a.sinks);
    BioSupply(Build(a.g, [], map[], map[]), a.src);
    var univ := Bio.Factors(SinkWords(a.sinks));
    var s1 := [SinkOf("ABC"), SourceOf("A"), SourceOf("B"), SourceOf("C"), InventoryOf("ABC")];
    var e1 := [Edge(4, 0)];
    var b2, s2, e2 := BioAbcFirst(b1, a.src, univ, s1, e1);
    var b3, s3, e3 := BioAbcSecond(b2, a.src, univ, s2, e2);
    var b4, s4, e4 := BioAbcThird(b3, a.src, univ, s3, e3);
    var b5, s5, e5 := BioAbcFourth(b4, a.src, univ, s4, e4);
    var b6, s6, e6 := BioAbcFifth(b5, a.src, univ, s5, e5);
    var b7, s7, e7 := BioAbcSixth(b6, a.src, univ, s6, e6);
    BioDone(b7, a.src, true, univ);
  }

  /** Turn 1, split 1 of "ABC": A + BC. */
  lemma BioAbcFirstSplit1(b: Build, src: Sources, shapes: seq<Shape>, edges: seq<Edge>)
    returns (b': Build, shapes': seq<Shape>, edges': seq<Edge>)
    requires Within(|shapes|, edges) && |shapes| == 5 && b.g == Network(shapes, edges)
    requires Fits(b, src) && IsInventoryAt(b.g, 4, "ABC")
    requires ("A", "BC") !in b.machines
    requires "A" !in b.invs
    requires "BC" !in b.invs
    ensures shapes' == shapes + [MachineOf("A", "BC"), InventoryOf("A"), InventoryOf("BC")]
    ensures edges' == edges + [Edge(5, 4), Edge(6, 5), Edge(7, 5)]
    ensures Within(|shapes'|, edges')
    ensures b' == Build(Network(shapes', edges'), b.pending + [Pending(6, "A"), Pending(7, "BC")], b.invs["A" := 6]["BC" := 7], b.machines[("A", "BC") := 5])
    ensures Fits(b', src) && Bio.Junction(b, src, true, 4, "ABC", 1) == b'
  {
    hide Network, Links, Bare, Fits, Within, Bio.Hang, Bio.Attach, Bio.Junction;
    var m, c1, c2 := JunctionSteps(b, src, true, 4, "ABC", 1);
    assert "ABC"[..1] == "A" && "ABC"[1..] == "BC";
    HungNew(b, src, true, 4, "A", "BC", shapes, edges);
    var s1, e1 := shapes + [MachineOf("A", "BC")], edges + [Edge(5, 4)];
    AttachedNew(c1, src, m, "A", s1, e1);
    var s2, e2 := s1 + [InventoryOf("A")], e1 + [Edge(6, 5)];
    AttachedNew(c2, src, m, "BC", s2, e2);
    var s3, e3 := s2 + [InventoryOf("BC")], e2 + [Edge(7, 5)];
    b' := Bio.Attach(c2, src, m, "BC");
    shapes', edges' := s3, e3;
  }

  /** Turn 1, split 2 of "ABC": AB + C. */
  lemma BioAbcFirstSplit2(b: Build, src: Sources, shapes: seq<Shape>, edges: seq<Edge>)
    returns (b': Build, shapes': seq<Shape>, edges': seq<Edge>)
    requires Within(|shapes|, edges) && |shapes| == 8 && b.g == Network(shapes, edges)
    requires Fits(b, src) && IsInventoryAt(b.g, 4, "ABC")
    requires ("AB", "C") !in b.machines
    requires "AB" !in b.invs
    requires "C" !in b.invs
    ensures shapes' == shapes + [MachineOf("AB", "C"), InventoryOf("AB"), InventoryOf("C")]
    ensures edges' == edges + [Edge(8, 4), Edge(9, 8), Edge(10, 8)]
    ensures Within(|shapes'|, edges')
    ensures b' == Build(Network(shapes', edges'), b.pending + [Pending(9, "AB"), Pending(10, "C")], b.invs["AB" := 9]["C" := 10], b.machines[("AB", "C") := 8])
    ensures Fits(b', src) && Bio.Junction(b, src, true, 4, "ABC", 2) == b'
  {
    hide Network, Links, Bare, Fits, Within, Bio.Hang, Bio.Attach, Bio.Junction;
    var m, c1, c2 := JunctionSteps(b, src, true, 4, "ABC", 2);
    assert "ABC"[..2] == "AB" && "ABC"[2..] == "C";
    HungNew(b, src, true, 4, "AB", "C", shapes, edges);
    var s1, e1 := shapes + [MachineOf("AB", "C")], edges + [Edge(8, 4)];
    AttachedNew(c1, src, m, "AB", s1, e1);
    var s2, e2 := s1 + [InventoryOf("AB")], e1 + [Edge(9, 8)];
    AttachedNew(c2, src, m, "C", s2, e2);
    var s3, e3 := s2 + [InventoryOf("C")], e2 + [Edge(10, 8)];
    b' := Bio.Attach(c2, src, m, "C");
    shapes', edges' := s3, e3;
  }

  /** Turn 1: "ABC" gets a Machine per split position. */
  lemma BioAbcFirst(b: Build, src: Sources, univ: set<Word>, shapes: seq<Shape>, edges: seq<Edge>)
    returns (b': Build, shapes': seq<Shape>, edges': seq<Edge>)
    requires shapes == [SinkOf("ABC"), SourceOf("A"), SourceOf("B"), SourceOf("C"),
                        InventoryOf("ABC")]
    requires edges == [Edge(4, 0)]
    requires Within(|shapes|, edges) && src == map["A" := 1, "B" := 2, "C" := 3]
    requires b == Build(Network(shapes, edges),
      [Pending(4, "ABC")],
      map["ABC" := 4], map[])
    requires Fits(b, src) && Bio.Within(b.pending, univ) && Bio.SplitClosed(univ)
    ensures shapes' == [SinkOf("ABC"), SourceOf("A"), SourceOf("B"), SourceOf("C"),
                        InventoryOf("ABC"), MachineOf("A", "BC"), InventoryOf("A"),
                        InventoryOf("BC"), MachineOf("AB", "C"), InventoryOf("AB"),
                        InventoryOf("C")]
    ensures edges' == [Edge(4, 0), Edge(5, 4), Edge(6, 5), Edge(7, 5), Edge(8, 4), Edge(9, 8),
                       Edge(10, 8)]
    ensures Within(|shapes'|, edges')
    ensures b' == Build(Network(shapes', edges'),
      [Pending(6, "A"), Pending(7, "BC"), Pending(9, "AB"), Pending(10, "C")],
      map["ABC" := 4, "A" := 6, "BC" := 7, "AB" := 9, "C" := 10], map[("A", "BC") := 5, ("AB", "C") := 8])
    ensures Fits(b', src) && Bio.Within(b'.pending, univ) && Bio.Loop(b, src, true, univ) == Bio.Loop(b', src, true, univ)
  {
    hide Network, Links, Bare, Fits, Within, Bio.Loop, Bio.Junctions, Bio.Junction, Bio.Step, Bio.Within, Bio.SplitClosed;
    var b1, p := BioSplitTurn(b, src, true, univ);
    assert b.pending[..0] == [];
    var c1 := JunctionNext(b1, src, true, 4, "ABC", 1);
    var d1, s1, e1 := BioAbcFirstSplit1(b1, src, shapes, edges);
    var c2 := JunctionNext(c1, src, true, 4, "ABC", 2);
    var d2, s2, e2 := BioAbcFirstSplit2(c1, src, s1, e1);
    Bio.JunctionsDone(c2, src, true, 4, "ABC", 3);
    b', shapes', edges' := c2, s2, e2;
  }

  /** Turn 2: "C" is fed from its Source. */
  lemma BioAbcSecond(b: Build, src: Sources, univ: set<Word>, shapes: seq<Shape>, edges: seq<Edge>)
    returns (b': Build, shapes': seq<Shape>, edges': seq<Edge>)
    requires shapes == [SinkOf("ABC"), SourceOf("A"), SourceOf("B"), SourceOf("C"),
                        InventoryOf("ABC"), MachineOf("A", "BC"), InventoryOf("A"),
                        InventoryOf("BC"), MachineOf("AB", "C"), InventoryOf("AB"),
                        InventoryOf("C")]
    requires edges == [Edge(4, 0), Edge(5, 4), Edge(6, 5), Edge(7, 5), Edge(8, 4), Edge(9, 8),
                       Edge(10, 8)]
    requires Within(|shapes|, edges) && src == map["A" := 1, "B" := 2, "C" := 3]
    requires b == Build(Network(shapes, edges),
      [Pending(6, "A"), Pending(7, "BC"), Pending(9, "AB"), Pending(10, "C")],
      map["ABC" := 4, "A" := 6, "BC" := 7, "AB" := 9, "C" := 10], map[("A", "BC") := 5, ("AB", "C") := 8])
    requires Fits(b, src) && Bio.Within(b.pending, univ) && Bio.SplitClosed(univ)
    ensures shapes' == [SinkOf("ABC"), SourceOf("A"), SourceOf("B"), SourceOf("C"),
                        InventoryOf("ABC"), MachineOf("A", "BC"), InventoryOf("A"),
                        InventoryOf("BC"), MachineOf("AB", "C"), InventoryOf("AB"),
                        InventoryOf("C")]
    ensures edges' == [Edge(4, 0), Edge(5, 4), Edge(6, 5), Edge(7, 5), Edge(8, 4), Edge(9, 8),
                       Edge(10, 8), Edge(3, 10)]
    ensures Within(|shapes'|, edges')
    ensures b' == Build(Network(shapes', edges'),
      [Pending(6, "A"), Pending(7, "BC"), Pending(9, "AB")],
      map["ABC" := 4, "A" := 6, "BC" := 7, "AB" := 9, "C" := 10], map[("A", "BC") := 5, ("AB", "C") := 8])
    ensures Fits(b', src) && Bio.Within(b'.pending, univ) && Bio.Loop(b, src, true, univ) == Bio.Loop(b', src, true, univ)
  {
    hide Network, Links, Bare, Fits, Within, Bio.Loop, Bio.Junctions, Bio.Junction, Bio.Step, Bio.Within, Bio.SplitClosed;
    b' := BioFeedTurn(b, src, true, univ, shapes, edges);
    shapes', edges' := shapes, edges + [Edge(3, 10)];
    assert b.pending[..3] == [Pending(6, "A"), Pending(7, "BC"), Pending(9, "AB")];
  }

  /** Turn 3, split 1 of "AB": A + B. */
  lemma BioAbcThirdSplit1(b: Build, src: Sources, shapes: seq<Shape>, edges: seq<Edge>)
    returns (b': Build, shapes': seq<Shape>, edges': seq<Edge>)
    requires Within(|shapes|, edges) && |shapes| == 11 && b.g == Network(shapes, edges)
    requires Fits(b, src) && IsInventoryAt(b.g, 9, "AB")
    requires ("A", "B") !in b.machines
    requires "A" in b.invs && b.invs["A"] == 6
    requires "B" !in b.invs
    ensures shapes' == shapes + [MachineOf("A", "B"), InventoryOf("B")]
    ensures edges' == edges + [Edge(11, 9), Edge(6, 11), Edge(12, 11)]
    ensures Within(|shapes'|, edges')
    ensures b' == Build(Network(shapes', edges'), b.pending + [Pending(12, "B")], b.invs["B" := 12], b.machines[("A", "B") := 11])
    ensures Fits(b', src) && Bio.Junction(b, src, true, 9, "AB", 1) == b'
  {
    hide Network, Links, Bare, Fits, Within, Bio.Hang, Bio.Attach, Bio.Junction;
    var m, c1, c2 := JunctionSteps(b, src, true, 9, "AB", 1);
    assert "AB"[..1] == "A" && "AB"[1..] == "B";
    HungNew(b, src, true, 9, "A", "B", shapes, edges);
    var s1, e1 := shapes + [MachineOf("A", "B")], edges + [Edge(11, 9)];
    AttachedCached(c1, src, m, "A", s1, e1);
    var s2, e2 := s1, e1 + [Edge(6, 11)];
    AttachedNew(c2, src, m, "B", s2, e2);
    var s3, e3 := s2 + [InventoryOf("B")], e2 + [Edge(12, 11)];
    b' := Bio.Attach(c2, src, m, "B");
    shapes', edges' := s3, e3;
  }

  /** Turn 3: "AB" gets a Machine per split position. */
  lemma BioAbcThird(b: Build, src: Sources, univ: set<Word>, shapes: seq<Shape>, edges: seq<Edge>)
    returns (b': Build, shapes': seq<Shape>, edges': seq<Edge>)
    requires shapes == [SinkOf("ABC"), SourceOf("A"), SourceOf("B"), SourceOf("C"),
                        InventoryOf("ABC"), MachineOf("A", "BC"), InventoryOf("A"),
                        InventoryOf("BC"), MachineOf("AB", "C"), InventoryOf("AB"),
                        InventoryOf("C")]
    requires edges == [Edge(4, 0), Edge(5, 4), Edge(6, 5), Edge(7, 5), Edge(8, 4), Edge(9, 8),
                       Edge(10, 8), Edge(3, 10)]
    requires Within(|shapes|, edges) && src == map["A" := 1, "B" := 2, "C" := 3]
    requires b == Build(Network(shapes, edges),
      [Pending(6, "A"), Pending(7, "BC"), Pending(9, "AB")],
      map["ABC" := 4, "A" := 6, "BC" := 7, "AB" := 9, "C" := 10], map[("A", "BC") := 5, ("AB", "C") := 8])
    requires Fits(b, src) && Bio.Within(b.pending, univ) && Bio.SplitClosed(univ)
    ensures shapes' == [SinkOf("ABC"), SourceOf("A"), SourceOf("B"), SourceOf("C"),
                        InventoryOf("ABC"), MachineOf("A", "BC"), InventoryOf("A"),
                        InventoryOf("BC"), MachineOf("AB", "C"), InventoryOf("AB"),
                        InventoryOf("C"), MachineOf("A", "B"), InventoryOf("B")]
    ensures edges' == [Edge(4, 0), Edge(5, 4), Edge(6, 5), Edge(7, 5), Edge(8, 4), Edge(9, 8),
                       Edge(10, 8), Edge(3, 10), Edge(11, 9), Edge(6, 11), Edge(12, 11)]
    ensures Within(|shapes'|, edges')
    ensures b' == Build(Network(shapes', edges'),
      [Pending(6, "A"), Pending(7, "BC"), Pending(12, "B")],
      map["ABC" := 4, "A" := 6, "BC" := 7, "AB" := 9, "C" := 10, "B" := 12], map[("A", "BC") := 5, ("AB", "C") := 8, ("A", "B") := 11])
    ensures Fits(b', src) && Bio.Within(b'.pending, univ) && Bio.Loop(b, src, true, univ) == Bio.Loop(b', src, true, univ)
  {
    hide Network, Links, Bare, Fits, Within, Bio.Loop, Bio.Junctions, Bio.Junction, Bio.Step, Bio.Within, Bio.SplitClosed;
    var b1, p := BioSplitTurn(b, src, true, univ);
    assert b.pending[..2] == [Pending(6, "A"), Pending(7, "BC")];
    var c1 := JunctionNext(b1, src, true, 9, "AB", 1);
    var d1, s1, e1 := BioAbcThirdSplit1(b1, src, shapes, edges);
    Bio.JunctionsDone(c1, src, true, 9, "AB", 2);
    b', shapes', edges' := c1, s1, e1;
  }

  /** Turn 4: "B" is fed from its Source. */
  lemma BioAbcFourth(b: Build, src: Sources, univ: set<Word>, shapes: seq<Shape>, edges: seq<Edge>)
    returns (b': Build, shapes': seq<Shape>, edges': seq<Edge>)
    requires shapes == [SinkOf("ABC"), SourceOf("A"), SourceOf("B"), SourceOf("C"),
                        InventoryOf("ABC"), MachineOf("A", "BC"), InventoryOf("A"),
                        InventoryOf("BC"), MachineOf("AB", "C"), InventoryOf("AB"),
                        InventoryOf("C"), MachineOf("A", "B"), InventoryOf("B")]
    requires edges == [Edge(4, 0), Edge(5, 4), Edge(6, 5), Edge(7, 5), Edge(8, 4), Edge(9, 8),
                       Edge(10, 8), Edge(3, 10), Edge(11, 9), Edge(6, 11), Edge(12, 11)]
    requires Within(|shapes|, edges) && src == map["A" := 1, "B" := 2, "C" := 3]
    requires b == Build(Network(shapes, edges),
      [Pending(6, "A"), Pending(7, "BC"), Pending(12, "B")],
      map["ABC" := 4, "A" := 6, "BC" := 7, "AB" := 9, "C" := 10, "B" := 12], map[("A", "BC") := 5, ("AB", "C") := 8, ("A", "B") := 11])
    requires Fits(b, src) && Bio.Within(b.pending, univ) && Bio.SplitClosed(univ)
    ensures shapes' == [SinkOf("ABC"), SourceOf("A"), SourceOf("B"), SourceOf("C"),
                        InventoryOf("ABC"), MachineOf("A", "BC"), InventoryOf("A"),
                        InventoryOf("BC"), MachineOf("AB", "C"), InventoryOf("AB"),
                        InventoryOf("C"), MachineOf("A", "B"), InventoryOf("B")]
    ensures edges' == [Edge(4, 0), Edge(5, 4), Edge(6, 5), Edge(7, 5), Edge(8, 4), Edge(9, 8),
                       Edge(10, 8), Edge(3, 10), Edge(11, 9), Edge(6, 11), Edge(12, 11),
                       Edge(2, 12)]
    ensures Within(|shapes'|, edges')
    ensures b' == Build(Network(shapes', edges'),
      [Pending(6, "A"), Pending(7, "BC")],
      map["ABC" := 4, "A" := 6, "BC" := 7, "AB" := 9, "C" := 10, "B" := 12], map[("A", "BC") := 5, ("AB", "C") := 8, ("A", "B") := 11])
    ensures Fits(b', src) && Bio.Within(b'.pending, univ) && Bio.Loop(b, src, true, univ) == Bio.Loop(b', src, true, univ)
  {
    hide Network, Links, Bare, Fits, Within, Bio.Loop, Bio.Junctions, Bio.Junction, Bio.Step, Bio.Within, Bio.SplitClosed;
    b' := BioFeedTurn(b, src, true, univ, shapes, edges);
    shapes', edges' := shapes, edges + [Edge(2, 12)];
    assert b.pending[..2] == [Pending(6, "A"), Pending(7, "BC")];
  }

  /** Turn 5, split 1 of "BC": B + C. */
  lemma BioAbcFifthSplit1(b: Build, src: Sources, shapes: seq<Shape>, edges: seq<Edge>)
    returns (b': Build, shapes': seq<Shape>, edges': seq<Edge>)
    requires Within(|shapes|, edges) && |shapes| == 13 && b.g == Network(shapes, edges)
    requires Fits(b, src) && IsInventoryAt(b.g, 7, "BC")
    requires ("B", "C") !in b.machines
    requires "B" in b.invs && b.invs["B"] == 12
    requires "C" in b.invs && b.invs["C"] == 10
    ensures shapes' == shapes + [MachineOf("B", "C")]
    ensures edges' == edges + [Edge(13, 7), Edge(12, 13), Edge(10, 13)]
    ensures Within(|shapes'|, edges')
    ensures b' == Build(Network(shapes', edges'), b.pending, b.invs, b.machines[("B", "C") := 13])
    ensures Fits(b', src) && Bio.Junction(b, src, true, 7, "BC", 1) == b'
  {
    hide Network, Links, Bare, Fits, Within, Bio.Hang, Bio.Attach, Bio.Junction;
    var m, c1, c2 := JunctionSteps(b, src, true, 7, "BC", 1);
    assert "BC"[..1] == "B" && "BC"[1..] == "C";
    HungNew(b, src, true, 7, "B", "C", shapes, edges);
    var s1, e1 := shapes + [MachineOf("B", "C")], edges + [Edge(13, 7)];
    AttachedCached(c1, src, m, "B", s1, e1);
    var s2, e2 := s1, e1 + [Edge(12, 13)];
    AttachedCached(c2, src, m, "C", s2, e2);
    var s3, e3 := s2, e2 + [Edge(10, 13)];
    b' := Bio.Attach(c2, src, m, "C");
    shapes', edges' := s3, e3;
  }

  /** Turn 5: "BC" gets a Machine per split position. */
  lemma BioAbcFifth(b: Build, src: Sources, univ: set<Word>, shapes: seq<Shape>, edges: seq<Edge>)
    returns (b': Build, shapes': seq<Shape>, edges': seq<Edge>)
    requires shapes == [SinkOf("ABC"), SourceOf("A"), SourceOf("B"), SourceOf("C"),
                        InventoryOf("ABC"), MachineOf("A", "BC"), InventoryOf("A"),
                        InventoryOf("BC"), MachineOf("AB", "C"), InventoryOf("AB"),
                        InventoryOf("C"), MachineOf("A", "B"), InventoryOf("B")]
    requires edges == [Edge(4, 0), Edge(5, 4), Edge(6, 5), Edge(7, 5), Edge(8, 4), Edge(9, 8),
                       Edge(10, 8), Edge(3, 10), Edge(11, 9), Edge(6, 11), Edge(12, 11),
                       Edge(2, 12)]
    requires Within(|shapes|, edges) && src == map["A" := 1, "B" := 2, "C" := 3]
    requires b == Build(Network(shapes, edges),
      [Pending(6, "A"), Pending(7, "BC")],
      map["ABC" := 4, "A" := 6, "BC" := 7, "AB" := 9, "C" := 10, "B" := 12], map[("A", "BC") := 5, ("AB", "C") := 8, ("A", "B") := 11])
    requires Fits(b, src) && Bio.Within(b.pending, univ) && Bio.SplitClosed(univ)
    ensures shapes' == [SinkOf("ABC"), SourceOf("A"), SourceOf("B"), SourceOf("C"),
                        InventoryOf("ABC"), MachineOf("A", "BC"), InventoryOf("A"),
                        InventoryOf("BC"), MachineOf("AB", "C"), InventoryOf("AB"),
                        InventoryOf("C"), MachineOf("A", "B"), InventoryOf("B"),
                        MachineOf("B", "C")]
    ensures edges' == [Edge(4, 0), Edge(5, 4), Edge(6, 5), Edge(7, 5), Edge(8, 4), Edge(9, 8),
                       Edge(10, 8), Edge(3, 10), Edge(11, 9), Edge(6, 11), Edge(12, 11),
                       Edge(2, 12), Edge(13, 7), Edge(12, 13), Edge(10, 13)]
    ensures Within(|shapes'|, edges')
    ensures b' == Build(Network(shapes', edges'),
      [Pending(6, "A")],
      map["ABC" := 4, "A" := 6, "BC" := 7, "AB" := 9, "C" := 10, "B" := 12], map[("A", "BC") := 5, ("AB", "C") := 8, ("A", "B") := 11, ("B", "C") := 13])
    ensures Fits(b', src) && Bio.Within(b'.pending, univ) && Bio.Loop(b, src, true, univ) == Bio.Loop(b', src, true, univ)
  {
    hide Network, Links, Bare, Fits, Within, Bio.Loop, Bio.Junctions, Bio.Junction, Bio.Step, Bio.Within, Bio.SplitClosed;
    var b1, p := BioSplitTurn(b, src, true, univ);
    assert b.pending[..1] == [Pending(6, "A")];
    var c1 := JunctionNext(b1, src, true, 7, "BC", 1);
    var d1, s1, e1 := BioAbcFifthSplit1(b1, src, shapes, edges);
    Bio.JunctionsDone(c1, src, true, 7, "BC", 2);
    b', shapes', edges' := c1, s1, e1;
  }

  /** Turn 6: "A" is fed from its Source. */
  lemma BioAbcSixth(b: Build, src: Sources, univ: set<Word>, shapes: seq<Shape>, edges: seq<Edge>)
    returns (b': Build, shapes': seq<Shape>, edges': seq<Edge>)
    requires shapes == [SinkOf("ABC"), SourceOf("A"), SourceOf("B"), SourceOf("C"),
                        InventoryOf("ABC"), MachineOf("A", "BC"), InventoryOf("A"),
                        InventoryOf("BC"), MachineOf("AB", "C"), InventoryOf("AB"),
                        InventoryOf("C"), MachineOf("A", "B"), InventoryOf("B"),
                        MachineOf("B", "C")]
    requires edges == [Edge(4, 0), Edge(5, 4), Edge(6, 5), Edge(7, 5), Edge(8, 4), Edge(9, 8),
                       Edge(10, 8), Edge(3, 10), Edge(11, 9), Edge(6, 11), Edge(12, 11),
                       Edge(2, 12), Edge(13, 7), Edge(12, 13), Edge(10, 13)]
    requires Within(|shapes|, edges) && src == map["A" := 1, "B" := 2, "C" := 3]
    requires b == Build(Network(shapes, edges),
      [Pending(6, "A")],
      map["ABC" := 4, "A" := 6, "BC" := 7, "AB" := 9, "C" := 10, "B" := 12], map[("A", "BC") := 5, ("AB", "C") := 8, ("A", "B") := 11, ("B", "C") := 13])
    requires Fits(b, src) && Bio.Within(b.pending, univ) && Bio.SplitClosed(univ)
    ensures shapes' == [SinkOf("ABC"), SourceOf("A"), SourceOf("B"), SourceOf("C"),
                        InventoryOf("ABC"), MachineOf("A", "BC"), InventoryOf("A"),
                        InventoryOf("BC"), MachineOf("AB", "C"), InventoryOf("AB"),
                        InventoryOf("C"), MachineOf("A", "B"), InventoryOf("B"),
                        MachineOf("B", "C")]
    ensures edges' == [Edge(4, 0), Edge(5, 4), Edge(6, 5), Edge(7, 5), Edge(8, 4), Edge(9, 8),
                       Edge(10, 8), Edge(3, 10), Edge(11, 9), Edge(6, 11), Edge(12, 11),
                       Edge(2, 12), Edge(13, 7), Edge(12, 13), Edge(10, 13), Edge(1, 6)]
    ensures Within(|shapes'|, edges')
    ensures b' == Build(Network(shapes', edges'),
      [],
      map["ABC" := 4, "A" := 6, "BC" := 7, "AB" := 9, "C" := 10, "B" := 12], map[("A", "BC") := 5, ("AB", "C") := 8, ("A", "B") := 11, ("B", "C") := 13])
    ensures Fits(b', src) && Bio.Within(b'.pending, univ) && Bio.Loop(b, src, true, univ) == Bio.Loop(b', src, true, univ)
  {
    hide Network, Links, Bare, Fits, Within, Bio.Loop, Bio.Junctions, Bio.Junction, Bio.Step, Bio.Within, Bio.SplitClosed;
    b' := BioFeedTurn(b, src, true, univ, shapes, edges);
    shapes', edges' := shapes, edges + [Edge(1, 6)];
    assert b.pending[..0] == [];
  }
  // ---------------------------------------------------------------------
  // form_product_focussed_team_assembly on "abc"

  lemma DistinctAbc()
    ensures Distinct(["abc"]) == ["abc"]
    ensures Letters(["abc"]) == "abc"
    ensures Distinct("abc") == "abc"
  {
    assert ["abc"][..0] == [];
    assert Letters(["abc"]) == Letters([]) + "abc";
    assert "abc"[..2] == "ab" && "ab"[..1] == "a" && "a"[..0] == [];
  }

  lemma TeamArenaNodes()
    ensures ArenaOf(["abc"]).g == Network([SinkOf("abc"), SourceOf("a"), SourceOf("b"), SourceOf("c")], [])
  {
    hide *;
    DistinctAbc();
    var ws, cs := ArenaFacts(["abc"]);
    var a := ArenaOf(["abc"]);
    NetworkBare([SinkOf("abc"), SourceOf("a"), SourceOf("b"), SourceOf("c")]);
    assert a.g[1] == Fresh(SourceOf(["abc"[0]])) && a.g[2] == Fresh(SourceOf(["abc"[1]]));
    assert a.g[3] == Fresh(SourceOf(["abc"[2]]));
  }

  lemma TeamArenaSources()
    ensures ArenaOf(["abc"]).src == map["a" := 1, "b" := 2, "c" := 3]
  {
    hide *;
    DistinctAbc();
    var ws, cs := ArenaFacts(["abc"]);
    var a := ArenaOf(["abc"]);
    assert ["abc"[0]] == "a" && ["abc"[1]] == "b" && ["abc"[2]] == "c";
    assert a.src.Keys == {"a", "b", "c"};
  }

  /** `generate` on "abc": the Sink, then the Sources of 'a' to 'c'. */
  lemma TeamArena()
    ensures ArenaOf(["abc"]) == Arena(Network([SinkOf("abc"), SourceOf("a"), SourceOf("b"), SourceOf("c")], []), map["a" := 1, "b" := 2, "c" := 3], [("abc", 0)])
  {
    hide *;
    TeamArenaNodes();
    TeamArenaSources();
    DistinctAbc();
    var ws, cs := ArenaFacts(["abc"]);
  }

  /** The team generator's sink loop on "abc": an Inventory feeding the
      Sink, Machines a+bc and ab+c feeding that Inventory, each fed by two
      fresh Inventories, which form the two teams' pairs. */
  lemma TeamFronts()
    requires SinksFit(Network([SinkOf("abc"), SourceOf("a"), SourceOf("b"), SourceOf("c")], []), [("abc", 0)])
    ensures Within(11, [Edge(4, 0), Edge(5, 4), Edge(6, 5), Edge(7, 5), Edge(8, 4), Edge(9, 8), Edge(10, 8)])
    ensures Team.Fronts(Network([SinkOf("abc"), SourceOf("a"), SourceOf("b"), SourceOf("c")], []), [("abc", 0)])
      == (Network([SinkOf("abc"), SourceOf("a"), SourceOf("b"), SourceOf("c"), InventoryOf("abc"),
 MachineOf("a", "bc"), InventoryOf("a"), InventoryOf("bc"), MachineOf("ab", "c"),
 InventoryOf("ab"), InventoryOf("c")],
                  [Edge(4, 0), Edge(5, 4), Edge(6, 5), Edge(7, 5), Edge(8, 4), Edge(9, 8), Edge(10, 8)]),
          [Team.Pair(Pending(6, "a"), Pending(7, "bc")), Team.Pair(Pending(9, "ab"), Pending(10, "c"))])
  {
    hide Network, Links, Bare, Fits, Within, Team.Heads, Team.Front, Team.Fronts, Expand, SinksFit;
    var shapes := [SinkOf("abc"), SourceOf("a"), SourceOf("b"), SourceOf("c")];
    var g := Network(shapes, []);
    NetworkBare(shapes);
    FrontsOne(g, "abc", 0);
    FrontSteps(g, "abc", 0, shapes, []);
    var s1, e1 := shapes + [InventoryOf("abc")], [] + [Edge(4, 0)];
    var g1, p1 := HeadDrawn(Network(s1, e1), 4, "abc", 1, s1, e1);
    assert "abc"[..1] == "a" && "abc"[1..] == "bc" && "abc"[..2] == "ab" && "abc"[2..] == "c";
    var s2, e2 := s1 + NewNodes("a", "bc"), e1 + NewEdges(5, 4, None, None);
    var g2, p2 := HeadDrawn(g1, 4, "abc", 2, s2, e2);
    var s3, e3 := s2 + NewNodes("ab", "c"), e2 + NewEdges(8, 4, None, None);
    Team.HeadsDone(g2, 4, "abc", 3);
    assert s3 == [SinkOf("abc"), SourceOf("a"), SourceOf("b"), SourceOf("c"), InventoryOf("abc"),
 MachineOf("a", "bc"), InventoryOf("a"), InventoryOf("bc"), MachineOf("ab", "c"),
 InventoryOf("ab"), InventoryOf("c")];
    assert e3 == [Edge(4, 0), Edge(5, 4), Edge(6, 5), Edge(7, 5), Edge(8, 4), Edge(9, 8), Edge(10, 8)];
    assert [p1] + ([p2] + []) == [Team.Pair(Pending(6, "a"), Pending(7, "bc")), Team.Pair(Pending(9, "ab"), Pending(10, "c"))];
  }

  /** Turn 1, split 1 of "bc": b + c. */
  lemma TeamFirstCrewFirstSplit1(b: Build, src: Sources, shapes: seq<Shape>, edges: seq<Edge>)
    returns (b': Build, shapes': seq<Shape>, edges': seq<Edge>)
    requires Within(|shapes|, edges) && |shapes| == 11 && b.g == Network(shapes, edges)
    requires Fits(b, src) && IsInventoryAt(b.g, 7, "bc")
    requires "b" !in b.invs
    requires "c" !in b.invs
    ensures shapes' == shapes + [MachineOf("b", "c"), InventoryOf("b"), InventoryOf("c")]
    ensures edges' == edges + [Edge(11, 7), Edge(12, 11), Edge(13, 11)]
    ensures Within(|shapes'|, edges')
    ensures b' == Build(Network(shapes', edges'), b.pending + [Pending(12, "b"), Pending(13, "c")], b.invs["b" := 12]["c" := 13], b.machines[("b", "c") := 11])
    ensures Fits(b', src) && Bio.Junction(b, src, false, 7, "bc", 1) == b'
  {
    hide Network, Links, Bare, Fits, Within, Bio.Hang, Bio.Attach, Bio.Junction;
    var m, c1, c2 := JunctionSteps(b, src, false, 7, "bc", 1);
    assert "bc"[..1] == "b" && "bc"[1..] == "c";
    HungNew(b, src, false, 7, "b", "c", shapes, edges);
    var s1, e1 := shapes + [MachineOf("b", "c")], edges + [Edge(11, 7)];
    AttachedNew(c1, src, m, "b", s1, e1);
    var s2, e2 := s1 + [InventoryOf("b")], e1 + [Edge(12, 11)];
    AttachedNew(c2, src, m, "c", s2, e2);
    var s3, e3 := s2 + [InventoryOf("c")], e2 + [Edge(13, 11)];
    b' := Bio.Attach(c2, src, m, "c");
    shapes', edges' := s3, e3;
  }

  /** Turn 1: "bc" gets a Machine per split position. */
  lemma TeamFirstCrewFirst(b: Build, src: Sources, univ: set<Word>, shapes: seq<Shape>, edges: seq<Edge>)
    returns (b': Build, shapes': seq<Shape>, edges': seq<Edge>)
    requires shapes == [SinkOf("abc"), SourceOf("a"), SourceOf("b"), SourceOf("c"),
                        InventoryOf("abc"), MachineOf("a", "bc"), InventoryOf("a"),
                        InventoryOf("bc"), MachineOf("ab", "c"), InventoryOf("ab"),
                        InventoryOf("c")]
    requires edges == [Edge(4, 0), Edge(5, 4), Edge(6, 5), Edge(7, 5), Edge(8, 4), Edge(9, 8),
                       Edge(10, 8)]
    requires Within(|shapes|, edges) && src == map["a" := 1, "b" := 2, "c" := 3]
    requires b == Build(Network(shapes, edges),
      [Pending(6, "a"), Pending(7, "bc")],
      map["a" := 6, "bc" := 7], map[])
    requires Fits(b, src) && Bio.Within(b.pending, univ) && Bio.SplitClosed(univ)
    ensures shapes' == [SinkOf("abc"), SourceOf("a"), SourceOf("b"), SourceOf("c"),
                        InventoryOf("abc"), MachineOf("a", "bc"), InventoryOf("a"),
                        InventoryOf("bc"), MachineOf("ab", "c"), InventoryOf("ab"),
                        InventoryOf("c"), MachineOf("b", "c"), InventoryOf("b"), InventoryOf("c")]
    ensures edges' == [Edge(4, 0), Edge(5, 4), Edge(6, 5), Edge(7, 5), Edge(8, 4), Edge(9, 8),
                       Edge(10, 8), Edge(11, 7), Edge(12, 11), Edge(13, 11)]
    ensures Within(|shapes'|, edges')
    ensures b' == Build(Network(shapes', edges'),
      [Pending(6, "a"), Pending(12, "b"), Pending(13, "c")],
      map["a" := 6, "bc" := 7, "b" := 12, "c" := 13], map[("b", "c") := 11])
    ensures Fits(b', src) && Bio.Within(b'.pending, univ) && Bio.Loop(b, src, false, univ) == Bio.Loop(b', src, false, univ)
  {
    hide Network, Links, Bare, Fits, Within, Bio.Loop, Bio.Junctions, Bio.Junction, Bio.Step, Bio.Within, Bio.SplitClosed;
    var b1, p := BioSplitTurn(b, src, false, univ);
    assert b.pending[..1] == [Pending(6, "a")];
    var c1 := JunctionNext(b1, src, false, 7, "bc", 1);
    var d1, s1, e1 := TeamFirstCrewFirstSplit1(b1, src, shapes, edges);
    Bio.JunctionsDone(c1, src, false, 7, "bc", 2);
    b', shapes', edges' := c1, s1, e1;
  }

  /** Turn 2: "c" is fed from its Source. */
  lemma TeamFirstCrewSecond(b: Build, src: Sources, univ: set<Word>, shapes: seq<Shape>, edges: seq<Edge>)
    returns (b': Build, shapes': seq<Shape>, edges': seq<Edge>)
    requires shapes == [SinkOf("abc"), SourceOf("a"), SourceOf("b"), SourceOf("c"),
                        InventoryOf("abc"), MachineOf("a", "bc"), InventoryOf("a"),
                        InventoryOf("bc"), MachineOf("ab", "c"), InventoryOf("ab"),
                        InventoryOf("c"), MachineOf("b", "c"), InventoryOf("b"), InventoryOf("c")]
    requires edges == [Edge(4, 0), Edge(5, 4), Edge(6, 5), Edge(7, 5), Edge(8, 4), Edge(9, 8),
                       Edge(10, 8), Edge(11, 7), Edge(12, 11), Edge(13, 11)]
    requires Within(|shapes|, edges) && src == map["a" := 1, "b" := 2, "c" := 3]
    requires b == Build(Network(shapes, edges),
      [Pending(6, "a"), Pending(12, "b"), Pending(13, "c")],
      map["a" := 6, "bc" := 7, "b" := 12, "c" := 13], map[("b", "c") := 11])
    requires Fits(b, src) && Bio.Within(b.pending, univ) && Bio.SplitClosed(univ)
    ensures shapes' == [SinkOf("abc"), SourceOf("a"), SourceOf("b"), SourceOf("c"),
                        InventoryOf("abc"), MachineOf("a", "bc"), InventoryOf("a"),
                        InventoryOf("bc"), MachineOf("ab", "c"), InventoryOf("ab"),
                        InventoryOf("c"), MachineOf("b", "c"), InventoryOf("b"), InventoryOf("c")]
    ensures edges' == [Edge(4, 0), Edge(5, 4), Edge(6, 5), Edge(7, 5), Edge(8, 4), Edge(9, 8),
                       Edge(10, 8), Edge(11, 7), Edge(12, 11), Edge(13, 11), Edge(3, 13)]
    ensures Within(|shapes'|, edges')
    ensures b' == Build(Network(shapes', edges'),
      [Pending(6, "a"), Pending(12, "b")],
      map["a" := 6, "bc" := 7, "b" := 12, "c" := 13], map[("b", "c") := 11])
    ensures Fits(b', src) && Bio.Within(b'.pending, univ) && Bio.Loop(b, src, false, univ) == Bio.Loop(b', src, false, univ)
  {
    hide Network, Links, Bare, Fits, Within, Bio.Loop, Bio.Junctions, Bio.Junction, Bio.Step, Bio.Within, Bio.SplitClosed;
    b' := BioFeedTurn(b, src, false, univ, shapes, edges);
    shapes', edges' := shapes, edges + [Edge(3, 13)];
    assert b.pending[..2] == [Pending(6, "a"), Pending(12, "b")];
  }

  /** Turn 3: "b" is fed from its Source. */
  lemma TeamFirstCrewThird(b: Build, src: Sources, univ: set<Word>, shapes: seq<Shape>, edges: seq<Edge>)
    returns (b': Build, shapes': seq<Shape>, edges': seq<Edge>)
    requires shapes == [SinkOf("abc"), SourceOf("a"), SourceOf("b"), SourceOf("c"),
                        InventoryOf("abc"), MachineOf("a", "bc"), InventoryOf("a"),
                        InventoryOf("bc"), MachineOf("ab", "c"), InventoryOf("ab"),
                        InventoryOf("c"), MachineOf("b", "c"), InventoryOf("b"), InventoryOf("c")]
    requires edges == [Edge(4, 0), Edge(5, 4), Edge(6, 5), Edge(7, 5), Edge(8, 4), Edge(9, 8),
                       Edge(10, 8), Edge(11, 7), Edge(12, 11), Edge(13, 11), Edge(3, 13)]
    requires Within(|shapes|, edges) && src == map["a" := 1, "b" := 2, "c" := 3]
    requires b == Build(Network(shapes, edges),
      [Pending(6, "a"), Pending(12, "b")],
      map["a" := 6, "bc" := 7, "b" := 12, "c" := 13], map[("b", "c") := 11])
    requires Fits(b, src) && Bio.Within(b.pending, univ) && Bio.SplitClosed(univ)
    ensures shapes' == [SinkOf("abc"), SourceOf("a"), SourceOf("b"), SourceOf("c"),
                        InventoryOf("abc"), MachineOf("a", "bc"), InventoryOf("a"),
                        InventoryOf("bc"), MachineOf("ab", "c"), InventoryOf("ab"),
                        InventoryOf("c"), MachineOf("b", "c"), InventoryOf("b"), InventoryOf("c")]
    ensures edges' == [Edge(4, 0), Edge(5, 4), Edge(6, 5), Edge(7, 5), Edge(8, 4), Edge(9, 8),
                       Edge(10, 8), Edge(11, 7), Edge(12, 11), Edge(13, 11), Edge(3, 13),
                       Edge(2, 12)]
    ensures Within(|shapes'|, edges')
    ensures b' == Build(Network(shapes', edges'),
      [Pending(6, "a")],
      map["a" := 6, "bc" := 7, "b" := 12, "c" := 13], map[("b", "c") := 11])
    ensures Fits(b', src) && Bio.Within(b'.pending, univ) && Bio.Loop(b, src, false, univ) == Bio.Loop(b', src, false, univ)
  {
    hide Network, Links, Bare, Fits, Within, Bio.Loop, Bio.Junctions, Bio.Junction, Bio.Step, Bio.Within, Bio.SplitClosed;
    b' := BioFeedTurn(b, src, false, univ, shapes, edges);
    shapes', edges' := shapes, edges + [Edge(2, 12)];
    assert b.pending[..1] == [Pending(6, "a")];
  }

  /** Turn 4: "a" is fed from its Source. */
  lemma TeamFirstCrewFourth(b: Build, src: Sources, univ: set<Word>, shapes: seq<Shape>, edges: seq<Edge>)
    returns (b': Build, shapes': seq<Shape>, edges': seq<Edge>)
    requires shapes == [SinkOf("abc"), SourceOf("a"), SourceOf("b"), SourceOf("c"),
                        InventoryOf("abc"), MachineOf("a", "bc"), InventoryOf("a"),
                        InventoryOf("bc"), MachineOf("ab", "c"), InventoryOf("ab"),
                        InventoryOf("c"), MachineOf("b", "c"), InventoryOf("b"), InventoryOf("c")]
    requires edges == [Edge(4, 0), Edge(5, 4), Edge(6, 5), Edge(7, 5), Edge(8, 4), Edge(9, 8),
                       Edge(10, 8), Edge(11, 7), Edge(12, 11), Edge(13, 11), Edge(3, 13),
                       Edge(2, 12)]
    requires Within(|shapes|, edges) && src == map["a" := 1, "b" := 2, "c" := 3]
    requires b == Build(Network(shapes, edges),
      [Pending(6, "a")],
      map["a" := 6, "bc" := 7, "b" := 12, "c" := 13], map[("b", "c") := 11])
    requires Fits(b, src) && Bio.Within(b.pending, univ) && Bio.SplitClosed(univ)
    ensures shapes' == [SinkOf("abc"), SourceOf("a"), SourceOf("b"), SourceOf("c"),
                        InventoryOf("abc"), MachineOf("a", "bc"), InventoryOf("a"),
                        InventoryOf("bc"), MachineOf("ab", "c"), InventoryOf("ab"),
                        InventoryOf("c"), MachineOf("b", "c"), InventoryOf("b"), InventoryOf("c")]
    ensures edges' == [Edge(4, 0), Edge(5, 4), Edge(6, 5), Edge(7, 5), Edge(8, 4), Edge(9, 8),
                       Edge(10, 8), Edge(11, 7), Edge(12, 11), Edge(13, 11), Edge(3, 13),
                       Edge(2, 12), Edge(1, 6)]
    ensures Within(|shapes'|, edges')
    ensures b' == Build(Network(shapes', edges'),
      [],
      map["a" := 6, "bc" := 7, "b" := 12, "c" := 13], map[("b", "c") := 11])
    ensures Fits(b', src) && Bio.Within(b'.pending, univ) && Bio.Loop(b, src, false, univ) == Bio.Loop(b', src, false, univ)
  {
    hide Network, Links, Bare, Fits, Within, Bio.Loop, Bio.Junctions, Bio.Junction, Bio.Step, Bio.Within, Bio.SplitClosed;
    b' := BioFeedTurn(b, src, false, univ, shapes, edges);
    shapes', edges' := shapes, edges + [Edge(1, 6)];
    assert b.pending[..0] == [];
  }

  /** Turn 1: "c" is fed from its Source. */
  lemma TeamSecondCrewFirst(b: Build, src: Sources, univ: set<Word>, shapes: seq<Shape>, edges: seq<Edge>)
    returns (b': Build, shapes': seq<Shape>, edges': seq<Edge>)
    requires shapes == [SinkOf("abc"), SourceOf("a"), SourceOf("b"), SourceOf("c"),
                        InventoryOf("abc"), MachineOf("a", "bc"), InventoryOf("a"),
                        InventoryOf("bc"), MachineOf("ab", "c"), InventoryOf("ab"),
                        InventoryOf("c"), MachineOf("b", "c"), InventoryOf("b"), InventoryOf("c")]
    requires edges == [Edge(4, 0), Edge(5, 4), Edge(6, 5), Edge(7, 5), Edge(8, 4), Edge(9, 8),
                       Edge(10, 8), Edge(11, 7), Edge(12, 11), Edge(13, 11), Edge(3, 13),
                       Edge(2, 12), Edge(1, 6)]
    requires Within(|shapes|, edges) && src == map["a" := 1, "b" := 2, "c" := 3]
    requires b == Build(Network(shapes, edges),
      [Pending(9, "ab"), Pending(10, "c")],
      map["ab" := 9, "c" := 10], map[])
    requires Fits(b, src) && Bio.Within(b.pending, univ) && Bio.SplitClosed(univ)
    ensures shapes' == [SinkOf("abc"), SourceOf("a"), SourceOf("b"), SourceOf("c"),
                        InventoryOf("abc"), MachineOf("a", "bc"), InventoryOf("a"),
                        InventoryOf("bc"), MachineOf("ab", "c"), InventoryOf("ab"),
                        InventoryOf("c"), MachineOf("b", "c"), InventoryOf("b"), InventoryOf("c")]
    ensures edges' == [Edge(4, 0), Edge(5, 4), Edge(6, 5), Edge(7, 5), Edge(8, 4), Edge(9, 8),
                       Edge(10, 8), Edge(11, 7), Edge(12, 11), Edge(13, 11), Edge(3, 13),
                       Edge(2, 12), Edge(1, 6), Edge(3, 10)]
    ensures Within(|shapes'|, edges')
    ensures b' == Build(Network(shapes', edges'),
      [Pending(9, "ab")],
      map["ab" := 9, "c" := 10], map[])
    ensures Fits(b', src) && Bio.Within(b'.pending, univ) && Bio.Loop(b, src, false, univ) == Bio.Loop(b', src, false, univ)
  {
    hide Network, Links, Bare, Fits, Within, Bio.Loop, Bio.Junctions, Bio.Junction, Bio.Step, Bio.Within, Bio.SplitClosed;
    b' := BioFeedTurn(b, src, false, univ, shapes, edges);
    shapes', edges' := shapes, edges + [Edge(3, 10)];
    assert b.pending[..1] == [Pending(9, "ab")];
  }

  /** Turn 2, split 1 of "ab": a + b. */
  lemma TeamSecondCrewSecondSplit1(b: Build, src: Sources, shapes: seq<Shape>, edges: seq<Edge>)
    returns (b': Build, shapes': seq<Shape>, edges': seq<Edge>)
    requires Within(|shapes|, edges) && |shapes| == 14 && b.g == Network(shapes, edges)
    requires Fits(b, src) && IsInventoryAt(b.g, 9, "ab")
    requires "a" !in b.invs
    requires "b" !in b.invs
    ensures shapes' == shapes + [MachineOf("a", "b"), InventoryOf("a"), InventoryOf("b")]
    ensures edges' == edges + [Edge(14, 9), Edge(15, 14), Edge(16, 14)]
    ensures Within(|shapes'|, edges')
    ensures b' == Build(Network(shapes', edges'), b.pending + [Pending(15, "a"), Pending(16, "b")], b.invs["a" := 15]["b" := 16], b.machines[("a", "b") := 14])
    ensures Fits(b', src) && Bio.Junction(b, src, false, 9, "ab", 1) == b'
  {
    hide Network, Links, Bare, Fits, Within, Bio.Hang, Bio.Attach, Bio.Junction;
    var m, c1, c2 := JunctionSteps(b, src, false, 9, "ab", 1);
    assert "ab"[..1] == "a" && "ab"[1..] == "b";
    HungNew(b, src, false, 9, "a", "b", shapes, edges);
    var s1, e1 := shapes + [MachineOf("a", "b")], edges + [Edge(14, 9)];
    AttachedNew(c1, src, m, "a", s1, e1);
    var s2, e2 := s1 + [InventoryOf("a")], e1 + [Edge(15, 14)];
    AttachedNew(c2, src, m, "b", s2, e2);
    var s3, e3 := s2 + [InventoryOf("b")], e2 + [Edge(16, 14)];
    b' := Bio.Attach(c2, src, m, "b");
    shapes', edges' := s3, e3;
  }

  /** Turn 2: "ab" gets a Machine per split position. */
  lemma TeamSecondCrewSecond(b: Build, src: Sources, univ: set<Word>, shapes: seq<Shape>, edges: seq<Edge>)
    returns (b': Build, shapes': seq<Shape>, edges': seq<Edge>)
    requires shapes == [SinkOf("abc"), SourceOf("a"), SourceOf("b"), SourceOf("c"),
                        InventoryOf("abc"), MachineOf("a", "bc"), InventoryOf("a"),
                        InventoryOf("bc"), MachineOf("ab", "c"), InventoryOf("ab"),
                        InventoryOf("c"), MachineOf("b", "c"), InventoryOf("b"), InventoryOf("c")]
    requires edges == [Edge(4, 0), Edge(5, 4), Edge(6, 5), Edge(7, 5), Edge(8, 4), Edge(9, 8),
                       Edge(10, 8), Edge(11, 7), Edge(12, 11), Edge(13, 11), Edge(3, 13),
                       Edge(2, 12), Edge(1, 6), Edge(3, 10)]
    requires Within(|shapes|, edges) && src == map["a" := 1, "b" := 2, "c" := 3]
    requires b == Build(Network(shapes, edges),
      [Pending(9, "ab")],
      map["ab" := 9, "c" := 10], map[])
    requires Fits(b, src) && Bio.Within(b.pending, univ) && Bio.SplitClosed(univ)
    ensures shapes' == [SinkOf("abc"), SourceOf("a"), SourceOf("b"), SourceOf("c"),
                        InventoryOf("abc"), MachineOf("a", "bc"), InventoryOf("a"),
                        InventoryOf("bc"), MachineOf("ab", "c"), InventoryOf("ab"),
                        InventoryOf("c"), MachineOf("b", "c"), InventoryOf("b"), InventoryOf("c"),
                        MachineOf("a", "b"), InventoryOf("a"), InventoryOf("b")]
    ensures edges' == [Edge(4, 0), Edge(5, 4), Edge(6, 5), Edge(7, 5), Edge(8, 4), Edge(9, 8),
                       Edge(10, 8), Edge(11, 7), Edge(12, 11), Edge(13, 11), Edge(3, 13),
                       Edge(2, 12), Edge(1, 6), Edge(3, 10), Edge(14, 9), Edge(15, 14),
                       Edge(16, 14)]
    ensures Within(|shapes'|, edges')
    ensures b' == Build(Network(shapes', edges'),
      [Pending(15, "a"), Pending(16, "b")],
      map["ab" := 9, "c" := 10, "a" := 15, "b" := 16], map[("a", "b") := 14])
    ensures Fits(b', src) && Bio.Within(b'.pending, univ) && Bio.Loop(b, src, false, univ) == Bio.Loop(b', src, false, univ)
  {
    hide Network, Links, Bare, Fits, Within, Bio.Loop, Bio.Junctions, Bio.Junction, Bio.Step, Bio.Within, Bio.SplitClosed;
    var b1, p := BioSplitTurn(b, src, false, univ);
    assert b.pending[..0] == [];
    var c1 := JunctionNext(b1, src, false, 9, "ab", 1);
    var d1, s1, e1 := TeamSecondCrewSecondSplit1(b1, src, shapes, edges);
    Bio.JunctionsDone(c1, src, false, 9, "ab", 2);
    b', shapes', edges' := c1, s1, e1;
  }

  /** Turn 3: "b" is fed from its Source. */
  lemma TeamSecondCrewThird(b: Build, src: Sources, univ: set<Word>, shapes: seq<Shape>, edges: seq<Edge>)
    returns (b': Build, shapes': seq<Shape>, edges': seq<Edge>)
    requires shapes == [SinkOf("abc"), SourceOf("a"), SourceOf("b"), SourceOf("c"),
                        InventoryOf("abc"), MachineOf("a", "bc"), InventoryOf("a"),
                        InventoryOf("bc"), MachineOf("ab", "c"), InventoryOf("ab"),
                        InventoryOf("c"), MachineOf("b", "c"), InventoryOf("b"), InventoryOf("c"),
                        MachineOf("a", "b"), InventoryOf("a"), InventoryOf("b")]
    requires edges == [Edge(4, 0), Edge(5, 4), Edge(6, 5), Edge(7, 5), Edge(8, 4), Edge(9, 8),
                       Edge(10, 8), Edge(11, 7), Edge(12, 11), Edge(13, 11), Edge(3, 13),
                       Edge(2, 12), Edge(1, 6), Edge(3, 10), Edge(14, 9), Edge(15, 14),
                       Edge(16, 14)]
    requires Within(|shapes|, edges) && src == map["a" := 1, "b" := 2, "c" := 3]
    requires b == Build(Network(shapes, edges),
      [Pending(15, "a"), Pending(16, "b")],
      map["ab" := 9, "c" := 10, "a" := 15, "b" := 16], map[("a", "b") := 14])
    requires Fits(b, src) && Bio.Within(b.pending, univ) && Bio.SplitClosed(univ)
    ensures shapes' == [SinkOf("abc"), SourceOf("a"), SourceOf("b"), SourceOf("c"),
                        InventoryOf("abc"), MachineOf("a", "bc"), InventoryOf("a"),
                        InventoryOf("bc"), MachineOf("ab", "c"), InventoryOf("ab"),
                        InventoryOf("c"), MachineOf("b", "c"), InventoryOf("b"), InventoryOf("c"),
                        MachineOf("a", "b"), InventoryOf("a"), InventoryOf("b")]
    ensures edges' == [Edge(4, 0), Edge(5, 4), Edge(6, 5), Edge(7, 5), Edge(8, 4), Edge(9, 8),
                       Edge(10, 8), Edge(11, 7), Edge(12, 11), Edge(13, 11), Edge(3, 13),
                       Edge(2, 12), Edge(1, 6), Edge(3, 10), Edge(14, 9), Edge(15, 14),
                       Edge(16, 14), Edge(2, 16)]
    ensures Within(|shapes'|, edges')
    ensures b' == Build(Network(shapes', edges'),
      [Pending(15, "a")],
      map["ab" := 9, "c" := 10, "a" := 15, "b" := 16], map[("a", "b") := 14])
    ensures Fits(b', src) && Bio.Within(b'.pending, univ) && Bio.Loop(b, src, false, univ) == Bio.Loop(b', src, false, univ)
  {
    hide Network, Links, Bare, Fits, Within, Bio.Loop, Bio.Junctions, Bio.Junction, Bio.Step, Bio.Within, Bio.SplitClosed;
    b' := BioFeedTurn(b, src, false, univ, shapes, edges);
    shapes', edges' := shapes, edges + [Edge(2, 16)];
    assert b.pending[..1] == [Pending(15, "a")];
  }

  /** Turn 4: "a" is fed from its Source. */
  lemma TeamSecondCrewFourth(b: Build, src: Sources, univ: set<Word>, shapes: seq<Shape>, edges: seq<Edge>)
    returns (b': Build, shapes': seq<Shape>, edges': seq<Edge>)
    requires shapes == [SinkOf("abc"), SourceOf("a"), SourceOf("b"), SourceOf("c"),
                        InventoryOf("abc"), MachineOf("a", "bc"), InventoryOf("a"),
                        InventoryOf("bc"), MachineOf("ab", "c"), InventoryOf("ab"),
                        InventoryOf("c"), MachineOf("b", "c"), InventoryOf("b"), InventoryOf("c"),
                        MachineOf("a", "b"), InventoryOf("a"), InventoryOf("b")]
    requires edges == [Edge(4, 0), Edge(5, 4), Edge(6, 5), Edge(7, 5), Edge(8, 4), Edge(9, 8),
                       Edge(10, 8), Edge(11, 7), Edge(12, 11), Edge(13, 11), Edge(3, 13),
                       Edge(2, 12), Edge(1, 6), Edge(3, 10), Edge(14, 9), Edge(15, 14),
                       Edge(16, 14), Edge(2, 16)]
    requires Within(|shapes|, edges) && src == map["a" := 1, "b" := 2, "c" := 3]
    requires b == Build(Network(shapes, edges),
      [Pending(15, "a")],
      map["ab" := 9, "c" := 10, "a" := 15, "b" := 16], map[("a", "b") := 14])
    requires Fits(b, src) && Bio.Within(b.pending, univ) && Bio.SplitClosed(univ)
    ensures shapes' == [SinkOf("abc"), SourceOf("a"), SourceOf("b"), SourceOf("c"),
                        InventoryOf("abc"), MachineOf("a", "bc"), InventoryOf("a"),
                        InventoryOf("bc"), MachineOf("ab", "c"), InventoryOf("ab"),
                        InventoryOf("c"), MachineOf("b", "c"), InventoryOf("b"), InventoryOf("c"),
                        MachineOf("a", "b"), InventoryOf("a"), InventoryOf("b")]
    ensures edges' == [Edge(4, 0), Edge(5, 4), Edge(6, 5), Edge(7, 5), Edge(8, 4), Edge(9, 8),
                       Edge(10, 8), Edge(11, 7), Edge(12, 11), Edge(13, 11), Edge(3, 13),
                       Edge(2, 12), Edge(1, 6), Edge(3, 10), Edge(14, 9), Edge(15, 14),
                       Edge(16, 14), Edge(2, 16), Edge(1, 15)]
    ensures Within(|shapes'|, edges')
    ensures b' == Build(Network(shapes', edges'),
      [],
      map["ab" := 9, "c" := 10, "a" := 15, "b" := 16], map[("a", "b") := 14])
    ensures Fits(b', src) && Bio.Within(b'.pending, univ) && Bio.Loop(b, src, false, univ) == Bio.Loop(b', src, false, univ)
  {
    hide Network, Links, Bare, Fits, Within, Bio.Loop, Bio.Junctions, Bio.Junction, Bio.Step, Bio.Within, Bio.SplitClosed;
    b' := BioFeedTurn(b, src, false, univ, shapes, edges);
    shapes', edges' := shapes, edges + [Edge(1, 15)];
    assert b.pending[..0] == [];
  }

  /** test_algorithms.py, fourth case: the team generator on "abc" gives
      each top-level split its own team. Machine a+bc is served by its own
      Inventories of "a" and "bc" and a Machine b+c fed by fresh Inventories
      of "b" and "c"; Machine ab+c by its own Inventories of "ab" and "c" and
      a Machine a+b fed by fresh Inventories of "a" and "b". Nothing but the
      Sources is shared between the teams. */
  lemma TeamAbc()
    ensures Run(ProductTeam, ArenaOf(["abc"])) == Ok(Network(
      [SinkOf("abc"), SourceOf("a"), SourceOf("b"), SourceOf("c"), InventoryOf("abc"),
        MachineOf("a", "bc"), InventoryOf("a"), InventoryOf("bc"), MachineOf("ab", "c"),
        InventoryOf("ab"), InventoryOf("c"), MachineOf("b", "c"), InventoryOf("b"),
        InventoryOf("c"), MachineOf("a", "b"), InventoryOf("a"), InventoryOf("b")],
      [Edge(4, 0), Edge(5, 4), Edge(6, 5), Edge(7, 5), Edge(8, 4), Edge(9, 8), Edge(10, 8),
        Edge(11, 7), Edge(12, 11), Edge(13, 11), Edge(3, 13), Edge(2, 12), Edge(1, 6), Edge(3, 10),
        Edge(14, 9), Edge(15, 14), Edge(16, 14), Edge(2, 16), Edge(1, 15)]))
  {
    hide *;
    var a := ArenaOf(["abc"]);
    TeamArena();
    ArenaSetting(["abc"]);
    SettingFacts(a.g, a.src, a.sinks);
    RunCases(ProductTeam, a);
    TeamUnfold(a.g, a.src, a.sinks);
    TeamFronts();
    var g0 := Network([SinkOf("abc"), SourceOf("a"), SourceOf("b"), SourceOf("c"), InventoryOf("abc"),
                      MachineOf("a", "bc"), InventoryOf("a"), InventoryOf("bc"), MachineOf("ab", "c"),
                      InventoryOf("ab"), InventoryOf("c")], [Edge(4, 0), Edge(5, 4), Edge(6, 5), Edge(7, 5), Edge(8, 4), Edge(9, 8), Edge(10, 8)]);
    var ps := [Team.Pair(Pending(6, "a"), Pending(7, "bc")), Team.Pair(Pending(9, "ab"), Pending(10, "c"))];
    CrewsNext(g0, a.src, ps);
    assert ps[..1] == [Team.Pair(Pending(6, "a"), Pending(7, "bc"))] && ps[1] == Team.Pair(Pending(9, "ab"), Pending(10, "c"));
    CrewsNext(g0, a.src, [Team.Pair(Pending(6, "a"), Pending(7, "bc"))]);
    assert [Team.Pair(Pending(6, "a"), Pending(7, "bc"))][..0] == [] && [Team.Pair(Pending(6, "a"), Pending(7, "bc"))][0] == Team.Pair(Pending(6, "a"), Pending(7, "bc"));
    CrewsNone(g0, a.src);
    // The first team
    CrewIs(g0, a.src, Team.Pair(Pending(6, "a"), Pending(7, "bc")));
    var u1 := Team.Scope(Team.Pair(Pending(6, "a"), Pending(7, "bc")));
    var s0, e0 := [SinkOf("abc"), SourceOf("a"), SourceOf("b"), SourceOf("c"), InventoryOf("abc"),
                      MachineOf("a", "bc"), InventoryOf("a"), InventoryOf("bc"), MachineOf("ab", "c"),
                      InventoryOf("ab"), InventoryOf("c")], [Edge(4, 0), Edge(5, 4), Edge(6, 5), Edge(7, 5), Edge(8, 4), Edge(9, 8), Edge(10, 8)];
    var b1 := Build(Network(s0, e0), [Pending(6, "a"), Pending(7, "bc")], map["a" := 6, "bc" := 7], map[]);
    var b2, s2, e2 := TeamFirstCrewFirst(b1, a.src, u1, s0, e0);
    var b3, s3, e3 := TeamFirstCrewSecond(b2, a.src, u1, s2, e2);
    var b4, s4, e4 := TeamFirstCrewThird(b3, a.src, u1, s3, e3);
    var b5, s5, e5 := TeamFirstCrewFourth(b4, a.src, u1, s4, e4);
    BioDone(b5, a.src, false, u1);
    // The second team
    var g1 := Network(s5, e5);
    CrewIs(g1, a.src, Team.Pair(Pending(9, "ab"), Pending(10, "c")));
    var u2 := Team.Scope(Team.Pair(Pending(9, "ab"), Pending(10, "c")));
    var c1 := Build(g1, [Pending(9, "ab"), Pending(10, "c")], map["ab" := 9, "c" := 10], map[]);
    var c2, t2, f2 := TeamSecondCrewFirst(c1, a.src, u2, s5, e5);
    var c3, t3, f3 := TeamSecondCrewSecond(c2, a.src, u2, t2, f2);
    var c4, t4, f4 := TeamSecondCrewThird(c3, a.src, u2, t3, f3);
    var c5, t5, f5 := TeamSecondCrewFourth(c4, a.src, u2, t4, f4);
    BioDone(c5, a.src, false, u2);
  }
}
