/** The networks of wordmill/tests/test_algorithms.py, generated in full:
    each lemma states every node and every edge the generator produces on the
    test's output words, the edges in the order they are formed. The test
    compares networks up to isomorphism; here the node numbering is the
    arena's own (Sinks, then Sources, then the nodes in creation order). */
module Scenarios {
  import opened Outcomes
  import opened Words
  import opened Nodes
  import opened Construction
  import opened Expansion
  import opened Drawing
  import opened Generate
  import Legacy
  import Linear
  import Component

  // ---------------------------------------------------------------------
  // Linear assembly of "ab"

  lemma DistinctAb()
    ensures Distinct(["ab"]) == ["ab"]
    ensures Letters(["ab"]) == "ab"
    ensures Distinct("ab") == "ab"
  {
    assert ["ab"][..0] == [];
    assert "ab"[..1] == "a" && "a"[..0] == [];
    assert Letters(["ab"]) == Letters([]) + "ab";
  }

  lemma ArenaAbNodes()
    ensures ArenaOf(["ab"]).g == Network([SinkOf("ab"), SourceOf("a"), SourceOf("b")], [])
  {
    hide *;
    DistinctAb();
    var ws, cs := ArenaFacts(["ab"]);
    var a := ArenaOf(["ab"]);
    var shapes := [SinkOf("ab"), SourceOf("a"), SourceOf("b")];
    NetworkBare(shapes);
    assert a.g[1] == Fresh(SourceOf(["ab"[0]]));
    assert a.g[2] == Fresh(SourceOf(["ab"[1]]));
  }

  lemma ArenaAbSources()
    ensures ArenaOf(["ab"]).src == map["a" := 1, "b" := 2]
  {
    hide *;
    DistinctAb();
    var ws, cs := ArenaFacts(["ab"]);
    var a := ArenaOf(["ab"]);
    assert ["ab"[0]] == "a" && ["ab"[1]] == "b";
    assert a.src.Keys == {"a", "b"};
  }

  /** `generate` on "ab": the Sink, then the Sources of 'a' and 'b'. */
  lemma ArenaAb()
    ensures ArenaOf(["ab"]) == Arena(
      Network([SinkOf("ab"), SourceOf("a"), SourceOf("b")], []),
      map["a" := 1, "b" := 2],
      [("ab", 0)])
  {
    hide *;
    ArenaAbNodes();
    ArenaAbSources();
    DistinctAb();
    var ws, cs := ArenaFacts(["ab"]);
  }
  /** A split by the unchecked `split_word` of a concrete word. */
  lemma Halved(w: Word, pos: nat, l: Word, r: Word)
    requires pos <= |w| && l == w[..pos] && r == w[pos..]
    ensures Legacy.SplitWord(w, pos) == (l, r)
  {
  }

  /** The sink loop on "ab": an Inventory of "ab" feeding its Sink, queued. */
  lemma LinearAbSupply(b0: Build, src: Sources)
    requires b0 == Build(Network([SinkOf("ab"), SourceOf("a"), SourceOf("b")], []), [], map[], map[])
    requires src == map["a" := 1, "b" := 2] && Fits(b0, src) && SinksFit(b0.g, [("ab", 0)])
    ensures SupplySinks(b0, src, [("ab", 0)]) == Build(
      Network([SinkOf("ab"), SourceOf("a"), SourceOf("b"), InventoryOf("ab")], [Edge(3, 0)]),
      [Pending(3, "ab")], map["ab" := 3], map[])
  {
    hide *;
    NetworkBare([SinkOf("ab"), SourceOf("a"), SourceOf("b")]);
    var b1 := SupplySinksUnfold(b0, src, [("ab", 0)]);
    assert [("ab", 0)][..0] == [];
    SupplySinksNone(b0, src, []);
    Supplied(b0, src, "ab", 0, [SinkOf("ab"), SourceOf("a"), SourceOf("b")], []);
    assert [SinkOf("ab"), SourceOf("a"), SourceOf("b")] + [InventoryOf("ab")]
      == [SinkOf("ab"), SourceOf("a"), SourceOf("b"), InventoryOf("ab")];
    assert [] + [Edge(3, 0)] == [Edge(3, 0)] && [] + [Pending(3, "ab")] == [Pending(3, "ab")];
    assert map[]["ab" := 3] == map["ab" := 3];
  }

  lemma SourceFits(b: Build, src: Sources, c: Word)
    requires Fits(b, src) && c in src
    ensures IsSourceAt(b.g, src[c], c)
  {
  }

  /** A linear step on a network appends the expansion's nodes and edges. */
  lemma LinearStepDrawn(b: Build, src: Sources, p: Pending, shapes: seq<Shape>, edges: seq<Edge>, l: Word, r: Word)
    requires Within(|shapes|, edges) && b.g == Network(shapes, edges)
    requires Fits(b, src) && IsInventoryAt(b.g, p.inv, p.word)
    requires Legacy.SplitWord(p.word, 1) == (l, r) && l in src
    ensures Within(|shapes| + 3, edges + NewEdges(|shapes|, p.inv, Some(src[l]), if r in src then Some(src[r]) else None))
    ensures Linear.Step(b, src, p) == Ok(b.(
      g := Network(shapes + NewNodes(l, r), edges + NewEdges(|shapes|, p.inv, Some(src[l]), if r in src then Some(src[r]) else None)),
      pending := Linear.Requeue(b.pending, |shapes| + 2, r, src)))
  {
    hide Expand, Network, Links, Bare, Legacy.SplitWord, Fits;
    var t := if r in src then Some(src[r]) else None;
    SourceFits(b, src, l);
    if r in src {
      SourceFits(b, src, r);
    }
    Shaped(shapes, edges);
    ExpandedNetwork(shapes, edges, p.inv, l, r, Some(src[l]), t);
  }

  /** One turn of the linear `while` loop on a network: the last entry is
      expanded, and the loop goes on from there. */
  lemma LinearTurn(b: Build, src: Sources, shapes: seq<Shape>, edges: seq<Edge>, l: Word, r: Word)
    returns (b': Build)
    requires Within(|shapes|, edges) && b.g == Network(shapes, edges)
    requires Fits(b, src) && b.pending != []
    requires Legacy.SplitWord(b.pending[|b.pending| - 1].word, 1) == (l, r) && l in src
    ensures Within(|shapes| + 3, edges + NewEdges(|shapes|, b.pending[|b.pending| - 1].inv, Some(src[l]), if r in src then Some(src[r]) else None))
    ensures b' == b.(
      g := Network(shapes + NewNodes(l, r), edges + NewEdges(|shapes|, b.pending[|b.pending| - 1].inv, Some(src[l]), if r in src then Some(src[r]) else None)),
      pending := Linear.Requeue(b.pending[..|b.pending| - 1], |shapes| + 2, r, src))
    ensures Fits(b', src) && Linear.Loop(b, src) == Linear.Loop(b', src)
  {
    hide *;
    var b1, p := Linear.LoopPop(b, src);
    LinearStepDrawn(b1, src, p, shapes, edges, l, r);
    b' := Linear.Step(b1, src, p).value;
  }

  /** The `while` loop on "ab": one expansion, after which nothing is
      queued. */
  lemma LinearAbLoop(b1: Build, src: Sources)
    requires b1 == Build(Network([SinkOf("ab"), SourceOf("a"), SourceOf("b"), InventoryOf("ab")], [Edge(3, 0)]),
      [Pending(3, "ab")], map["ab" := 3], map[])
    requires src == map["a" := 1, "b" := 2] && Fits(b1, src)
    ensures Linear.Loop(b1, src) == Ok(Build(
      Network([SinkOf("ab"), SourceOf("a"), SourceOf("b"), InventoryOf("ab"),
               MachineOf("a", "b"), InventoryOf("a"), InventoryOf("b")],
              [Edge(3, 0), Edge(4, 3), Edge(1, 5), Edge(5, 4), Edge(6, 4), Edge(2, 6)]),
      [], map["ab" := 3], map[]))
  {
    hide Network, Links, Bare, Fits, Expand, Linear.Step;
    Halved("ab", 1, "a", "b");
    var b2 := LinearTurn(b1, src, [SinkOf("ab"), SourceOf("a"), SourceOf("b"), InventoryOf("ab")], [Edge(3, 0)], "a", "b");
    assert [Edge(3, 0)] + NewEdges(4, 3, Some(1), Some(2))
      == [Edge(3, 0), Edge(4, 3), Edge(1, 5), Edge(5, 4), Edge(6, 4), Edge(2, 6)];
    assert [SinkOf("ab"), SourceOf("a"), SourceOf("b"), InventoryOf("ab")] + NewNodes("a", "b")
      == [SinkOf("ab"), SourceOf("a"), SourceOf("b"), InventoryOf("ab"),
          MachineOf("a", "b"), InventoryOf("a"), InventoryOf("b")];
    assert b1.pending[..0] == [];
  }

  /** test_algorithms.py, first case: the linear generator on "ab" builds
      the chain Source a -> Inventory a -> Machine a+b <- Inventory b <-
      Source b, Machine a+b -> Inventory ab -> Sink ab, and nothing else. */
  lemma LinearAb()
    ensures Run(LinearAssembly, ArenaOf(["ab"])) == Ok(Network(
      [SinkOf("ab"), SourceOf("a"), SourceOf("b"), InventoryOf("ab"),
       MachineOf("a", "b"), InventoryOf("a"), InventoryOf("b")],
      [Edge(3, 0), Edge(4, 3), Edge(1, 5), Edge(5, 4), Edge(6, 4), Edge(2, 6)]))
  {
    hide *;
    var a := ArenaOf(["ab"]);
    ArenaAb();
    ArenaSetting(["ab"]);
    SettingFacts(a.g, a.src, a.sinks);
    RunCases(LinearAssembly, a);
    var b1 := Linear.LinearUnfold(a.g, a.src, a.sinks);
    LinearAbSupply(Build(a.g, [], map[], map[]), a.src);
    LinearAbLoop(b1, a.src);
  }
  // ---------------------------------------------------------------------
  // Linear assembly of "ab" and "ba"

  lemma DistinctAbBa()
    ensures Distinct(["ab", "ba"]) == ["ab", "ba"]
    ensures Letters(["ab", "ba"]) == "abba"
    ensures Distinct("abba") == "ab"
  {
    DistinctWordsAbBa();
    LettersAbBa();
    DistinctAbba();
  }

  lemma DistinctWordsAbBa()
    ensures Distinct(["ab", "ba"]) == ["ab", "ba"]
  {
    assert ["ab", "ba"][..1] == ["ab"] && ["ab"][..0] == [];
  }

  lemma LettersAbBa()
    ensures Letters(["ab", "ba"]) == "abba"
  {
    assert ["ab", "ba"][..1] == ["ab"] && ["ab"][..0] == [];
    assert Letters(["ab", "ba"]) == Letters(["ab"]) + "ba";
    assert Letters(["ab"]) == Letters([]) + "ab";
  }

  lemma DistinctAbba()
    ensures Distinct("abba") == "ab"
  {
    assert "a"[..0] == [];
    assert Distinct("a") == "a";
    assert "ab"[..1] == "a";
    assert Distinct("ab") == "ab";
    assert "abb"[..2] == "ab";
    assert Distinct("abb") == "ab";
    assert "abba"[..3] == "abb";
  }

  lemma ArenaAbBaNodes()
    ensures ArenaOf(["ab", "ba"]).g == Network([SinkOf("ab"), SinkOf("ba"), SourceOf("a"), SourceOf("b")], [])
  {
    hide *;
    DistinctAbBa();
    var ws, cs := ArenaFacts(["ab", "ba"]);
    var a := ArenaOf(["ab", "ba"]);
    NetworkBare([SinkOf("ab"), SinkOf("ba"), SourceOf("a"), SourceOf("b")]);
    assert a.g[2] == Fresh(SourceOf(["ab"[0]]));
    assert a.g[3] == Fresh(SourceOf(["ab"[1]]));
  }

  lemma ArenaAbBaSources()
    ensures ArenaOf(["ab", "ba"]).src == map["a" := 2, "b" := 3]
  {
    hide *;
    DistinctAbBa();
    var ws, cs := ArenaFacts(["ab", "ba"]);
    var a := ArenaOf(["ab", "ba"]);
    assert ["ab"[0]] == "a" && ["ab"[1]] == "b";
    assert a.src.Keys == {"a", "b"};
  }

  /** `generate` on "ab" and "ba": the two Sinks, then the Sources of 'a'
      and 'b'. */
  lemma ArenaAbBa()
    ensures ArenaOf(["ab", "ba"]) == Arena(
      Network([SinkOf("ab"), SinkOf("ba"), SourceOf("a"), SourceOf("b")], []),
      map["a" := 2, "b" := 3],
      [("ab", 0), ("ba", 1)])
  {
    hide *;
    ArenaAbBaNodes();
    ArenaAbBaSources();
    DistinctAbBa();
    var ws, cs := ArenaFacts(["ab", "ba"]);
  }

  /** The sink loop on "ab" and "ba": an Inventory for each, in order. */
  lemma LinearAbBaSupply(b0: Build, src: Sources)
    requires b0 == Build(Network([SinkOf("ab"), SinkOf("ba"), SourceOf("a"), SourceOf("b")], []), [], map[], map[])
    requires src == map["a" := 2, "b" := 3] && Fits(b0, src) && SinksFit(b0.g, [("ab", 0), ("ba", 1)])
    ensures SupplySinks(b0, src, [("ab", 0), ("ba", 1)]) == Build(
      Network([SinkOf("ab"), SinkOf("ba"), SourceOf("a"), SourceOf("b"), InventoryOf("ab"), InventoryOf("ba")],
              [Edge(4, 0), Edge(5, 1)]),
      [Pending(4, "ab"), Pending(5, "ba")], map["ab" := 4, "ba" := 5], map[])
  {
    hide *;
    var shapes := [SinkOf("ab"), SinkOf("ba"), SourceOf("a"), SourceOf("b")];
    NetworkBare(shapes);
    var b1 := SupplySinksUnfold(b0, src, [("ab", 0), ("ba", 1)]);
    assert [("ab", 0), ("ba", 1)][..1] == [("ab", 0)];
    var b2 := SupplySinksUnfold(b0, src, [("ab", 0)]);
    assert [("ab", 0)][..0] == [];
    SupplySinksNone(b0, src, []);
    Supplied(b0, src, "ab", 0, shapes, []);
    assert shapes + [InventoryOf("ab")] == [SinkOf("ab"), SinkOf("ba"), SourceOf("a"), SourceOf("b"), InventoryOf("ab")];
    assert [] + [Edge(4, 0)] == [Edge(4, 0)] && [] + [Pending(4, "ab")] == [Pending(4, "ab")];
    Supplied(b1, src, "ba", 1, shapes + [InventoryOf("ab")], [Edge(4, 0)]);
    assert shapes + [InventoryOf("ab")] + [InventoryOf("ba")]
      == [SinkOf("ab"), SinkOf("ba"), SourceOf("a"), SourceOf("b"), InventoryOf("ab"), InventoryOf("ba")];
    assert [Edge(4, 0)] + [Edge(5, 1)] == [Edge(4, 0), Edge(5, 1)];
    assert [Pending(4, "ab")] + [Pending(5, "ba")] == [Pending(4, "ab"), Pending(5, "ba")];
    assert map[]["ab" := 4]["ba" := 5] == map["ab" := 4, "ba" := 5];
  }

  /** The first turn on "ab" and "ba": "ba", queued last, is expanded
      first, and nothing is queued since both halves have Sources. */
  lemma LinearAbBaFirst(b1: Build, src: Sources)
    requires b1 == Build(
      Network([SinkOf("ab"), SinkOf("ba"), SourceOf("a"), SourceOf("b"), InventoryOf("ab"), InventoryOf("ba")],
              [Edge(4, 0), Edge(5, 1)]),
      [Pending(4, "ab"), Pending(5, "ba")], map["ab" := 4, "ba" := 5], map[])
    requires src == map["a" := 2, "b" := 3] && Fits(b1, src)
    ensures var b2 := Build(
      Network([SinkOf("ab"), SinkOf("ba"), SourceOf("a"), SourceOf("b"), InventoryOf("ab"), InventoryOf("ba"),
               MachineOf("b", "a"), InventoryOf("b"), InventoryOf("a")],
              [Edge(4, 0), Edge(5, 1), Edge(6, 5), Edge(3, 7), Edge(7, 6), Edge(8, 6), Edge(2, 8)]),
      [Pending(4, "ab")], map["ab" := 4, "ba" := 5], map[]);
      Fits(b2, src) && Linear.Loop(b1, src) == Linear.Loop(b2, src)
  {
    hide Network, Links, Bare, Fits, Expand, Linear.Step, Linear.Loop;
    var s1 := [SinkOf("ab"), SinkOf("ba"), SourceOf("a"), SourceOf("b"), InventoryOf("ab"), InventoryOf("ba")];
    Halved("ba", 1, "b", "a");
    var b2 := LinearTurn(b1, src, s1, [Edge(4, 0), Edge(5, 1)], "b", "a");
    assert [Edge(4, 0), Edge(5, 1)] + NewEdges(6, 5, Some(3), Some(2))
      == [Edge(4, 0), Edge(5, 1), Edge(6, 5), Edge(3, 7), Edge(7, 6), Edge(8, 6), Edge(2, 8)];
    assert s1 + NewNodes("b", "a")
      == [SinkOf("ab"), SinkOf("ba"), SourceOf("a"), SourceOf("b"), InventoryOf("ab"), InventoryOf("ba"),
          MachineOf("b", "a"), InventoryOf("b"), InventoryOf("a")];
    assert b1.pending[..1] == [Pending(4, "ab")];
  }

  /** The second turn: "ab" is expanded, and the worklist is empty. */
  lemma LinearAbBaSecond(b2: Build, src: Sources)
    requires b2 == Build(
      Network([SinkOf("ab"), SinkOf("ba"), SourceOf("a"), SourceOf("b"), InventoryOf("ab"), InventoryOf("ba"),
               MachineOf("b", "a"), InventoryOf("b"), InventoryOf("a")],
              [Edge(4, 0), Edge(5, 1), Edge(6, 5), Edge(3, 7), Edge(7, 6), Edge(8, 6), Edge(2, 8)]),
      [Pending(4, "ab")], map["ab" := 4, "ba" := 5], map[])
    requires src == map["a" := 2, "b" := 3] && Fits(b2, src)
    ensures Linear.Loop(b2, src) == Ok(Build(
      Network([SinkOf("ab"), SinkOf("ba"), SourceOf("a"), SourceOf("b"), InventoryOf("ab"), InventoryOf("ba"),
               MachineOf("b", "a"), InventoryOf("b"), InventoryOf("a"),
               MachineOf("a", "b"), InventoryOf("a"), InventoryOf("b")],
              [Edge(4, 0), Edge(5, 1),
               Edge(6, 5), Edge(3, 7), Edge(7, 6), Edge(8, 6), Edge(2, 8),
               Edge(9, 4), Edge(2, 10), Edge(10, 9), Edge(11, 9), Edge(3, 11)]),
      [], map["ab" := 4, "ba" := 5], map[]))
  {
    hide Network, Links, Bare, Fits, Expand, Linear.Step;
    var s2 := [SinkOf("ab"), SinkOf("ba"), SourceOf("a"), SourceOf("b"), InventoryOf("ab"), InventoryOf("ba"),
               MachineOf("b", "a"), InventoryOf("b"), InventoryOf("a")];
    var e2 := [Edge(4, 0), Edge(5, 1), Edge(6, 5), Edge(3, 7), Edge(7, 6), Edge(8, 6), Edge(2, 8)];
    Halved("ab", 1, "a", "b");
    var b3 := LinearTurn(b2, src, s2, e2, "a", "b");
    assert e2 + NewEdges(9, 4, Some(2), Some(3))
      == [Edge(4, 0), Edge(5, 1),
          Edge(6, 5), Edge(3, 7), Edge(7, 6), Edge(8, 6), Edge(2, 8),
          Edge(9, 4), Edge(2, 10), Edge(10, 9), Edge(11, 9), Edge(3, 11)];
    assert s2 + NewNodes("a", "b")
      == [SinkOf("ab"), SinkOf("ba"), SourceOf("a"), SourceOf("b"), InventoryOf("ab"), InventoryOf("ba"),
          MachineOf("b", "a"), InventoryOf("b"), InventoryOf("a"),
          MachineOf("a", "b"), InventoryOf("a"), InventoryOf("b")];
    assert b2.pending[..0] == [];
  }

  /** test_algorithms.py, second case: on "ab" and "ba" the linear generator
      builds two disjoint chains, one per output word, sharing only the
      Sources; each chain has its own Inventories of 'a' and 'b'. */
  lemma LinearAbBa()
    ensures Run(LinearAssembly, ArenaOf(["ab", "ba"])) == Ok(Network(
      [SinkOf("ab"), SinkOf("ba"), SourceOf("a"), SourceOf("b"), InventoryOf("ab"), InventoryOf("ba"),
       MachineOf("b", "a"), InventoryOf("b"), InventoryOf("a"),
       MachineOf("a", "b"), InventoryOf("a"), InventoryOf("b")],
      [Edge(4, 0), Edge(5, 1),
       Edge(6, 5), Edge(3, 7), Edge(7, 6), Edge(8, 6), Edge(2, 8),
       Edge(9, 4), Edge(2, 10), Edge(10, 9), Edge(11, 9), Edge(3, 11)]))
  {
    hide *;
    var a := ArenaOf(["ab", "ba"]);
    ArenaAbBa();
    ArenaSetting(["ab", "ba"]);
    SettingFacts(a.g, a.src, a.sinks);
    RunCases(LinearAssembly, a);
    var b1 := Linear.LinearUnfold(a.g, a.src, a.sinks);
    LinearAbBaSupply(Build(a.g, [], map[], map[]), a.src);
    LinearAbBaFirst(b1, a.src);
    LinearAbBaSecond(Build(
      Network([SinkOf("ab"), SinkOf("ba"), SourceOf("a"), SourceOf("b"), InventoryOf("ab"), InventoryOf("ba"),
               MachineOf("b", "a"), InventoryOf("b"), InventoryOf("a")],
              [Edge(4, 0), Edge(5, 1), Edge(6, 5), Edge(3, 7), Edge(7, 6), Edge(8, 6), Edge(2, 8)]),
      [Pending(4, "ab")], map["ab" := 4, "ba" := 5], map[]), a.src);
  }
  // ---------------------------------------------------------------------
  // Component assembly of "abcd"

  /** A turn of the component `while` loop that splits the last entry in the
      middle: both halves get new queued Inventories, left first. */
  lemma ComponentSplitTurn(b: Build, src: Sources, shapes: seq<Shape>, edges: seq<Edge>, l: Word, r: Word)
    returns (b': Build)
    requires Within(|shapes|, edges) && b.g == Network(shapes, edges)
    requires Fits(b, src) && b.pending != []
    requires b.pending[|b.pending| - 1].word !in src && |b.pending[|b.pending| - 1].word| >= 2
    requires Component.Halves(b.pending[|b.pending| - 1].word) == (l, r)
    ensures Within(|shapes| + 3, edges + NewEdges(|shapes|, b.pending[|b.pending| - 1].inv, None, None))
    ensures b' == b.(
      g := Network(shapes + NewNodes(l, r), edges + NewEdges(|shapes|, b.pending[|b.pending| - 1].inv, None, None)),
      pending := b.pending[..|b.pending| - 1] + [Pending(|shapes| + 1, l), Pending(|shapes| + 2, r)])
    ensures Fits(b', src) && Component.Loop(b, src) == Component.Loop(b', src)
  {
    hide Network, Links, Bare, Fits, Expand, Component.Loop, Component.Step, Component.Halves, Legacy.SplitWord;
    var b1, p := Component.LoopPop(b, src);
    Component.StepCases(b1, src, p);
    Component.HalvesFacts(p.word, {});
    Shaped(shapes, edges);
    ExpandedNetwork(shapes, edges, p.inv, l, r, None, None);
    b' := Component.Step(b1, src, p).value;
  }

  /** A turn that feeds the last entry from its Source. */
  lemma ComponentFeedTurn(b: Build, src: Sources, shapes: seq<Shape>, edges: seq<Edge>)
    returns (b': Build)
    requires Within(|shapes|, edges) && b.g == Network(shapes, edges)
    requires Fits(b, src) && b.pending != [] && b.pending[|b.pending| - 1].word in src
    ensures Within(|shapes|, edges + [Edge(src[b.pending[|b.pending| - 1].word], b.pending[|b.pending| - 1].inv)])
    ensures b' == b.(
      g := Network(shapes, edges + [Edge(src[b.pending[|b.pending| - 1].word], b.pending[|b.pending| - 1].inv)]),
      pending := b.pending[..|b.pending| - 1])
    ensures Fits(b', src) && Component.Loop(b, src) == Component.Loop(b', src)
  {
    hide *;
    var b1, p := Component.LoopPop(b, src);
    Component.StepCases(b1, src, p);
    Fed(b1, src, p, shapes, edges);
    b' := Component.Step(b1, src, p).value;
  }
  /** The middle split of a concrete word. */
  lemma HalvesAre(w: Word, l: Word, r: Word)
    requires l == w[..|w| / 2] && r == w[|w| / 2..]
    ensures Component.Halves(w) == (l, r)
  {
  }

  /** The component loop stops on an empty worklist. */
  lemma ComponentDone(b: Build, src: Sources)
    requires Fits(b, src) && b.pending == []
    ensures Component.Loop(b, src) == Ok(b)
  {
  }

  lemma DistinctAbcd()
    ensures Distinct(["abcd"]) == ["abcd"]
    ensures Letters(["abcd"]) == "abcd"
    ensures Distinct("abcd") == "abcd"
  {
    assert ["abcd"][..0] == [];
    assert Letters(["abcd"]) == Letters([]) + "abcd";
    assert "abcd"[..3] == "abc" && "abc"[..2] == "ab" && "ab"[..1] == "a" && "a"[..0] == [];
  }

  lemma ArenaAbcdNodes()
    ensures ArenaOf(["abcd"]).g
      == Network([SinkOf("abcd"), SourceOf("a"), SourceOf("b"), SourceOf("c"), SourceOf("d")], [])
  {
    hide *;
    DistinctAbcd();
    var ws, cs := ArenaFacts(["abcd"]);
    var a := ArenaOf(["abcd"]);
    NetworkBare([SinkOf("abcd"), SourceOf("a"), SourceOf("b"), SourceOf("c"), SourceOf("d")]);
    assert a.g[1] == Fresh(SourceOf(["abcd"[0]])) && a.g[2] == Fresh(SourceOf(["abcd"[1]]));
    assert a.g[3] == Fresh(SourceOf(["abcd"[2]])) && a.g[4] == Fresh(SourceOf(["abcd"[3]]));
  }

  lemma ArenaAbcdSources()
    ensures ArenaOf(["abcd"]).src == map["a" := 1, "b" := 2, "c" := 3, "d" := 4]
  {
    hide *;
    DistinctAbcd();
    var ws, cs := ArenaFacts(["abcd"]);
    var a := ArenaOf(["abcd"]);
    assert ["abcd"[0]] == "a" && ["abcd"[1]] == "b" && ["abcd"[2]] == "c" && ["abcd"[3]] == "d";
    assert a.src.Keys == {"a", "b", "c", "d"};
  }

  /** `generate` on "abcd": the Sink, then the Sources of 'a' to 'd'. */
  lemma ArenaAbcd()
    ensures ArenaOf(["abcd"]) == Arena(
      Network([SinkOf("abcd"), SourceOf("a"), SourceOf("b"), SourceOf("c"), SourceOf("d")], []),
      map["a" := 1, "b" := 2, "c" := 3, "d" := 4],
      [("abcd", 0)])
  {
    hide *;
    ArenaAbcdNodes();
    ArenaAbcdSources();
    DistinctAbcd();
    var ws, cs := ArenaFacts(["abcd"]);
  }

  /** The sink loop on "abcd": an Inventory of "abcd" feeding its Sink,
      queued. */
  lemma AbcdSupply(b0: Build, src: Sources)
    requires b0 == Build(Network([SinkOf("abcd"), SourceOf("a"), SourceOf("b"), SourceOf("c"), SourceOf("d")], []),
      [], map[], map[])
    requires src == map["a" := 1, "b" := 2, "c" := 3, "d" := 4] && Fits(b0, src)
    requires SinksFit(b0.g, [("abcd", 0)])
    ensures Within(6, [Edge(5, 0)])
    ensures SupplySinks(b0, src, [("abcd", 0)]) == Build(
      Network([SinkOf("abcd"), SourceOf("a"), SourceOf("b"), SourceOf("c"), SourceOf("d"), InventoryOf("abcd")],
              [Edge(5, 0)]),
      [Pending(5, "abcd")], map["abcd" := 5], map[])
  {
    hide *;
    var shapes := [SinkOf("abcd"), SourceOf("a"), SourceOf("b"), SourceOf("c"), SourceOf("d")];
    NetworkBare(shapes);
    var b1 := SupplySinksUnfold(b0, src, [("abcd", 0)]);
    assert [("abcd", 0)][..0] == [];
    SupplySinksNone(b0, src, []);
    Supplied(b0, src, "abcd", 0, shapes, []);
    assert shapes + [InventoryOf("abcd")]
      == [SinkOf("abcd"), SourceOf("a"), SourceOf("b"), SourceOf("c"), SourceOf("d"), InventoryOf("abcd")];
    assert [] + [Edge(5, 0)] == [Edge(5, 0)] && [] + [Pending(5, "abcd")] == [Pending(5, "abcd")];
    assert map[]["abcd" := 5] == map["abcd" := 5];
  }

  /** Turn 1: "abcd" is split into "ab" and "cd", both queued. */
  lemma ComponentAbcdFirst(b: Build, src: Sources, shapes: seq<Shape>, edges: seq<Edge>)
    returns (b': Build, shapes': seq<Shape>, edges': seq<Edge>)
    requires shapes == [SinkOf("abcd"), SourceOf("a"), SourceOf("b"), SourceOf("c"), SourceOf("d"),
                        InventoryOf("abcd")]
    requires edges == [Edge(5, 0)]
    requires Within(|shapes|, edges) && src == map["a" := 1, "b" := 2, "c" := 3, "d" := 4]
    requires b == Build(Network(shapes, edges), [Pending(5, "abcd")], map["abcd" := 5], map[])
    requires Fits(b, src)
    ensures shapes' == [SinkOf("abcd"), SourceOf("a"), SourceOf("b"), SourceOf("c"), SourceOf("d"),
                        InventoryOf("abcd"), MachineOf("ab", "cd"), InventoryOf("ab"),
                        InventoryOf("cd")]
    ensures edges' == [Edge(5, 0), Edge(6, 5), Edge(7, 6), Edge(8, 6)]
    ensures Within(|shapes'|, edges')
    ensures b' == Build(Network(shapes', edges'), [Pending(7, "ab"), Pending(8, "cd")], map["abcd" := 5], map[])
    ensures Fits(b', src) && Component.Loop(b, src) == Component.Loop(b', src)
  {
    hide Network, Links, Bare, Fits, Within, Component.Loop, Component.Step, Component.Halves;
    HalvesAre("abcd", "ab", "cd");
    b' := ComponentSplitTurn(b, src, shapes, edges, "ab", "cd");
    shapes', edges' := shapes + NewNodes("ab", "cd"), edges + NewEdges(6, 5, None, None);
    assert b.pending[..0] + [Pending(7, "ab"), Pending(8, "cd")]
      == [Pending(7, "ab"), Pending(8, "cd")];
  }

  /** Turn 2: "cd" is split into "c" and "d", both queued. */
  lemma ComponentAbcdSecond(b: Build, src: Sources, shapes: seq<Shape>, edges: seq<Edge>)
    returns (b': Build, shapes': seq<Shape>, edges': seq<Edge>)
    requires shapes == [SinkOf("abcd"), SourceOf("a"), SourceOf("b"), SourceOf("c"), SourceOf("d"),
                        InventoryOf("abcd"), MachineOf("ab", "cd"), InventoryOf("ab"),
                        InventoryOf("cd")]
    requires edges == [Edge(5, 0), Edge(6, 5), Edge(7, 6), Edge(8, 6)]
    requires Within(|shapes|, edges) && src == map["a" := 1, "b" := 2, "c" := 3, "d" := 4]
    requires b == Build(Network(shapes, edges), [Pending(7, "ab"), Pending(8, "cd")], map["abcd" := 5], map[])
    requires Fits(b, src)
    ensures shapes' == [SinkOf("abcd"), SourceOf("a"), SourceOf("b"), SourceOf("c"), SourceOf("d"),
                        InventoryOf("abcd"), MachineOf("ab", "cd"), InventoryOf("ab"),
                        InventoryOf("cd"), MachineOf("c", "d"), InventoryOf("c"), InventoryOf("d")]
    ensures edges' == [Edge(5, 0), Edge(6, 5), Edge(7, 6), Edge(8, 6), Edge(9, 8), Edge(10, 9),
                       Edge(11, 9)]
    ensures Within(|shapes'|, edges')
    ensures b' == Build(Network(shapes', edges'), [Pending(7, "ab"), Pending(10, "c"), Pending(11, "d")], map["abcd" := 5], map[])
    ensures Fits(b', src) && Component.Loop(b, src) == Component.Loop(b', src)
  {
    hide Network, Links, Bare, Fits, Within, Component.Loop, Component.Step, Component.Halves;
    HalvesAre("cd", "c", "d");
    b' := ComponentSplitTurn(b, src, shapes, edges, "c", "d");
    shapes', edges' := shapes + NewNodes("c", "d"), edges + NewEdges(9, 8, None, None);
    assert b.pending[..1] + [Pending(10, "c"), Pending(11, "d")]
      == [Pending(7, "ab"), Pending(10, "c"), Pending(11, "d")];
  }

  /** Turn 3: "d" is fed from its Source. */
  lemma ComponentAbcdThird(b: Build, src: Sources, shapes: seq<Shape>, edges: seq<Edge>)
    returns (b': Build, shapes': seq<Shape>, edges': seq<Edge>)
    requires shapes == [SinkOf("abcd"), SourceOf("a"), SourceOf("b"), SourceOf("c"), SourceOf("d"),
                        InventoryOf("abcd"), MachineOf("ab", "cd"), InventoryOf("ab"),
                        InventoryOf("cd"), MachineOf("c", "d"), InventoryOf("c"), InventoryOf("d")]
    requires edges == [Edge(5, 0), Edge(6, 5), Edge(7, 6), Edge(8, 6), Edge(9, 8), Edge(10, 9),
                       Edge(11, 9)]
    requires Within(|shapes|, edges) && src == map["a" := 1, "b" := 2, "c" := 3, "d" := 4]
    requires b == Build(Network(shapes, edges), [Pending(7, "ab"), Pending(10, "c"), Pending(11, "d")], map["abcd" := 5], map[])
    requires Fits(b, src)
    ensures shapes' == [SinkOf("abcd"), SourceOf("a"), SourceOf("b"), SourceOf("c"), SourceOf("d"),
                        InventoryOf("abcd"), MachineOf("ab", "cd"), InventoryOf("ab"),
                        InventoryOf("cd"), MachineOf("c", "d"), InventoryOf("c"), InventoryOf("d")]
    ensures edges' == [Edge(5, 0), Edge(6, 5), Edge(7, 6), Edge(8, 6), Edge(9, 8), Edge(10, 9),
                       Edge(11, 9), Edge(4, 11)]
    ensures Within(|shapes'|, edges')
    ensures b' == Build(Network(shapes', edges'), [Pending(7, "ab"), Pending(10, "c")], map["abcd" := 5], map[])
    ensures Fits(b', src) && Component.Loop(b, src) == Component.Loop(b', src)
  {
    hide Network, Links, Bare, Fits, Within, Component.Loop, Component.Step, Component.Halves;
    b' := ComponentFeedTurn(b, src, shapes, edges);
    shapes', edges' := shapes, edges + [Edge(4, 11)];
    assert b.pending[..2] == [Pending(7, "ab"), Pending(10, "c")];
  }

  /** Turn 4: "c" is fed from its Source. */
  lemma ComponentAbcdFourth(b: Build, src: Sources, shapes: seq<Shape>, edges: seq<Edge>)
    returns (b': Build, shapes': seq<Shape>, edges': seq<Edge>)
    requires shapes == [SinkOf("abcd"), SourceOf("a"), SourceOf("b"), SourceOf("c"), SourceOf("d"),
                        InventoryOf("abcd"), MachineOf("ab", "cd"), InventoryOf("ab"),
                        InventoryOf("cd"), MachineOf("c", "d"), InventoryOf("c"), InventoryOf("d")]
    requires edges == [Edge(5, 0), Edge(6, 5), Edge(7, 6), Edge(8, 6), Edge(9, 8), Edge(10, 9),
                       Edge(11, 9), Edge(4, 11)]
    requires Within(|shapes|, edges) && src == map["a" := 1, "b" := 2, "c" := 3, "d" := 4]
    requires b == Build(Network(shapes, edges), [Pending(7, "ab"), Pending(10, "c")], map["abcd" := 5], map[])
    requires Fits(b, src)
    ensures shapes' == [SinkOf("abcd"), SourceOf("a"), SourceOf("b"), SourceOf("c"), SourceOf("d"),
                        InventoryOf("abcd"), MachineOf("ab", "cd"), InventoryOf("ab"),
                        InventoryOf("cd"), MachineOf("c", "d"), InventoryOf("c"), InventoryOf("d")]
    ensures edges' == [Edge(5, 0), Edge(6, 5), Edge(7, 6), Edge(8, 6), Edge(9, 8), Edge(10, 9),
                       Edge(11, 9), Edge(4, 11), Edge(3, 10)]
    ensures Within(|shapes'|, edges')
    ensures b' == Build(Network(shapes', edges'), [Pending(7, "ab")], map["abcd" := 5], map[])
    ensures Fits(b', src) && Component.Loop(b, src) == Component.Loop(b', src)
  {
    hide Network, Links, Bare, Fits, Within, Component.Loop, Component.Step, Component.Halves;
    b' := ComponentFeedTurn(b, src, shapes, edges);
    shapes', edges' := shapes, edges + [Edge(3, 10)];
    assert b.pending[..1] == [Pending(7, "ab")];
  }

  /** Turn 5: "ab" is split into "a" and "b", both queued. */
  lemma ComponentAbcdFifth(b: Build, src: Sources, shapes: seq<Shape>, edges: seq<Edge>)
    returns (b': Build, shapes': seq<Shape>, edges': seq<Edge>)
    requires shapes == [SinkOf("abcd"), SourceOf("a"), SourceOf("b"), SourceOf("c"), SourceOf("d"),
                        InventoryOf("abcd"), MachineOf("ab", "cd"), InventoryOf("ab"),
                        InventoryOf("cd"), MachineOf("c", "d"), InventoryOf("c"), InventoryOf("d")]
    requires edges == [Edge(5, 0), Edge(6, 5), Edge(7, 6), Edge(8, 6), Edge(9, 8), Edge(10, 9),
                       Edge(11, 9), Edge(4, 11), Edge(3, 10)]
    requires Within(|shapes|, edges) && src == map["a" := 1, "b" := 2, "c" := 3, "d" := 4]
    requires b == Build(Network(shapes, edges), [Pending(7, "ab")], map["abcd" := 5], map[])
    requires Fits(b, src)
    ensures shapes' == [SinkOf("abcd"), SourceOf("a"), SourceOf("b"), SourceOf("c"), SourceOf("d"),
                        InventoryOf("abcd"), MachineOf("ab", "cd"), InventoryOf("ab"),
                        InventoryOf("cd"), MachineOf("c", "d"), InventoryOf("c"), InventoryOf("d"),
                        MachineOf("a", "b"), InventoryOf("a"), InventoryOf("b")]
    ensures edges' == [Edge(5, 0), Edge(6, 5), Edge(7, 6), Edge(8, 6), Edge(9, 8), Edge(10, 9),
                       Edge(11, 9), Edge(4, 11), Edge(3, 10), Edge(12, 7), Edge(13, 12),
                       Edge(14, 12)]
    ensures Within(|shapes'|, edges')
    ensures b' == Build(Network(shapes', edges'), [Pending(13, "a"), Pending(14, "b")], map["abcd" := 5], map[])
    ensures Fits(b', src) && Component.Loop(b, src) == Component.Loop(b', src)
  {
    hide Network, Links, Bare, Fits, Within, Component.Loop, Component.Step, Component.Halves;
    HalvesAre("ab", "a", "b");
    b' := ComponentSplitTurn(b, src, shapes, edges, "a", "b");
    shapes', edges' := shapes + NewNodes("a", "b"), edges + NewEdges(12, 7, None, None);
    assert b.pending[..0] + [Pending(13, "a"), Pending(14, "b")]
      == [Pending(13, "a"), Pending(14, "b")];
  }

  /** Turn 6: "b" is fed from its Source. */
  lemma ComponentAbcdSixth(b: Build, src: Sources, shapes: seq<Shape>, edges: seq<Edge>)
    returns (b': Build, shapes': seq<Shape>, edges': seq<Edge>)
    requires shapes == [SinkOf("abcd"), SourceOf("a"), SourceOf("b"), SourceOf("c"), SourceOf("d"),
                        InventoryOf("abcd"), MachineOf("ab", "cd"), InventoryOf("ab"),
                        InventoryOf("cd"), MachineOf("c", "d"), InventoryOf("c"), InventoryOf("d"),
                        MachineOf("a", "b"), InventoryOf("a"), InventoryOf("b")]
    requires edges == [Edge(5, 0), Edge(6, 5), Edge(7, 6), Edge(8, 6), Edge(9, 8), Edge(10, 9),
                       Edge(11, 9), Edge(4, 11), Edge(3, 10), Edge(12, 7), Edge(13, 12),
                       Edge(14, 12)]
    requires Within(|shapes|, edges) && src == map["a" := 1, "b" := 2, "c" := 3, "d" := 4]
    requires b == Build(Network(shapes, edges), [Pending(13, "a"), Pending(14, "b")], map["abcd" := 5], map[])
    requires Fits(b, src)
    ensures shapes' == [SinkOf("abcd"), SourceOf("a"), SourceOf("b"), SourceOf("c"), SourceOf("d"),
                        InventoryOf("abcd"), MachineOf("ab", "cd"), InventoryOf("ab"),
                        InventoryOf("cd"), MachineOf("c", "d"), InventoryOf("c"), InventoryOf("d"),
                        MachineOf("a", "b"), InventoryOf("a"), InventoryOf("b")]
    ensures edges' == [Edge(5, 0), Edge(6, 5), Edge(7, 6), Edge(8, 6), Edge(9, 8), Edge(10, 9),
                       Edge(11, 9), Edge(4, 11), Edge(3, 10), Edge(12, 7), Edge(13, 12),
                       Edge(14, 12), Edge(2, 14)]
    ensures Within(|shapes'|, edges')
    ensures b' == Build(Network(shapes', edges'), [Pending(13, "a")], map["abcd" := 5], map[])
    ensures Fits(b', src) && Component.Loop(b, src) == Component.Loop(b', src)
  {
    hide Network, Links, Bare, Fits, Within, Component.Loop, Component.Step, Component.Halves;
    b' := ComponentFeedTurn(b, src, shapes, edges);
    shapes', edges' := shapes, edges + [Edge(2, 14)];
    assert b.pending[..1] == [Pending(13, "a")];
  }

  /** Turn 7: "a" is fed from its Source. */
  lemma ComponentAbcdSeventh(b: Build, src: Sources, shapes: seq<Shape>, edges: seq<Edge>)
    returns (b': Build, shapes': seq<Shape>, edges': seq<Edge>)
    requires shapes == [SinkOf("abcd"), SourceOf("a"), SourceOf("b"), SourceOf("c"), SourceOf("d"),
                        InventoryOf("abcd"), MachineOf("ab", "cd"), InventoryOf("ab"),
                        InventoryOf("cd"), MachineOf("c", "d"), InventoryOf("c"), InventoryOf("d"),
                        MachineOf("a", "b"), InventoryOf("a"), InventoryOf("b")]
    requires edges == [Edge(5, 0), Edge(6, 5), Edge(7, 6), Edge(8, 6), Edge(9, 8), Edge(10, 9),
                       Edge(11, 9), Edge(4, 11), Edge(3, 10), Edge(12, 7), Edge(13, 12),
                       Edge(14, 12), Edge(2, 14)]
    requires Within(|shapes|, edges) && src == map["a" := 1, "b" := 2, "c" := 3, "d" := 4]
    requires b == Build(Network(shapes, edges), [Pending(13, "a")], map["abcd" := 5], map[])
    requires Fits(b, src)
    ensures shapes' == [SinkOf("abcd"), SourceOf("a"), SourceOf("b"), SourceOf("c"), SourceOf("d"),
                        InventoryOf("abcd"), MachineOf("ab", "cd"), InventoryOf("ab"),
                        InventoryOf("cd"), MachineOf("c", "d"), InventoryOf("c"), InventoryOf("d"),
                        MachineOf("a", "b"), InventoryOf("a"), InventoryOf("b")]
    ensures edges' == [Edge(5, 0), Edge(6, 5), Edge(7, 6), Edge(8, 6), Edge(9, 8), Edge(10, 9),
                       Edge(11, 9), Edge(4, 11), Edge(3, 10), Edge(12, 7), Edge(13, 12),
                       Edge(14, 12), Edge(2, 14), Edge(1, 13)]
    ensures Within(|shapes'|, edges')
    ensures b' == Build(Network(shapes', edges'), [], map["abcd" := 5], map[])
    ensures Fits(b', src) && Component.Loop(b, src) == Component.Loop(b', src)
  {
    hide Network, Links, Bare, Fits, Within, Component.Loop, Component.Step, Component.Halves;
    b' := ComponentFeedTurn(b, src, shapes, edges);
    shapes', edges' := shapes, edges + [Edge(1, 13)];
    assert b.pending[..0] == [];
  }

  /** test_algorithms.py, third case: the component generator on "abcd"
      builds the balanced tree Machine ab+cd over Machines a+b and c+d, each
      character drawn from its Source through its own Inventory. */
  lemma ComponentAbcd()
    ensures Run(ComponentAssembly, ArenaOf(["abcd"])) == Ok(Network(
      [SinkOf("abcd"), SourceOf("a"), SourceOf("b"), SourceOf("c"), SourceOf("d"),
       InventoryOf("abcd"), MachineOf("ab", "cd"), InventoryOf("ab"), InventoryOf("cd"),
       MachineOf("c", "d"), InventoryOf("c"), InventoryOf("d"), MachineOf("a", "b"),
       InventoryOf("a"), InventoryOf("b")],
      [Edge(5, 0), Edge(6, 5), Edge(7, 6), Edge(8, 6), Edge(9, 8), Edge(10, 9), Edge(11, 9),
       Edge(4, 11), Edge(3, 10), Edge(12, 7), Edge(13, 12), Edge(14, 12), Edge(2, 14), Edge(1, 13)]))
  {
    hide *;
    var a := ArenaOf(["abcd"]);
    ArenaAbcd();
    ArenaSetting(["abcd"]);
    SettingFacts(a.g, a.src, a.sinks);
    RunCases(ComponentAssembly, a);
    var b1 := Component.ComponentUnfold(a.g, a.src, a.sinks);
    AbcdSupply(Build(a.g, [], map[], map[]), a.src);
    var s1 := [SinkOf("abcd"), SourceOf("a"), SourceOf("b"), SourceOf("c"), SourceOf("d"), InventoryOf("abcd")];
    var e1 := [Edge(5, 0)];
    var b2, s2, e2 := ComponentAbcdFirst(b1, a.src, s1, e1);
    var b3, s3, e3 := ComponentAbcdSecond(b2, a.src, s2, e2);
    var b4, s4, e4 := ComponentAbcdThird(b3, a.src, s3, e3);
    var b5, s5, e5 := ComponentAbcdFourth(b4, a.src, s4, e4);
    var b6, s6, e6 := ComponentAbcdFifth(b5, a.src, s5, e5);
    var b7, s7, e7 := ComponentAbcdSixth(b6, a.src, s6, e6);
    var b8, s8, e8 := ComponentAbcdSeventh(b7, a.src, s7, e7);
    ComponentDone(b8, a.src);
  }
}
