/** form_bio_inspired_assembly (wordmill/algorithms.py): one Inventory per
    distinct word, shared by every consumer. A queued word with a Source is
    fed by it; any other word gets one Machine per split position, each fed
    by the (shared) Inventories of its two halves, new ones being queued. */
module Bio {
  import opened Outcomes
  import opened Words
  import opened Nodes
  import Legacy
  import opened Construction

  // ---------------------------------------------------------------------
  // One iteration of the `for i in range(1, len(w))` loop

  /** `m = created_inventories[(l, r)]` when cached, otherwise a new cached
      Machine(l, r); then `form_edge(m, inv)`. With `share` false the cache
      is never consulted: the team generator looks the pair up in
      `created_machines`, which it never writes. */
  function Hang(b: Build, src: Sources, share: bool, inv: nat, l: Word, r: Word): (res: (Build, nat))
    requires Fits(b, src) && IsInventoryAt(b.g, inv, l + r)
    ensures Fits(res.0, src) && Grows(b.g, res.0.g) && IsMachineAt(res.0.g, res.1, l, r)
  {
    MachineShapes(l, r);
    if share && (l, r) in b.machines then
      var m := b.machines[(l, r)];
      (Join(b, src, m, inv), m)
    else
      var (g1, m) := AddNode(b.g, MachineOf(l, r));
      FitsGrow(b, g1, src);
      var b1 := b.(g := g1, machines := b.machines[(l, r) := m]);
      var b2 := Join(b1, src, m, inv);
      GrowsTransitive(b.g, b1.g, b2.g);
      (b2, m)
  }

  /** The Inventory of `x`, an input word of Machine `m`: `created_inventories[x]`
      when cached, otherwise a new one, queued and cached; then
      `form_edge(inv_x, m)`. */
  function Attach(b: Build, src: Sources, m: nat, x: Word): (r: Build)
    requires Fits(b, src) && m < |b.g| && b.g[m].shape.MachineOf?
    requires x == b.g[m].shape.left || x == b.g[m].shape.right
    ensures Fits(r, src) && Grows(b.g, r.g)
  {
    var MachineOf(l, rt) := b.g[m].shape;
    MachineShapes(l, rt);
    if x in b.invs then
      Join(b, src, b.invs[x], m)
    else
      var (g1, k) := AddNode(b.g, InventoryOf(x));
      var b1 := Build(g1, b.pending + [Pending(k, x)], b.invs[x := k], b.machines);
      FitsGrow(b, g1, src);
      FitsQueue(b.(g := g1), src, Pending(k, x));
      FitsRecord(b.(g := g1, pending := b.pending + [Pending(k, x)]), src, x, k);
      var b2 := Join(b1, src, k, m);
      GrowsTransitive(b.g, b1.g, b2.g);
      b2
  }

  /** The Machine for `(l, r)` feeds `inv`; the worklist and the Inventory
      cache are untouched, and the Machine cache maps `(l, r)` to it. */
  lemma HangFacts(b: Build, src: Sources, share: bool, inv: nat, l: Word, r: Word)
    requires Fits(b, src) && IsInventoryAt(b.g, inv, l + r)
    ensures var res := Hang(b, src, share, inv, l, r);
      && res.1 in res.0.g[inv].inputNodes
      && res.0.pending == b.pending && res.0.invs == b.invs
      && (l, r) in res.0.machines && res.0.machines[(l, r)] == res.1
      && (share && (l, r) in b.machines ==> res.1 == b.machines[(l, r)] && |res.0.g| == |b.g|)
      && (!share || (l, r) !in b.machines ==> res.1 == |b.g| && |res.0.g| == |b.g| + 1)
  {
  }

  /** The Inventory of `x` feeds Machine `m`. A cached one is reused and
      nothing is queued; otherwise a new node is created, queued and cached. */
  lemma AttachFacts(b: Build, src: Sources, m: nat, x: Word)
    requires Fits(b, src) && m < |b.g| && b.g[m].shape.MachineOf?
    requires x == b.g[m].shape.left || x == b.g[m].shape.right
    ensures var r := Attach(b, src, m, x);
      && r.machines == b.machines
      && x in r.invs && r.invs[x] < |r.g| && r.invs[x] in r.g[m].inputNodes
      && (x in b.invs ==> r.pending == b.pending && r.invs == b.invs && |r.g| == |b.g|)
      && (x !in b.invs ==>
           && r.pending == b.pending + [Pending(|b.g|, x)] && r.invs == b.invs[x := |b.g|]
           && |r.g| == |b.g| + 1)
  {
  }

  /** The split of `w` at position `i` of the `for` loop. */
  function Cut(w: Word, i: nat): (Word, Word) {
    Legacy.SplitWord(w, i)
  }

  lemma CutFacts(w: Word, i: nat)
    requires 1 <= i < |w|
    ensures Cut(w, i) == (w[..i], w[i..]) && Cut(w, i).0 + Cut(w, i).1 == w
    ensures 1 <= |Cut(w, i).0| < |w| && 1 <= |Cut(w, i).1| < |w|
  {
  }

  /** One iteration: the Machine for split `i` of `w` feeds `inv`, and the
      Inventories of both halves feed the Machine. */
  function Junction(b: Build, src: Sources, share: bool, inv: nat, w: Word, i: nat): (r: Build)
    requires Fits(b, src) && IsInventoryAt(b.g, inv, w) && 1 <= i < |w|
    ensures Fits(r, src) && Grows(b.g, r.g)
  {
    var (l, rt) := Cut(w, i);
    var (b1, m) := Hang(b, src, share, inv, l, rt);
    var b2 := Attach(b1, src, m, l);
    var b3 := Attach(b2, src, m, rt);
    GrowsTransitive(b.g, b1.g, b2.g);
    GrowsTransitive(b.g, b2.g, b3.g);
    b3
  }

  /** The `for` loop from position `i` on. */
  function Junctions(b: Build, src: Sources, share: bool, inv: nat, w: Word, i: nat): (r: Build)
    requires Fits(b, src) && IsInventoryAt(b.g, inv, w) && 1 <= i
    ensures Fits(r, src) && Grows(b.g, r.g)
    decreases |w| - i
  {
    if i >= |w| then b
    else
      var b1 := Junction(b, src, share, inv, w, i);
      var r := Junctions(b1, src, share, inv, w, i + 1);
      GrowsTransitive(b.g, b1.g, r.g);
      r
  }

  /** The body of the `while` loop for the popped entry `p`: feed it from its
      Source, or expand it at every split position. A word of fewer than two
      characters without a Source is left as it is. */
  function Step(b: Build, src: Sources, share: bool, p: Pending): (r: Build)
    requires Fits(b, src) && IsInventoryAt(b.g, p.inv, p.word)
    ensures Fits(r, src) && Grows(b.g, r.g)
  {
    if p.word in src then
      FeedFacts(b, src, p);
      Feed(b, src, p)
    else Junctions(b, src, share, p.inv, p.word, 1)
  }

  // ---------------------------------------------------------------------
  // Termination

  /** Every word of the worklist lies in `univ`. */
  ghost predicate Within(ps: seq<Pending>, univ: set<Word>) {
    forall k | 0 <= k < |ps| :: ps[k].word in univ
  }

  /** `univ` holds both halves of each of its words at every split position. */
  ghost predicate SplitClosed(univ: set<Word>) {
    forall w, i | w in univ && 1 <= i < |w| :: w[..i] in univ && w[i..] in univ
  }

  /** What a part of an expansion does to the worklist: it keeps the entries
      it found and queues only words of `univ` that had no Inventory yet,
      recording each; with no new word recorded, it queues nothing. */
  ghost predicate Progress(b: Build, b': Build, univ: set<Word>) {
    && b.invs.Keys <= b'.invs.Keys && b'.invs.Keys <= b.invs.Keys + univ
    && |b.pending| <= |b'.pending| && b'.pending[..|b.pending|] == b.pending
    && (b'.invs.Keys == b.invs.Keys ==> |b'.pending| == |b.pending|)
    && (forall k | |b.pending| <= k < |b'.pending| :: b'.pending[k].word in univ && b'.pending[k].word !in b.invs)
  }

  lemma ProgressSame(b: Build, b': Build, univ: set<Word>)
    requires b'.pending == b.pending && b'.invs == b.invs
    ensures Progress(b, b', univ)
  {
    assert b'.pending[..|b.pending|] == b.pending;
  }

  lemma {:induction false} ProgressTransitive(b1: Build, b2: Build, b3: Build, univ: set<Word>)
    requires Progress(b1, b2, univ) && Progress(b2, b3, univ)
    ensures Progress(b1, b3, univ)
  {
    var n1 := |b1.pending|;
    var n2 := |b2.pending|;
    assert b3.pending[..n1] == b3.pending[..n2][..n1];
    forall k | n1 <= k < |b3.pending|
      ensures b3.pending[k].word in univ && b3.pending[k].word !in b1.invs
    {
      if k < n2 {
        assert b3.pending[k] == b3.pending[..n2][k] == b2.pending[k];
      }
    }
  }

  /** Attaching a half of a word of `univ` makes progress. */
  lemma AttachProgress(b: Build, src: Sources, m: nat, x: Word, univ: set<Word>)
    requires Fits(b, src) && m < |b.g| && b.g[m].shape.MachineOf?
    requires x == b.g[m].shape.left || x == b.g[m].shape.right
    requires x in univ
    ensures Progress(b, Attach(b, src, m, x), univ)
  {
    hide *;
    AttachFacts(b, src, m, x);
    var r := Attach(b, src, m, x);
    if x in b.invs {
      ProgressSame(b, r, univ);
    } else {
      ProgressPush(b, r, x, univ);
    }
  }

  /** Queueing and recording one new word of `univ` makes progress. */
  lemma ProgressPush(b: Build, b': Build, x: Word, univ: set<Word>)
    requires x in univ && x !in b.invs
    requires exists k :: b'.pending == b.pending + [Pending(k, x)] && b'.invs == b.invs[x := k]
    ensures Progress(b, b', univ)
  {
    var k :| b'.pending == b.pending + [Pending(k, x)] && b'.invs == b.invs[x := k];
    assert b'.pending[..|b.pending|] == b.pending;
    assert b'.invs.Keys == b.invs.Keys + {x};
    assert b'.pending[|b.pending|].word == x;
  }

  lemma JunctionProgress(b: Build, src: Sources, share: bool, inv: nat, w: Word, i: nat, univ: set<Word>)
    requires Fits(b, src) && IsInventoryAt(b.g, inv, w) && 1 <= i < |w|
    requires w in univ && SplitClosed(univ)
    ensures Progress(b, Junction(b, src, share, inv, w, i), univ)
  {
    CutFacts(w, i);
    var (l, rt) := Cut(w, i);
    var (b1, m) := Hang(b, src, share, inv, l, rt);
    var b2 := Attach(b1, src, m, l);
    hide Hang, Attach, Cut, Fits, SplitClosed;
    HangFacts(b, src, share, inv, l, rt);
    ProgressSame(b, b1, univ);
    AttachProgress(b1, src, m, l, univ);
    AttachProgress(b2, src, m, rt, univ);
    ProgressTransitive(b, b1, b2, univ);
    ProgressTransitive(b, b2, Attach(b2, src, m, rt), univ);
  }

  lemma {:induction false} JunctionsProgress(b: Build, src: Sources, share: bool, inv: nat, w: Word, i: nat, univ: set<Word>)
    requires Fits(b, src) && IsInventoryAt(b.g, inv, w) && 1 <= i
    requires w in univ && SplitClosed(univ)
    ensures Progress(b, Junctions(b, src, share, inv, w, i), univ)
    decreases |w| - i
  {
    hide *;
    JunctionsDone(b, src, share, inv, w, i);
    if i >= |w| {
      ProgressSame(b, b, univ);
    } else {
      var b1 := Junction(b, src, share, inv, w, i);
      JunctionProgress(b, src, share, inv, w, i, univ);
      JunctionsUnfold(b, src, share, inv, w, i);
      InventoryStays(b.g, b1.g, inv, w);
      JunctionsProgress(b1, src, share, inv, w, i + 1, univ);
      ProgressTransitive(b, b1, Junctions(b1, src, share, inv, w, i + 1), univ);
    }
  }

  lemma JunctionsDone(b: Build, src: Sources, share: bool, inv: nat, w: Word, i: nat)
    requires Fits(b, src) && IsInventoryAt(b.g, inv, w) && 1 <= i
    ensures i >= |w| ==> Junctions(b, src, share, inv, w, i) == b
  {
  }

  lemma StepProgress(b: Build, src: Sources, share: bool, p: Pending, univ: set<Word>)
    requires Fits(b, src) && IsInventoryAt(b.g, p.inv, p.word)
    requires p.word in univ && SplitClosed(univ)
    ensures Progress(b, Step(b, src, share, p), univ)
  {
    if p.word in src {
      FeedFacts(b, src, p);
      ProgressSame(b, Feed(b, src, p), univ);
    } else {
      JunctionsProgress(b, src, share, p.inv, p.word, 1, univ);
    }
  }

  lemma SubsetSmaller<T>(a: set<T>, b: set<T>)
    requires a <= b
    ensures |a| <= |b|
    decreases b
  {
    if a != {} {
      var x :| x in a;
      SubsetSmaller(a - {x}, b - {x});
    }
  }

  /** Recording a new word of `univ` lowers the number of words of `univ`
      without an Inventory. */
  lemma FewerUnstocked(univ: set<Word>, k1: set<Word>, k2: set<Word>)
    requires k1 <= k2 && k2 <= k1 + univ && k1 != k2
    ensures |univ - k2| < |univ - k1|
  {
    assert k2 - k1 != {} by {
      assert k2 == k1 + (k2 - k1);
    }
    var x :| x in k2 - k1;
    assert univ - k2 <= (univ - k1) - {x};
    SubsetSmaller(univ - k2, (univ - k1) - {x});
  }

  /** A step lowers the loop measure: the number of words of `univ` without
      an Inventory, and failing that the length of the worklist. */
  lemma StepShrinks(b: Build, src: Sources, share: bool, p: Pending, univ: set<Word>)
    requires Fits(b, src) && IsInventoryAt(b.g, p.inv, p.word)
    requires Within(b.pending + [p], univ) && SplitClosed(univ)
    ensures var r := Step(b, src, share, p);
      && Within(r.pending, univ)
      && (|| |univ - r.invs.Keys| < |univ - b.invs.Keys|
          || (|univ - r.invs.Keys| == |univ - b.invs.Keys| && |r.pending| <= |b.pending|))
  {
    assert (b.pending + [p])[|b.pending|] == p;
    assert forall k | 0 <= k < |b.pending| :: (b.pending + [p])[k] == b.pending[k];
    StepProgress(b, src, share, p, univ);
    var r := Step(b, src, share, p);
    hide Step, Fits, SplitClosed;
    forall k | 0 <= k < |r.pending|
      ensures r.pending[k].word in univ
    {
      if k < |b.pending| {
        assert r.pending[k] == r.pending[..|b.pending|][k];
      }
    }
    if r.invs.Keys != b.invs.Keys {
      FewerUnstocked(univ, b.invs.Keys, r.invs.Keys);
    }
  }

  // ---------------------------------------------------------------------
  // The loop and the generator

  /** The `while` loop: pop the last entry and feed or expand it until the
      worklist is empty. It always ends: every queued word is a new word of
      `univ`, a finite set closed under splitting. */
  function Loop(b: Build, src: Sources, share: bool, ghost univ: set<Word>): (r: Build)
    requires Fits(b, src) && Within(b.pending, univ) && SplitClosed(univ)
    ensures Fits(r, src) && Grows(b.g, r.g) && r.pending == []
    decreases |univ - b.invs.Keys|, |b.pending|
  {
    if b.pending == [] then b
    else
      var n := |b.pending| - 1;
      var p := b.pending[n];
      var b1 := b.(pending := b.pending[..n]);
      assert b1.pending + [p] == b.pending;
      FitsPop(b, src);
      var b2 := Step(b1, src, share, p);
      StepShrinks(b1, src, share, p, univ);
      var r := Loop(b2, src, share, univ);
      GrowsTransitive(b.g, b2.g, r.g);
      r
  }

  /** Every factor (contiguous piece) of the given words. */
  ghost function Factors(ws: set<Word>): set<Word> {
    set w, a, c | w in ws && 0 <= a <= c <= |w| :: w[a..c]
  }

  lemma FactorsClosed(ws: set<Word>)
    ensures SplitClosed(Factors(ws))
    ensures ws <= Factors(ws)
  {
    forall w, i | w in Factors(ws) && 1 <= i < |w|
      ensures w[..i] in Factors(ws) && w[i..] in Factors(ws)
    {
      var v, a, c :| v in ws && 0 <= a <= c <= |v| && w == v[a..c];
      assert w[..i] == v[a..a + i];
      assert w[i..] == v[a + i..c];
    }
    forall w | w in ws
      ensures w in Factors(ws)
    {
      assert w == w[0..|w|];
    }
  }

  /** The sink words queued by the sink loop lie among the factors of the
      sink words. */
  lemma SinkQueueWithin(g: Graph, src: Sources, sinks: Sinks)
    requires Fits(Build(g, [], map[], map[]), src) && SinksFit(g, sinks)
    ensures Within(SupplySinks(Build(g, [], map[], map[]), src, sinks).pending, Factors(SinkWords(sinks)))
  {
    var b0 := Build(g, [], map[], map[]);
    FactorsClosed(SinkWords(sinks));
    hide SupplySinks, SupplyOne, Fits, SinksFit, Factors, SplitClosed;
    SupplySinksQueues(b0, src, sinks);
    var ps := SupplySinks(b0, src, sinks).pending;
    forall k | 0 <= k < |ps|
      ensures ps[k].word in Factors(SinkWords(sinks))
    {
      assert ps[k].word == sinks[k].0;
      assert sinks[k].0 in SinkWords(sinks);
    }
  }

  /** form_bio_inspired_assembly on the arena `generate` builds: the sink loop,
      recording each sink word's Inventory, then the `while` loop. It never
      fails. */
  function FormBio(g: Graph, src: Sources, sinks: Sinks): (r: Graph)
    requires SourcesFit(g, src) && SinksFit(g, sinks)
    ensures Grows(g, r)
  {
    var b0 := Build(g, [], map[], map[]);
    var b1 := SupplySinks(b0, src, sinks);
    ghost var univ := Factors(SinkWords(sinks));
    FactorsClosed(SinkWords(sinks));
    SinkQueueWithin(g, src, sinks);
    var b2 := Loop(b1, src, true, univ);
    GrowsTransitive(g, b1.g, b2.g);
    b2.g
  }

  // ---------------------------------------------------------------------
  // Every edge passes the node_types.py rules

  lemma HangKeepsWired(b: Build, src: Sources, share: bool, inv: nat, l: Word, r: Word)
    requires Fits(b, src) && IsInventoryAt(b.g, inv, l + r)
    ensures Wired(b.g) ==> Wired(Hang(b, src, share, inv, l, r).0.g)
  {
    MachineShapes(l, r);
    if share && (l, r) in b.machines {
      JoinKeepsWired(b, src, b.machines[(l, r)], inv);
    } else {
      var (g1, m) := AddNode(b.g, MachineOf(l, r));
      AppendKeepsWired(b.g, Fresh(MachineOf(l, r)));
      FitsGrow(b, g1, src);
      JoinKeepsWired(b.(g := g1, machines := b.machines[(l, r) := m]), src, m, inv);
    }
  }

  lemma AttachKeepsWired(b: Build, src: Sources, m: nat, x: Word)
    requires Fits(b, src) && m < |b.g| && b.g[m].shape.MachineOf?
    requires x == b.g[m].shape.left || x == b.g[m].shape.right
    ensures Wired(b.g) ==> Wired(Attach(b, src, m, x).g)
  {
    MachineShapes(b.g[m].shape.left, b.g[m].shape.right);
    if x in b.invs {
      JoinKeepsWired(b, src, b.invs[x], m);
    } else {
      var (g1, k) := AddNode(b.g, InventoryOf(x));
      AppendKeepsWired(b.g, Fresh(InventoryOf(x)));
      var b1 := Build(g1, b.pending + [Pending(k, x)], b.invs[x := k], b.machines);
      FitsGrow(b, g1, src);
      FitsQueue(b.(g := g1), src, Pending(k, x));
      FitsRecord(b.(g := g1, pending := b.pending + [Pending(k, x)]), src, x, k);
      JoinKeepsWired(b1, src, k, m);
    }
  }

  lemma JunctionKeepsWired(b: Build, src: Sources, share: bool, inv: nat, w: Word, i: nat)
    requires Fits(b, src) && IsInventoryAt(b.g, inv, w) && 1 <= i < |w|
    ensures Wired(b.g) ==> Wired(Junction(b, src, share, inv, w, i).g)
  {
    var (l, rt) := Cut(w, i);
    var (b1, m) := Hang(b, src, share, inv, l, rt);
    var b2 := Attach(b1, src, m, l);
    hide Hang, Attach, Cut;
    HangKeepsWired(b, src, share, inv, l, rt);
    AttachKeepsWired(b1, src, m, l);
    AttachKeepsWired(b2, src, m, rt);
  }

  lemma {:induction false} JunctionsKeepsWired(b: Build, src: Sources, share: bool, inv: nat, w: Word, i: nat)
    requires Fits(b, src) && IsInventoryAt(b.g, inv, w) && 1 <= i
    ensures Wired(b.g) ==> Wired(Junctions(b, src, share, inv, w, i).g)
    decreases |w| - i
  {
    hide *;
    JunctionsDone(b, src, share, inv, w, i);
    if i < |w| {
      var b1 := Junction(b, src, share, inv, w, i);
      JunctionKeepsWired(b, src, share, inv, w, i);
      JunctionsUnfold(b, src, share, inv, w, i);
      InventoryStays(b.g, b1.g, inv, w);
      JunctionsKeepsWired(b1, src, share, inv, w, i + 1);
    }
  }

  lemma StepKeepsWired(b: Build, src: Sources, share: bool, p: Pending)
    requires Fits(b, src) && IsInventoryAt(b.g, p.inv, p.word)
    ensures Wired(b.g) ==> Wired(Step(b, src, share, p).g)
  {
    if p.word in src {
      FeedFacts(b, src, p);
    } else {
      JunctionsKeepsWired(b, src, share, p.inv, p.word, 1);
    }
  }

  /** The `while` loop with its first pop made explicit. */
  lemma LoopPop(b: Build, src: Sources, share: bool, univ: set<Word>) returns (p: Pending, b1: Build)
    requires Fits(b, src) && Within(b.pending, univ) && SplitClosed(univ) && b.pending != []
    ensures b1 == b.(pending := b.pending[..|b.pending| - 1]) && p == b.pending[|b.pending| - 1]
    ensures Fits(b1, src) && IsInventoryAt(b1.g, p.inv, p.word) && Within(b1.pending + [p], univ)
    ensures var r := Step(b1, src, share, p);
      && Fits(r, src) && Within(r.pending, univ)
      && Loop(b, src, share, univ) == Loop(r, src, share, univ)
  {
    p := b.pending[|b.pending| - 1];
    b1 := b.(pending := b.pending[..|b.pending| - 1]);
    assert b1.pending + [p] == b.pending;
    FitsPop(b, src);
    StepShrinks(b1, src, share, p, univ);
  }

  lemma LoopDone(b: Build, src: Sources, share: bool, univ: set<Word>)
    requires Fits(b, src) && Within(b.pending, univ) && SplitClosed(univ)
    ensures b.pending == [] ==> Loop(b, src, share, univ) == b
  {
  }

  lemma {:induction false} LoopKeepsWired(b: Build, src: Sources, share: bool, univ: set<Word>)
    requires Fits(b, src) && Within(b.pending, univ) && SplitClosed(univ)
    ensures Wired(b.g) ==> Wired(Loop(b, src, share, univ).g)
    decreases |univ - b.invs.Keys|, |b.pending|
  {
    hide *;
    LoopDone(b, src, share, univ);
    if b.pending != [] {
      var p, b1 := LoopPop(b, src, share, univ);
      StepKeepsWired(b1, src, share, p);
      StepShrinks(b1, src, share, p, univ);
      LoopKeepsWired(Step(b1, src, share, p), src, share, univ);
    }
  }

  /** The generator as its two loops. */
  lemma BioUnfold(g: Graph, src: Sources, sinks: Sinks) returns (b1: Build)
    requires SourcesFit(g, src) && SinksFit(g, sinks)
    ensures Fits(Build(g, [], map[], map[]), src)
    ensures b1 == SupplySinks(Build(g, [], map[], map[]), src, sinks) && Fits(b1, src)
    ensures Within(b1.pending, Factors(SinkWords(sinks))) && SplitClosed(Factors(SinkWords(sinks)))
    ensures FormBio(g, src, sinks) == Loop(b1, src, true, Factors(SinkWords(sinks))).g
  {
    b1 := SupplySinks(Build(g, [], map[], map[]), src, sinks);
    FactorsClosed(SinkWords(sinks));
    SinkQueueWithin(g, src, sinks);
  }

  /** Every edge the bio-inspired generator forms passes the node_types.py
      rules. */
  lemma BioWired(g: Graph, src: Sources, sinks: Sinks)
    requires Setting(g, src, sinks)
    ensures Wired(FormBio(g, src, sinks))
  {
    SettingFacts(g, src, sinks);
    var b1 := BioUnfold(g, src, sinks);
    SettingSettled(g, src, sinks);
    hide *;
    SupplySinksKeepsWired(Build(g, [], map[], map[]), src, sinks);
    LoopKeepsWired(b1, src, true, Factors(SinkWords(sinks)));
  }

  // ---------------------------------------------------------------------
  // One Inventory per word

  /** Every Inventory from index `lo` on is the one the cache holds for its
      word. */
  ghost predicate Stocked(b: Build, lo: nat) {
    forall i | lo <= i < |b.g| && b.g[i].shape.InventoryOf? ::
      b.g[i].shape.w in b.invs && b.invs[b.g[i].shape.w] == i
  }

  /** A state that keeps the arena's shapes and the Inventory cache keeps
      the cache exhaustive. */
  lemma StockedSame(b: Build, b': Build, lo: nat)
    requires Stocked(b, lo) && Extends(b.g, b'.g) && |b'.g| == |b.g| && b'.invs == b.invs
    ensures Stocked(b', lo)
  {
    forall i | lo <= i < |b'.g| && b'.g[i].shape.InventoryOf?
      ensures b'.g[i].shape.w in b'.invs && b'.invs[b'.g[i].shape.w] == i
    {
      assert b'.g[i].shape == b.g[i].shape;
    }
  }

  lemma StockedPending(b: Build, ps: seq<Pending>, lo: nat)
    requires Stocked(b, lo)
    ensures Stocked(b.(pending := ps), lo)
  {
  }

  /** Adding a node other than an Inventory keeps the cache exhaustive. */
  lemma StockedAddMachine(b: Build, b': Build, lo: nat)
    requires Stocked(b, lo) && Extends(b.g, b'.g) && |b'.g| == |b.g| + 1 && b'.invs == b.invs
    requires b'.g[|b.g|].shape.MachineOf?
    ensures Stocked(b', lo)
  {
    forall i | lo <= i < |b'.g| && b'.g[i].shape.InventoryOf?
      ensures b'.g[i].shape.w in b'.invs && b'.invs[b'.g[i].shape.w] == i
    {
      assert i < |b.g| && b'.g[i].shape == b.g[i].shape;
    }
  }

  /** Adding an Inventory of a word without one, and caching it, keeps the
      cache exhaustive. */
  lemma StockedAddInventory(b: Build, b': Build, x: Word, lo: nat)
    requires Stocked(b, lo) && Extends(b.g, b'.g) && |b'.g| == |b.g| + 1
    requires b'.g[|b.g|].shape == InventoryOf(x) && x !in b.invs && b'.invs == b.invs[x := |b.g|]
    ensures Stocked(b', lo)
  {
    forall i | lo <= i < |b'.g| && b'.g[i].shape.InventoryOf?
      ensures b'.g[i].shape.w in b'.invs && b'.invs[b'.g[i].shape.w] == i
    {
      if i < |b.g| {
        assert b'.g[i].shape == b.g[i].shape;
      }
    }
  }

  lemma HangStocked(b: Build, src: Sources, share: bool, inv: nat, l: Word, r: Word, lo: nat)
    requires Fits(b, src) && IsInventoryAt(b.g, inv, l + r) && Stocked(b, lo)
    ensures Stocked(Hang(b, src, share, inv, l, r).0, lo)
  {
    MachineShapes(l, r);
    if share && (l, r) in b.machines {
      StockedSame(b, Join(b, src, b.machines[(l, r)], inv), lo);
    } else {
      var (g1, m) := AddNode(b.g, MachineOf(l, r));
      FitsGrow(b, g1, src);
      var b1 := b.(g := g1, machines := b.machines[(l, r) := m]);
      StockedAddMachine(b, b1, lo);
      StockedSame(b1, Join(b1, src, m, inv), lo);
    }
  }

  lemma AttachStocked(b: Build, src: Sources, m: nat, x: Word, lo: nat)
    requires Fits(b, src) && m < |b.g| && b.g[m].shape.MachineOf? && Stocked(b, lo)
    requires x == b.g[m].shape.left || x == b.g[m].shape.right
    ensures Stocked(Attach(b, src, m, x), lo)
  {
    MachineShapes(b.g[m].shape.left, b.g[m].shape.right);
    if x in b.invs {
      StockedSame(b, Join(b, src, b.invs[x], m), lo);
    } else {
      var (g1, k) := AddNode(b.g, InventoryOf(x));
      var b1 := Build(g1, b.pending + [Pending(k, x)], b.invs[x := k], b.machines);
      FitsGrow(b, g1, src);
      FitsQueue(b.(g := g1), src, Pending(k, x));
      FitsRecord(b.(g := g1, pending := b.pending + [Pending(k, x)]), src, x, k);
      StockedAddInventory(b, b1, x, lo);
      StockedSame(b1, Join(b1, src, k, m), lo);
    }
  }

  lemma JunctionStocked(b: Build, src: Sources, share: bool, inv: nat, w: Word, i: nat, lo: nat)
    requires Fits(b, src) && IsInventoryAt(b.g, inv, w) && 1 <= i < |w| && Stocked(b, lo)
    ensures Stocked(Junction(b, src, share, inv, w, i), lo)
  {
    var (l, rt) := Cut(w, i);
    var (b1, m) := Hang(b, src, share, inv, l, rt);
    var b2 := Attach(b1, src, m, l);
    hide Hang, Attach, Cut, Fits, Stocked;
    HangStocked(b, src, share, inv, l, rt, lo);
    AttachStocked(b1, src, m, l, lo);
    AttachStocked(b2, src, m, rt, lo);
  }

  lemma {:induction false} JunctionsStocked(b: Build, src: Sources, share: bool, inv: nat, w: Word, i: nat, lo: nat)
    requires Fits(b, src) && IsInventoryAt(b.g, inv, w) && 1 <= i && Stocked(b, lo)
    ensures Stocked(Junctions(b, src, share, inv, w, i), lo)
    decreases |w| - i
  {
    hide *;
    JunctionsDone(b, src, share, inv, w, i);
    if i < |w| {
      var b1 := Junction(b, src, share, inv, w, i);
      JunctionStocked(b, src, share, inv, w, i, lo);
      JunctionsUnfold(b, src, share, inv, w, i);
      InventoryStays(b.g, b1.g, inv, w);
      JunctionsStocked(b1, src, share, inv, w, i + 1, lo);
    }
  }

  lemma StepStocked(b: Build, src: Sources, share: bool, p: Pending, lo: nat)
    requires Fits(b, src) && IsInventoryAt(b.g, p.inv, p.word) && Stocked(b, lo)
    ensures Stocked(Step(b, src, share, p), lo)
  {
    if p.word in src {
      FeedFacts(b, src, p);
      StockedSame(b, Feed(b, src, p), lo);
    } else {
      JunctionsStocked(b, src, share, p.inv, p.word, 1, lo);
    }
  }

  lemma {:induction false} LoopStocked(b: Build, src: Sources, share: bool, univ: set<Word>, lo: nat)
    requires Fits(b, src) && Within(b.pending, univ) && SplitClosed(univ) && Stocked(b, lo)
    ensures Stocked(Loop(b, src, share, univ), lo)
    decreases |univ - b.invs.Keys|, |b.pending|
  {
    hide *;
    LoopDone(b, src, share, univ);
    if b.pending != [] {
      var p, b1 := LoopPop(b, src, share, univ);
      StockedPending(b, b1.pending, lo);
      StepStocked(b1, src, share, p, lo);
      StepShrinks(b1, src, share, p, univ);
      LoopStocked(Step(b1, src, share, p), src, share, univ, lo);
    }
  }

  /** The sink words are pairwise distinct and none is in `keys`. */
  ghost predicate NewWords(sinks: Sinks, keys: set<Word>) {
    && (forall j, j' | 0 <= j < j' < |sinks| :: sinks[j].0 != sinks[j'].0)
    && (forall j | 0 <= j < |sinks| :: sinks[j].0 !in keys)
  }

  lemma NewWordsInit(sinks: Sinks, keys: set<Word>)
    requires sinks != [] && NewWords(sinks, keys)
    ensures NewWords(sinks[..|sinks| - 1], keys)
    ensures forall j | 0 <= j < |sinks| - 1 :: sinks[j].0 != sinks[|sinks| - 1].0
    ensures sinks[|sinks| - 1].0 !in keys
  {
    assert forall j | 0 <= j < |sinks| - 1 :: sinks[..|sinks| - 1][j] == sinks[j];
  }

  /** The sink loop, over distinct words none of which has an Inventory yet,
      keeps the cache exhaustive. */
  lemma {:induction false} SupplySinksStocked(b: Build, src: Sources, sinks: Sinks, lo: nat)
    requires Fits(b, src) && SinksFit(b.g, sinks) && b.pending == [] && Stocked(b, lo)
    requires NewWords(sinks, b.invs.Keys)
    ensures Stocked(SupplySinks(b, src, sinks), lo)
    decreases |sinks|
  {
    SupplySinksNone(b, src, sinks);
    if sinks != [] {
      var n := |sinks| - 1;
      var b1 := SupplySinksUnfold(b, src, sinks);
      hide *;
      NewWordsInit(sinks, b.invs.Keys);
      SupplySinksStocked(b, src, sinks[..n], lo);
      SupplySinksRecords(b, src, sinks[..n]);
      StockedSnoc(b1, src, sinks, b.invs.Keys, lo);
    }
  }

  lemma StockedSnoc(b: Build, src: Sources, sinks: Sinks, keys: set<Word>, lo: nat)
    requires sinks != [] && b.invs.Keys == keys + SinkWords(sinks[..|sinks| - 1]) && Stocked(b, lo)
    requires Fits(b, src) && IsSinkAt(b.g, sinks[|sinks| - 1].1, sinks[|sinks| - 1].0)
    requires forall j | 0 <= j < |sinks| - 1 :: sinks[j].0 != sinks[|sinks| - 1].0
    requires sinks[|sinks| - 1].0 !in keys
    ensures Stocked(SupplyOne(b, src, sinks[|sinks| - 1].0, sinks[|sinks| - 1].1), lo)
  {
    var n := |sinks| - 1;
    var (w, s) := sinks[n];
    StockedAddInventory(b, SupplyOne(b, src, w, s), w, lo);
  }

  /** With an exhaustive cache, no two Inventories from index `lo` on hold
      the same word. */
  lemma StockedUnique(b: Build, lo: nat)
    requires Stocked(b, lo)
    ensures forall i, j | lo <= i < |b.g| && lo <= j < |b.g| && b.g[i].shape.InventoryOf? && b.g[j].shape == b.g[i].shape :: i == j
  {
  }

  /** The sink loop leaves an exhaustive cache. */
  lemma SinksStocked(g: Graph, src: Sources, sinks: Sinks)
    requires Setting(g, src, sinks)
    ensures Fits(Build(g, [], map[], map[]), src) && SinksFit(g, sinks)
    ensures Stocked(SupplySinks(Build(g, [], map[], map[]), src, sinks), 0)
  {
    var b0 := Build(g, [], map[], map[]);
    assert Stocked(b0, 0);
    assert NewWords(sinks, b0.invs.Keys);
    SettingFacts(g, src, sinks);
    hide *;
    SupplySinksStocked(b0, src, sinks, 0);
  }

  /** In the arena the bio-inspired generator returns, no two Inventories
      hold the same word. */
  lemma BioOneInventoryPerWord(g: Graph, src: Sources, sinks: Sinks)
    requires Setting(g, src, sinks)
    ensures var r := FormBio(g, src, sinks);
      forall i, j | 0 <= i < |r| && 0 <= j < |r| && r[i].shape.InventoryOf? && r[j].shape == r[i].shape :: i == j
  {
    SettingFacts(g, src, sinks);
    var b1 := BioUnfold(g, src, sinks);
    hide *;
    SinksStocked(g, src, sinks);
    LoopStocked(b1, src, true, Factors(SinkWords(sinks)), 0);
    StockedUnique(Loop(b1, src, true, Factors(SinkWords(sinks))), 0);
  }

  // ---------------------------------------------------------------------
  // One Machine per split position

  /** `b'` extends the arena of `b` and keeps every cached Inventory. */
  ghost predicate Keeps(b: Build, b': Build) {
    && Extends(b.g, b'.g)
    && forall x | x in b.invs :: x in b'.invs && b'.invs[x] == b.invs[x]
  }

  lemma KeepsTransitive(b1: Build, b2: Build, b3: Build)
    requires Keeps(b1, b2) && Keeps(b2, b3)
    ensures Keeps(b1, b3)
  {
    ExtendsTransitive(b1.g, b2.g, b3.g);
  }

  /** Split `j` of `w` is served at Inventory `inv`: a Machine of the two
      halves feeds `inv` and is fed by the cached Inventories of both
      halves. */
  ghost predicate Served(b: Build, inv: nat, w: Word, j: nat) {
    && 1 <= j < |w| && inv < |b.g|
    && w[..j] in b.invs && w[j..] in b.invs
    && exists m | 0 <= m < |b.g| ::
         && b.g[m].shape == MachineOf(w[..j], w[j..])
         && m in b.g[inv].inputNodes
         && b.invs[w[..j]] in b.g[m].inputNodes
         && b.invs[w[j..]] in b.g[m].inputNodes
  }

  lemma ServedKeeps(b: Build, b': Build, inv: nat, w: Word, j: nat)
    requires Served(b, inv, w, j) && Keeps(b, b')
    ensures Served(b', inv, w, j)
  {
    var m :| 0 <= m < |b.g| && b.g[m].shape == MachineOf(w[..j], w[j..]) && m in b.g[inv].inputNodes
      && b.invs[w[..j]] in b.g[m].inputNodes && b.invs[w[j..]] in b.g[m].inputNodes;
    PrefixMember(b.g[inv].inputNodes, b'.g[inv].inputNodes, m);
    PrefixMember(b.g[m].inputNodes, b'.g[m].inputNodes, b.invs[w[..j]]);
    PrefixMember(b.g[m].inputNodes, b'.g[m].inputNodes, b.invs[w[j..]]);
    assert b'.g[m].shape == b.g[m].shape;
  }

  lemma HangKeeps(b: Build, src: Sources, share: bool, inv: nat, l: Word, r: Word)
    requires Fits(b, src) && IsInventoryAt(b.g, inv, l + r)
    ensures Keeps(b, Hang(b, src, share, inv, l, r).0)
  {
    HangFacts(b, src, share, inv, l, r);
  }

  lemma AttachKeeps(b: Build, src: Sources, m: nat, x: Word)
    requires Fits(b, src) && m < |b.g| && b.g[m].shape.MachineOf?
    requires x == b.g[m].shape.left || x == b.g[m].shape.right
    ensures Keeps(b, Attach(b, src, m, x))
  {
    AttachFacts(b, src, m, x);
  }

  /** Iteration `i` as its three parts: the Machine `m` is hung below `inv`
      (`b1`), then fed by the left half's Inventory (`b2`), then by the
      right half's. */
  lemma JunctionParts(b: Build, src: Sources, share: bool, inv: nat, w: Word, i: nat) returns (m: nat, b1: Build, b2: Build)
    requires Fits(b, src) && IsInventoryAt(b.g, inv, w) && 1 <= i < |w|
    ensures Fits(b2, src) && m < |b2.g| && b2.g[m].shape == MachineOf(w[..i], w[i..])
    ensures Junction(b, src, share, inv, w, i) == Attach(b2, src, m, w[i..])
    ensures Keeps(b, b1) && Keeps(b1, b2) && inv < |b1.g| && m in b1.g[inv].inputNodes
    ensures w[..i] in b2.invs && b2.invs[w[..i]] < |b2.g| && b2.invs[w[..i]] in b2.g[m].inputNodes
  {
    CutFacts(w, i);
    var (l, rt) := Cut(w, i);
    var h := Hang(b, src, share, inv, l, rt);
    m, b1 := h.1, h.0;
    b2 := Attach(b1, src, m, l);
    HangFacts(b, src, share, inv, l, rt);
    HangKeeps(b, src, share, inv, l, rt);
    AttachFacts(b1, src, m, l);
    AttachKeeps(b1, src, m, l);
  }

  /** After iteration `i`, split `i` is served and nothing cached is lost. */
  lemma JunctionServes(b: Build, src: Sources, share: bool, inv: nat, w: Word, i: nat)
    requires Fits(b, src) && IsInventoryAt(b.g, inv, w) && 1 <= i < |w|
    ensures Keeps(b, Junction(b, src, share, inv, w, i)) && Served(Junction(b, src, share, inv, w, i), inv, w, i)
  {
    var m, b1, b2 := JunctionParts(b, src, share, inv, w, i);
    var b3 := Attach(b2, src, m, w[i..]);
    AttachFacts(b2, src, m, w[i..]);
    AttachKeeps(b2, src, m, w[i..]);
    hide *;
    KeepsTransitive(b, b1, b2);
    KeepsTransitive(b, b2, b3);
    KeepsTransitive(b1, b2, b3);
    PrefixMember(b1.g[inv].inputNodes, b3.g[inv].inputNodes, m);
    PrefixMember(b2.g[m].inputNodes, b3.g[m].inputNodes, b2.invs[w[..i]]);
    ServedAt(b3, inv, w, i, m);
  }

  lemma ServedAt(b: Build, inv: nat, w: Word, j: nat, m: nat)
    requires 1 <= j < |w| && inv < |b.g| && w[..j] in b.invs && w[j..] in b.invs
    requires m < |b.g| && b.g[m].shape == MachineOf(w[..j], w[j..]) && m in b.g[inv].inputNodes
    requires b.invs[w[..j]] in b.g[m].inputNodes && b.invs[w[j..]] in b.g[m].inputNodes
    ensures Served(b, inv, w, j)
  {
  }

  /** After the `for` loop from position `i`, every split from `i` on is
      served. */
  lemma {:induction false} JunctionsServe(b: Build, src: Sources, share: bool, inv: nat, w: Word, i: nat)
    requires Fits(b, src) && IsInventoryAt(b.g, inv, w) && 1 <= i
    ensures Keeps(b, Junctions(b, src, share, inv, w, i))
    ensures forall j | i <= j < |w| :: Served(Junctions(b, src, share, inv, w, i), inv, w, j)
    decreases |w| - i
  {
    hide *;
    JunctionsDone(b, src, share, inv, w, i);
    if i < |w| {
      var b1 := Junction(b, src, share, inv, w, i);
      JunctionServes(b, src, share, inv, w, i);
      JunctionsUnfold(b, src, share, inv, w, i);
      InventoryStays(b.g, b1.g, inv, w);
      JunctionsServe(b1, src, share, inv, w, i + 1);
      var r := Junctions(b1, src, share, inv, w, i + 1);
      KeepsTransitive(b, b1, r);
      forall j | i <= j < |w|
        ensures Served(r, inv, w, j)
      {
        if j == i {
          ServedKeeps(b1, r, inv, w, i);
        }
      }
    } else {
      KeepsSame(b);
    }
  }

  lemma KeepsSame(b: Build)
    ensures Keeps(b, b)
  {
  }

  lemma JunctionsUnfold(b: Build, src: Sources, share: bool, inv: nat, w: Word, i: nat)
    requires Fits(b, src) && IsInventoryAt(b.g, inv, w) && 1 <= i < |w|
    ensures Junctions(b, src, share, inv, w, i) == Junctions(Junction(b, src, share, inv, w, i), src, share, inv, w, i + 1)
  {
  }

  /** The `while` loop's body for the popped entry `p`: a word with a Source
      is fed by it; any other word gets, at each split position, a Machine of
      its two halves feeding `p`'s Inventory, fed in turn by the cached
      Inventories of the halves. */
  lemma StepServes(b: Build, src: Sources, share: bool, p: Pending)
    requires Fits(b, src) && IsInventoryAt(b.g, p.inv, p.word)
    ensures var r := Step(b, src, share, p);
      && Keeps(b, r)
      && (p.word in src ==> src[p.word] in r.g[p.inv].inputNodes)
      && (p.word !in src ==> forall j | 1 <= j < |p.word| :: Served(r, p.inv, p.word, j))
  {
    if p.word in src {
      FeedFacts(b, src, p);
    } else {
      JunctionsServe(b, src, share, p.inv, p.word, 1);
    }
  }

  // ---------------------------------------------------------------------
  // Each Inventory is queued once

  /** An Inventory of a word the exhaustive cache does not hold is newer
      than every node of `b`. */
  lemma StockedNew(b: Build, g': Graph, x: Word, i: nat)
    requires Stocked(b, 0) && Extends(b.g, g') && x !in b.invs && IsInventoryAt(g', i, x)
    ensures |b.g| <= i
  {
  }

  /** A part of an expansion that makes progress on an exhaustive cache
      keeps the worklist it found and queues only nodes it created. */
  lemma ProgressQueuesNew(b: Build, r: Build, src: Sources, univ: set<Word>)
    requires Stocked(b, 0) && Fits(r, src) && Grows(b.g, r.g) && Progress(b, r, univ)
    ensures |b.pending| <= |r.pending| && r.pending[..|b.pending|] == b.pending
    ensures forall k | |b.pending| <= k < |r.pending| :: |b.g| <= r.pending[k].inv < |r.g|
  {
    hide Fits, Stocked;
    forall k | |b.pending| <= k < |r.pending|
      ensures |b.g| <= r.pending[k].inv < |r.g|
    {
      FitsPending(r, src, k);
      StockedNew(b, r.g, r.pending[k].word, r.pending[k].inv);
    }
  }

  /** The `while` loop's body keeps the rest of the worklist and queues only
      Inventories it has just created: an Inventory is queued by the step
      that creates it and never again, so it is expanded at most once. */
  lemma StepQueuesNew(b: Build, src: Sources, share: bool, p: Pending)
    requires Fits(b, src) && IsInventoryAt(b.g, p.inv, p.word) && Stocked(b, 0)
    ensures var r := Step(b, src, share, p);
      && |b.pending| <= |r.pending| && r.pending[..|b.pending|] == b.pending
      && forall k | |b.pending| <= k < |r.pending| :: |b.g| <= r.pending[k].inv < |r.g|
  {
    FactorsClosed({p.word});
    hide *;
    var univ := Factors({p.word});
    StepProgress(b, src, share, p, univ);
    ProgressQueuesNew(b, Step(b, src, share, p), src, univ);
  }

  /** The `while` loop keeps every cached Inventory. */
  lemma {:induction false} LoopKeeps(b: Build, src: Sources, share: bool, univ: set<Word>)
    requires Fits(b, src) && Within(b.pending, univ) && SplitClosed(univ)
    ensures Keeps(b, Loop(b, src, share, univ))
    decreases |univ - b.invs.Keys|, |b.pending|
  {
    hide *;
    LoopDone(b, src, share, univ);
    if b.pending == [] {
      KeepsSame(b);
    } else {
      var p, b1 := LoopPop(b, src, share, univ);
      KeepsPending(b, b1.pending);
      StepServes(b1, src, share, p);
      StepShrinks(b1, src, share, p, univ);
      var b2 := Step(b1, src, share, p);
      LoopKeeps(b2, src, share, univ);
      KeepsTransitive(b, b1, b2);
      KeepsTransitive(b, b2, Loop(b2, src, share, univ));
    }
  }

  lemma KeepsPending(b: Build, ps: seq<Pending>)
    ensures Keeps(b, b.(pending := ps))
  {
  }

  // ---------------------------------------------------------------------
  // Every Inventory is worked on

  /** `b'` keeps the worklist of `b` as its prefix, and every Inventory it
      adds to the arena is on its worklist. */
  ghost predicate QueuesAdded(b: Build, b': Build) {
    && |b.g| <= |b'.g|
    && |b.pending| <= |b'.pending| && b'.pending[..|b.pending|] == b.pending
    && forall i | |b.g| <= i < |b'.g| && b'.g[i].shape.InventoryOf? :: IsPending(b'.pending, i)
  }

  lemma QueuesAddedSame(b: Build)
    ensures QueuesAdded(b, b)
  {
    assert b.pending[..|b.pending|] == b.pending;
  }

  lemma QueuesAddedTransitive(b1: Build, b2: Build, b3: Build)
    requires QueuesAdded(b1, b2) && QueuesAdded(b2, b3) && Grows(b2.g, b3.g)
    ensures QueuesAdded(b1, b3)
  {
    assert b3.pending[..|b1.pending|] == b3.pending[..|b2.pending|][..|b1.pending|];
    forall i | |b1.g| <= i < |b3.g| && b3.g[i].shape.InventoryOf?
      ensures IsPending(b3.pending, i)
    {
      if i < |b2.g| {
        PendingKept(b2.pending, b3.pending, i);
      }
    }
  }

  /** A node off a worklist is off every prefix of it. */
  lemma OffPrefix(rest: seq<Pending>, ps': seq<Pending>, i: nat)
    requires |rest| <= |ps'| && ps'[..|rest|] == rest && !IsPending(ps', i)
    ensures !IsPending(rest, i)
  {
    if IsPending(rest, i) {
      PendingKept(rest, ps', i);
    }
  }

  /** A node off the worklist and other than `q`'s Inventory is off the
      worklist with `q` pushed. */
  lemma OffSnoc(ps: seq<Pending>, q: Pending, i: nat)
    requires !IsPending(ps, i) && q.inv != i
    ensures !IsPending(ps + [q], i)
  {
    if IsPending(ps + [q], i) {
      PendingSplit(ps, [q], i);
    }
  }

  lemma HangQueued(b: Build, src: Sources, share: bool, inv: nat, l: Word, r: Word)
    requires Fits(b, src) && IsInventoryAt(b.g, inv, l + r)
    ensures QueuesAdded(b, Hang(b, src, share, inv, l, r).0)
  {
    HangFacts(b, src, share, inv, l, r);
    assert b.pending[..|b.pending|] == b.pending;
  }

  lemma AttachQueued(b: Build, src: Sources, m: nat, x: Word)
    requires Fits(b, src) && m < |b.g| && b.g[m].shape.MachineOf?
    requires x == b.g[m].shape.left || x == b.g[m].shape.right
    ensures QueuesAdded(b, Attach(b, src, m, x))
  {
    AttachFacts(b, src, m, x);
    var r := Attach(b, src, m, x);
    assert r.pending[..|b.pending|] == b.pending;
    if x !in b.invs {
      PendingLast(b.pending, Pending(|b.g|, x));
    }
  }

  lemma JunctionQueued(b: Build, src: Sources, share: bool, inv: nat, w: Word, i: nat)
    requires Fits(b, src) && IsInventoryAt(b.g, inv, w) && 1 <= i < |w|
    ensures QueuesAdded(b, Junction(b, src, share, inv, w, i))
  {
    CutFacts(w, i);
    var (l, rt) := Cut(w, i);
    var h := Hang(b, src, share, inv, l, rt);
    HangQueued(b, src, share, inv, l, rt);
    var b2 := Attach(h.0, src, h.1, l);
    AttachQueued(h.0, src, h.1, l);
    var b3 := Attach(b2, src, h.1, rt);
    AttachQueued(b2, src, h.1, rt);
    assert Junction(b, src, share, inv, w, i) == b3;
    hide *;
    QueuesAddedTransitive(b, h.0, b2);
    QueuesAddedTransitive(b, b2, b3);
  }

  lemma {:induction false} JunctionsQueued(b: Build, src: Sources, share: bool, inv: nat, w: Word, i: nat)
    requires Fits(b, src) && IsInventoryAt(b.g, inv, w) && 1 <= i
    ensures QueuesAdded(b, Junctions(b, src, share, inv, w, i))
    decreases |w| - i
  {
    hide *;
    JunctionsDone(b, src, share, inv, w, i);
    if i < |w| {
      var b1 := Junction(b, src, share, inv, w, i);
      JunctionQueued(b, src, share, inv, w, i);
      JunctionsUnfold(b, src, share, inv, w, i);
      InventoryStays(b.g, b1.g, inv, w);
      JunctionsQueued(b1, src, share, inv, w, i + 1);
      QueuesAddedTransitive(b, b1, Junctions(b1, src, share, inv, w, i + 1));
    } else {
      QueuesAddedSame(b);
    }
  }

  /** The `while` loop's body keeps the rest of the worklist and queues
      every Inventory it creates. */
  lemma StepQueued(b: Build, src: Sources, share: bool, p: Pending)
    requires Fits(b, src) && IsInventoryAt(b.g, p.inv, p.word)
    ensures QueuesAdded(b, Step(b, src, share, p))
  {
    if p.word in src {
      FeedFacts(b, src, p);
      assert b.pending[..|b.pending|] == b.pending;
    } else {
      JunctionsQueued(b, src, share, p.inv, p.word, 1);
    }
  }

  /** The Inventory at `i` has been worked on: fed by its word's Source, or,
      for a word without one, served at every split position. */
  ghost predicate Worked(b: Build, src: Sources, i: nat) {
    && i < |b.g| && b.g[i].shape.InventoryOf?
    && (b.g[i].shape.w in src ==> src[b.g[i].shape.w] in b.g[i].inputNodes)
    && (b.g[i].shape.w !in src ==> forall j | 1 <= j < |b.g[i].shape.w| :: Served(b, i, b.g[i].shape.w, j))
  }

  /** Every Inventory off the worklist, among those in `keep` or at `lo` and
      after, has been worked on. With `keep` empty and `lo` zero that is
      every Inventory of the arena. */
  ghost predicate AllWorked(b: Build, src: Sources, keep: set<nat>, lo: nat) {
    forall i | 0 <= i < |b.g| && b.g[i].shape.InventoryOf? && !IsPending(b.pending, i) && (i in keep || lo <= i) ::
      Worked(b, src, i)
  }

  lemma WorkedKeeps(b: Build, b': Build, src: Sources, i: nat)
    requires Worked(b, src, i) && Keeps(b, b')
    ensures Worked(b', src, i)
  {
    var w := b.g[i].shape.w;
    if w in src {
      PrefixMember(b.g[i].inputNodes, b'.g[i].inputNodes, src[w]);
    } else {
      forall j | 1 <= j < |w|
        ensures Served(b', i, w, j)
      {
        ServedKeeps(b, b', i, w, j);
      }
    }
  }

  /** One turn of the `while` loop, popping `p` from `b` and stepping on the
      rest `b1`, keeps every Inventory off the worklist worked on: the
      popped one is worked on by the step, and the new ones are queued. */
  lemma StepWorked(b: Build, b1: Build, src: Sources, share: bool, p: Pending, keep: set<nat>, lo: nat)
    requires Fits(b1, src) && IsInventoryAt(b1.g, p.inv, p.word)
    requires b1 == b.(pending := b1.pending) && b.pending == b1.pending + [p] && AllWorked(b, src, keep, lo)
    ensures AllWorked(Step(b1, src, share, p), src, keep, lo)
  {
    var r := Step(b1, src, share, p);
    StepServes(b1, src, share, p);
    StepQueued(b1, src, share, p);
    KeepsPending(b, b1.pending);
    KeepsTransitive(b, b1, r);
    forall i | 0 <= i < |r.g| && r.g[i].shape.InventoryOf? && !IsPending(r.pending, i) && (i in keep || lo <= i)
      ensures Worked(r, src, i)
    {
      assert i < |b1.g|;
      OffPrefix(b1.pending, r.pending, i);
      if i != p.inv {
        OffSnoc(b1.pending, p, i);
        WorkedKeeps(b, r, src, i);
      }
    }
  }

  /** The `while` loop keeps every Inventory off the worklist worked on,
      among those in `keep` or at `lo` and after. */
  lemma {:induction false} LoopWorked(b: Build, src: Sources, share: bool, univ: set<Word>, keep: set<nat>, lo: nat)
    requires Fits(b, src) && Within(b.pending, univ) && SplitClosed(univ) && AllWorked(b, src, keep, lo)
    ensures AllWorked(Loop(b, src, share, univ), src, keep, lo)
    decreases |univ - b.invs.Keys|, |b.pending|
  {
    hide *;
    LoopDone(b, src, share, univ);
    if b.pending != [] {
      var p, b1 := LoopPop(b, src, share, univ);
      StepWorked(b, b1, src, share, p, keep, lo);
      StepShrinks(b1, src, share, p, univ);
      LoopWorked(Step(b1, src, share, p), src, share, univ, keep, lo);
    }
  }

  lemma {:induction false} SupplySinksQueued(b: Build, src: Sources, sinks: Sinks)
    requires Fits(b, src) && SinksFit(b.g, sinks) && b.pending == []
    ensures QueuesAdded(b, SupplySinks(b, src, sinks))
    decreases |sinks|
  {
    if sinks == [] {
      QueuesAddedSame(b);
    } else {
      var b1 := SupplySinksUnfold(b, src, sinks);
      SupplySinksQueued(b, src, sinks[..|sinks| - 1]);
      var r := SupplyOne(b1, src, sinks[|sinks| - 1].0, sinks[|sinks| - 1].1);
      PendingLast(b1.pending, Pending(|b1.g|, sinks[|sinks| - 1].0));
      assert r.pending[..|b1.pending|] == b1.pending;
      assert QueuesAdded(b1, r);
      QueuesAddedTransitive(b, b1, r);
    }
  }

  /** Split `j` of `w`, served at `inv`, is produced into `inv` in the
      arena. */
  lemma ServedFeeds(b: Build, src: Sources, inv: nat, w: Word, j: nat)
    requires Fits(b, src) && IsInventoryAt(b.g, inv, w) && Served(b, inv, w, j)
    ensures SplitFeeds(b.g, inv, w, j)
  {
    var m :| 0 <= m < |b.g| && b.g[m].shape == MachineOf(w[..j], w[j..]) && m in b.g[inv].inputNodes
      && b.invs[w[..j]] in b.g[m].inputNodes && b.invs[w[j..]] in b.g[m].inputNodes;
    assert w[..j] + w[j..] == w;
    assert Combines(b.g, m, w[..j], w[j..], b.invs[w[..j]], b.invs[w[j..]], inv);
  }

  /** The run of the bio-inspired generator ends with every Inventory
      worked on. */
  lemma BioWorked(g: Graph, src: Sources, sinks: Sinks) returns (r: Build)
    requires Setting(g, src, sinks)
    ensures FormBio(g, src, sinks) == r.g && Fits(r, src) && r.pending == [] && AllWorked(r, src, {}, 0)
  {
    hide *;
    SettingFacts(g, src, sinks);
    var b1 := BioUnfold(g, src, sinks);
    SuppliedWorked(g, src, sinks);
    var univ := Factors(SinkWords(sinks));
    LoopWorked(b1, src, true, univ, {}, 0);
    r := Loop(b1, src, true, univ);
  }

  /** After the sink loop every Inventory is on the worklist, so every one
      off it has been worked on. */
  lemma SuppliedWorked(g: Graph, src: Sources, sinks: Sinks)
    requires Setting(g, src, sinks)
    ensures AllWorked(SupplySinks(Build(g, [], map[], map[]), src, sinks), src, {}, 0)
  {
    SettingFacts(g, src, sinks);
    var b0 := Build(g, [], map[], map[]);
    SupplySinksQueued(b0, src, sinks);
    var b1 := SupplySinks(b0, src, sinks);
    assert forall i | 0 <= i < |b1.g| && b1.g[i].shape.InventoryOf? :: IsPending(b1.pending, i);
  }

  /** The bio-inspired generator leaves no Inventory unexpanded: each one
      of a word with a Source is fed by that Source, and each one of any
      other word is produced, at every split position, by a Machine of the
      two halves fed by the Inventories of both. */
  lemma BioServes(g: Graph, src: Sources, sinks: Sinks)
    requires Setting(g, src, sinks)
    ensures var g' := FormBio(g, src, sinks);
      forall i | 0 <= i < |g'| && g'[i].shape.InventoryOf? ::
        && (g'[i].shape.w in src ==> src[g'[i].shape.w] in g'[i].inputNodes)
        && (g'[i].shape.w !in src ==> forall j | 1 <= j < |g'[i].shape.w| :: SplitFeeds(g', i, g'[i].shape.w, j))
  {
    var r := BioWorked(g, src, sinks);
    hide Fits, FormBio, Setting, Served, SplitFeeds;
    forall i | 0 <= i < |r.g| && r.g[i].shape.InventoryOf?
      ensures r.g[i].shape.w in src ==> src[r.g[i].shape.w] in r.g[i].inputNodes
      ensures r.g[i].shape.w !in src ==> forall j | 1 <= j < |r.g[i].shape.w| :: SplitFeeds(r.g, i, r.g[i].shape.w, j)
    {
      assert Worked(r, src, i);
      var w := r.g[i].shape.w;
      forall j | 1 <= j < |w| && w !in src
        ensures SplitFeeds(r.g, i, w, j)
      {
        ServedFeeds(r, src, i, w, j);
      }
    }
  }

  // ---------------------------------------------------------------------
  // What a run leaves alone

  /** Node `i` belongs to a run that started on an arena of `lo` nodes and
      was handed the nodes `keep`. */
  predicate Mine(i: nat, lo: nat, keep: set<nat>) {
    lo <= i || i in keep
  }

  /** Every index the state holds belongs to the run. */
  ghost predicate Owned(b: Build, lo: nat, keep: set<nat>) {
    && (forall w | w in b.invs :: Mine(b.invs[w], lo, keep))
    && (forall k | 0 <= k < |b.pending| :: Mine(b.pending[k].inv, lo, keep))
    && (forall q | q in b.machines :: Mine(b.machines[q], lo, keep))
  }

  /** `g` extends `g0` and every node of `g0` that is neither a Source nor
      in `keep` is exactly as it was. */
  ghost predicate Framed(g0: Graph, g: Graph, keep: set<nat>) {
    && Extends(g0, g)
    && forall i | 0 <= i < |g0| && i !in keep && !g0[i].shape.SourceOf? :: g[i] == g0[i]
  }

  lemma FramedGrows(g0: Graph, g: Graph, g': Graph, keep: set<nat>)
    requires Framed(g0, g, keep) && Extends(g, g')
    requires forall i | 0 <= i < |g| :: g'[i] == g[i]
    ensures Framed(g0, g', keep)
  {
    ExtendsTransitive(g0, g, g');
  }

  /** `form_edge(a, c)` between nodes of the run, or from a Source, leaves
      the rest of the old arena alone. */
  lemma JoinFramed(b: Build, src: Sources, a: nat, c: nat, g0: Graph, keep: set<nat>)
    requires Fits(b, src) && a < |b.g| && c < |b.g| && Admissible(b.g[a].shape, b.g[c].shape)
    requires Framed(g0, b.g, keep)
    requires Mine(a, |g0|, keep) || b.g[a].shape.SourceOf?
    requires Mine(c, |g0|, keep)
    ensures Framed(g0, Join(b, src, a, c).g, keep)
  {
    var g' := Join(b, src, a, c).g;
    ExtendsTransitive(g0, b.g, g');
    forall i | 0 <= i < |g0| && i !in keep && !g0[i].shape.SourceOf?
      ensures g'[i] == g0[i]
    {
      assert b.g[i].shape == g0[i].shape;
    }
  }

  lemma AddFramed(g0: Graph, g: Graph, s: Shape, keep: set<nat>)
    requires Framed(g0, g, keep)
    ensures Framed(g0, AddNode(g, s).0, keep)
  {
    var g' := AddNode(g, s).0;
    FramedGrows(g0, g, g', keep);
  }

  lemma FramedLength(g0: Graph, g: Graph, keep: set<nat>)
    requires Framed(g0, g, keep)
    ensures |g0| <= |g|
  {
  }

  lemma OwnedSame(b: Build, b': Build, lo: nat, keep: set<nat>)
    requires Owned(b, lo, keep)
    requires b'.pending == b.pending && b'.invs == b.invs && b'.machines == b.machines
    ensures Owned(b', lo, keep)
  {
  }

  lemma OwnedMachineAt(b: Build, q: (Word, Word), lo: nat, keep: set<nat>)
    requires Owned(b, lo, keep) && q in b.machines
    ensures Mine(b.machines[q], lo, keep)
  {
  }

  lemma OwnedInventoryAt(b: Build, x: Word, lo: nat, keep: set<nat>)
    requires Owned(b, lo, keep) && x in b.invs
    ensures Mine(b.invs[x], lo, keep)
  {
  }

  lemma OwnedMachine(b: Build, g': Graph, q: (Word, Word), m: nat, lo: nat, keep: set<nat>)
    requires Owned(b, lo, keep) && Mine(m, lo, keep)
    ensures Owned(b.(g := g', machines := b.machines[q := m]), lo, keep)
  {
  }

  lemma OwnedInventory(b: Build, g': Graph, x: Word, k: nat, lo: nat, keep: set<nat>)
    requires Owned(b, lo, keep) && Mine(k, lo, keep)
    ensures Owned(Build(g', b.pending + [Pending(k, x)], b.invs[x := k], b.machines), lo, keep)
  {
  }

  lemma HangFramed(b: Build, src: Sources, share: bool, inv: nat, l: Word, r: Word, g0: Graph, keep: set<nat>)
    requires Fits(b, src) && IsInventoryAt(b.g, inv, l + r)
    requires Framed(g0, b.g, keep) && Owned(b, |g0|, keep) && Mine(inv, |g0|, keep)
    ensures var res := Hang(b, src, share, inv, l, r);
      Framed(g0, res.0.g, keep) && Owned(res.0, |g0|, keep) && Mine(res.1, |g0|, keep)
  {
    hide Framed, Owned;
    MachineShapes(l, r);
    if share && (l, r) in b.machines {
      var m := b.machines[(l, r)];
      OwnedMachineAt(b, (l, r), |g0|, keep);
      JoinFramed(b, src, m, inv, g0, keep);
      OwnedSame(b, Join(b, src, m, inv), |g0|, keep);
    } else {
      var (g1, m) := AddNode(b.g, MachineOf(l, r));
      FramedLength(g0, b.g, keep);
      AddFramed(g0, b.g, MachineOf(l, r), keep);
      FitsGrow(b, g1, src);
      var b1 := b.(g := g1, machines := b.machines[(l, r) := m]);
      OwnedMachine(b, g1, (l, r), m, |g0|, keep);
      JoinFramed(b1, src, m, inv, g0, keep);
      OwnedSame(b1, Join(b1, src, m, inv), |g0|, keep);
    }
  }

  lemma AttachFramed(b: Build, src: Sources, m: nat, x: Word, g0: Graph, keep: set<nat>)
    requires Fits(b, src) && m < |b.g| && b.g[m].shape.MachineOf?
    requires x == b.g[m].shape.left || x == b.g[m].shape.right
    requires Framed(g0, b.g, keep) && Owned(b, |g0|, keep) && Mine(m, |g0|, keep)
    ensures var r := Attach(b, src, m, x);
      Framed(g0, r.g, keep) && Owned(r, |g0|, keep)
  {
    hide Framed, Owned;
    MachineShapes(b.g[m].shape.left, b.g[m].shape.right);
    if x in b.invs {
      var k := b.invs[x];
      OwnedInventoryAt(b, x, |g0|, keep);
      JoinFramed(b, src, k, m, g0, keep);
      OwnedSame(b, Join(b, src, k, m), |g0|, keep);
    } else {
      var (g1, k) := AddNode(b.g, InventoryOf(x));
      FramedLength(g0, b.g, keep);
      AddFramed(g0, b.g, InventoryOf(x), keep);
      var b1 := Build(g1, b.pending + [Pending(k, x)], b.invs[x := k], b.machines);
      FitsGrow(b, g1, src);
      FitsQueue(b.(g := g1), src, Pending(k, x));
      FitsRecord(b.(g := g1, pending := b.pending + [Pending(k, x)]), src, x, k);
      OwnedInventory(b, g1, x, k, |g0|, keep);
      JoinFramed(b1, src, k, m, g0, keep);
      OwnedSame(b1, Join(b1, src, k, m), |g0|, keep);
    }
  }

  lemma JunctionFramed(b: Build, src: Sources, share: bool, inv: nat, w: Word, i: nat, g0: Graph, keep: set<nat>)
    requires Fits(b, src) && IsInventoryAt(b.g, inv, w) && 1 <= i < |w|
    requires Framed(g0, b.g, keep) && Owned(b, |g0|, keep) && Mine(inv, |g0|, keep)
    ensures var r := Junction(b, src, share, inv, w, i);
      Framed(g0, r.g, keep) && Owned(r, |g0|, keep)
  {
    var (l, rt) := Cut(w, i);
    var (b1, m) := Hang(b, src, share, inv, l, rt);
    var b2 := Attach(b1, src, m, l);
    hide Hang, Attach, Cut, Fits, Framed, Owned;
    HangFramed(b, src, share, inv, l, rt, g0, keep);
    AttachFramed(b1, src, m, l, g0, keep);
    AttachFramed(b2, src, m, rt, g0, keep);
  }

  lemma {:induction false} JunctionsFramed(b: Build, src: Sources, share: bool, inv: nat, w: Word, i: nat,
                                           g0: Graph, keep: set<nat>)
    requires Fits(b, src) && IsInventoryAt(b.g, inv, w) && 1 <= i
    requires Framed(g0, b.g, keep) && Owned(b, |g0|, keep) && Mine(inv, |g0|, keep)
    ensures var r := Junctions(b, src, share, inv, w, i);
      Framed(g0, r.g, keep) && Owned(r, |g0|, keep)
    decreases |w| - i
  {
    hide *;
    JunctionsDone(b, src, share, inv, w, i);
    if i < |w| {
      var b1 := Junction(b, src, share, inv, w, i);
      JunctionFramed(b, src, share, inv, w, i, g0, keep);
      JunctionsUnfold(b, src, share, inv, w, i);
      InventoryStays(b.g, b1.g, inv, w);
      JunctionsFramed(b1, src, share, inv, w, i + 1, g0, keep);
    }
  }

  lemma StepFramed(b: Build, src: Sources, share: bool, p: Pending, g0: Graph, keep: set<nat>)
    requires Fits(b, src) && IsInventoryAt(b.g, p.inv, p.word)
    requires Framed(g0, b.g, keep) && Owned(b, |g0|, keep) && Mine(p.inv, |g0|, keep)
    ensures var r := Step(b, src, share, p);
      Framed(g0, r.g, keep) && Owned(r, |g0|, keep)
  {
    if p.word in src {
      FeedFacts(b, src, p);
      SupplyShapes(p.word);
      JoinFramed(b, src, src[p.word], p.inv, g0, keep);
      OwnedSame(b, Feed(b, src, p), |g0|, keep);
    } else {
      JunctionsFramed(b, src, share, p.inv, p.word, 1, g0, keep);
    }
  }

  lemma OwnedPop(b: Build, lo: nat, keep: set<nat>)
    requires Owned(b, lo, keep) && b.pending != []
    ensures Owned(b.(pending := b.pending[..|b.pending| - 1]), lo, keep)
    ensures Mine(b.pending[|b.pending| - 1].inv, lo, keep)
  {
  }

  /** A run of the `while` loop changes no node of the arena it started on
      other than Sources and the nodes it was handed. */
  lemma {:induction false} LoopFramed(b: Build, src: Sources, share: bool, univ: set<Word>, g0: Graph, keep: set<nat>)
    requires Fits(b, src) && Within(b.pending, univ) && SplitClosed(univ)
    requires Framed(g0, b.g, keep) && Owned(b, |g0|, keep)
    ensures Framed(g0, Loop(b, src, share, univ).g, keep)
    decreases |univ - b.invs.Keys|, |b.pending|
  {
    hide *;
    LoopDone(b, src, share, univ);
    if b.pending != [] {
      var p, b1 := LoopPop(b, src, share, univ);
      OwnedPop(b, |g0|, keep);
      StepFramed(b1, src, share, p, g0, keep);
      StepShrinks(b1, src, share, p, univ);
      LoopFramed(Step(b1, src, share, p), src, share, univ, g0, keep);
    }
  }
}
