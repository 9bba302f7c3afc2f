/** form_component_assembly (wordmill/algorithms.py): every sink gets its own
    Inventory; a queued word with a Source is fed by it, and any other word is
    split in the middle, both halves getting fresh queued Inventories. */
module Component {
  import opened Outcomes
  import opened Words
  import opened Nodes
  import Legacy
  import opened Construction
  import opened Expansion

  /** The halves of a word split at floor(|w| / 2), with the unchecked split
      of wordmill.py. */
  function Halves(w: Word): (Word, Word) {
    Legacy.SplitWord(w, |w| / 2)
  }

  /** A word of two or more characters splits at a position the checked split
      of node_types.py accepts: both halves are non-empty and shorter than
      the word, and they are spelled with the word's characters. */
  lemma HalvesFacts(w: Word, atoms: set<Word>)
    ensures Halves(w).0 + Halves(w).1 == w && |Halves(w).0| == |w| / 2
    ensures |w| >= 2 ==> 1 <= |Halves(w).0| && 1 <= |Halves(w).1|
    ensures |w| >= 2 ==> Nodes.SplitWord(w, |w| / 2) == Ok(Halves(w))
    ensures AllCharsIn(w, atoms) ==> AllCharsIn(Halves(w).0, atoms) && AllCharsIn(Halves(w).1, atoms)
  {
    var (l, r) := Halves(w);
    if |w| >= 2 {
      Legacy.SplitWordsAgree(w, |w| / 2);
    }
    assert forall k | 0 <= k < |l| :: l[k] == w[k];
    assert forall k | 0 <= k < |r| :: r[k] == w[|l| + k];
  }

  /** The split branch: Machine(l, r) into the popped Inventory, fed by new
      Inventories of `l` and `r`, both queued, left first. */
  function Split(b: Build, p: Pending): Build
    requires IsInventoryAt(b.g, p.inv, p.word)
  {
    var (l, r) := Halves(p.word);
    b.(g := Expand(b.g, p.inv, l, r, None, None),
       pending := b.pending + [Pending(|b.g| + 1, l), Pending(|b.g| + 2, r)])
  }

  /** The body of the `while` loop for the popped entry `p`. A word without a
      Source and shorter than two characters splits into the empty word and
      itself, and the source loop never ends on it. */
  function Step(b: Build, src: Sources, p: Pending): (r: Result<Build>)
    requires Fits(b, src) && IsInventoryAt(b.g, p.inv, p.word)
    ensures r.Err? <==> p.word !in src && |p.word| < 2
    ensures r.Err? ==> r.error == Diverges(p.word)
  {
    if p.word in src then Ok(Feed(b, src, p))
    else if |p.word| < 2 then Err(Diverges(p.word))
    else Ok(Split(b, p))
  }

  /** The branch a step takes. */
  lemma StepCases(b: Build, src: Sources, p: Pending)
    requires Fits(b, src) && IsInventoryAt(b.g, p.inv, p.word)
    ensures p.word in src ==> Step(b, src, p) == Ok(Feed(b, src, p))
    ensures p.word !in src && |p.word| >= 2 ==> Step(b, src, p) == Ok(Split(b, p))
  {
    hide Feed, Split;
  }

  /** What the split branch builds, in terms of `Expand`. */
  lemma SplitExpands(b: Build, p: Pending)
    requires IsInventoryAt(b.g, p.inv, p.word)
    ensures Expanded(b.g, Split(b, p).g, p.inv, Halves(p.word).0, Halves(p.word).1, None, None)
    ensures Split(b, p).pending == b.pending + [Pending(|b.g| + 1, Halves(p.word).0), Pending(|b.g| + 2, Halves(p.word).1)]
    ensures Wired(b.g) ==> Wired(Split(b, p).g)
  {
    hide Expand;
    var (l, r) := Halves(p.word);
    ExpandFacts(b.g, p.inv, l, r, None, None);
    ExpandKeepsWired(b.g, p.inv, l, r, None, None);
  }

  /** A split keeps the old nodes, places the two halves' Inventories at the
      two indices it queues, and changes nothing else in the state. */
  lemma SplitPlaced(b: Build, p: Pending)
    requires IsInventoryAt(b.g, p.inv, p.word)
    ensures var (l, r) := Halves(p.word);
      var s := Split(b, p);
      && s == b.(g := s.g, pending := b.pending + [Pending(|b.g| + 1, l), Pending(|b.g| + 2, r)])
      && Extends(b.g, s.g) && IsInventoryAt(s.g, |b.g| + 1, l) && IsInventoryAt(s.g, |b.g| + 2, r)
  {
    SplitExpands(b, p);
  }

  lemma SplitFits(b: Build, src: Sources, p: Pending)
    requires Fits(b, src) && IsInventoryAt(b.g, p.inv, p.word)
    ensures Fits(Split(b, p), src)
  {
    hide *;
    var (l, r) := Halves(p.word);
    SplitPlaced(b, p);
    var g' := Split(b, p).g;
    FitsGrow(b, g', src);
    FitsQueue(b.(g := g'), src, Pending(|b.g| + 1, l));
    FitsQueue(b.(g := g', pending := b.pending + [Pending(|b.g| + 1, l)]), src, Pending(|b.g| + 2, r));
    assert b.pending + [Pending(|b.g| + 1, l)] + [Pending(|b.g| + 2, r)]
        == b.pending + [Pending(|b.g| + 1, l), Pending(|b.g| + 2, r)];
  }

  /** A successful step keeps every index in the state well placed and only
      adds Inventories and Machines to the arena. */
  lemma StepFits(b: Build, src: Sources, p: Pending)
    requires Fits(b, src) && IsInventoryAt(b.g, p.inv, p.word)
    requires Step(b, src, p).Ok?
    ensures Fits(Step(b, src, p).value, src) && Grows(b.g, Step(b, src, p).value.g)
  {
    if p.word in src {
      FeedFacts(b, src, p);
    } else {
      SplitFits(b, src, p);
      SplitExpands(b, p);
    }
  }

  /** Splitting replaces the weight 2|w| - 1 of the popped word by the
      2|w| - 2 of its halves. */
  lemma SplitShrinks(b: Build, p: Pending)
    requires IsInventoryAt(b.g, p.inv, p.word) && |p.word| >= 2
    ensures Load(Split(b, p).pending) < Load(b.pending + [p])
  {
    var (l, r) := Halves(p.word);
    HalvesFacts(p.word, {});
    SplitExpands(b, p);
    hide Split, Expand;
    var q1 := Pending(|b.g| + 1, l);
    var q2 := Pending(|b.g| + 2, r);
    assert b.pending + [q1, q2] == (b.pending + [q1]) + [q2];
    LoadPush(b.pending, p);
    LoadPush(b.pending, q1);
    LoadPush(b.pending + [q1], q2);
  }

  /** A successful step lowers the worklist measure: feeding drops the
      popped word, and splitting shrinks it. */
  lemma StepShrinks(b: Build, src: Sources, p: Pending)
    requires Fits(b, src) && IsInventoryAt(b.g, p.inv, p.word)
    requires Step(b, src, p).Ok?
    ensures var ps' := Step(b, src, p).value.pending;
      || Load(ps') < Load(b.pending + [p])
      || (Load(ps') == Load(b.pending + [p]) && |ps'| <= |b.pending|)
  {
    StepCases(b, src, p);
    hide Step, Split, Feed, Expand, Fits;
    if p.word in src {
      FeedFacts(b, src, p);
      LoadPush(b.pending, p);
    } else {
      SplitShrinks(b, p);
    }
  }

  /** The `while` loop: pop the last entry and feed or split it until the
      worklist is empty. */
  function Loop(b: Build, src: Sources): (r: Result<Build>)
    requires Fits(b, src)
    ensures r.Ok? ==> Fits(r.value, src) && Grows(b.g, r.value.g) && r.value.pending == []
    decreases Load(b.pending), |b.pending|
  {
    if b.pending == [] then Ok(b)
    else
      var n := |b.pending| - 1;
      var p := b.pending[n];
      var b1 := b.(pending := b.pending[..n]);
      assert b1.pending + [p] == b.pending;
      var b2 :- Step(b1, src, p);
      StepFits(b1, src, p);
      StepShrinks(b1, src, p);
      var r :- Loop(b2, src);
      GrowsTransitive(b.g, b2.g, r.g);
      Ok(r)
  }

  /** One turn of the loop: pop the last entry, step on it, and go on with a
      smaller worklist measure. */
  lemma LoopPop(b: Build, src: Sources) returns (b1: Build, p: Pending)
    requires Fits(b, src) && b.pending != []
    ensures b1.g == b.g && b1.pending + [p] == b.pending
    ensures b1 == b.(pending := b.pending[..|b.pending| - 1]) && p == b.pending[|b.pending| - 1]
    ensures Fits(b1, src) && IsInventoryAt(b1.g, p.inv, p.word)
    ensures Step(b1, src, p).Err? ==> Loop(b, src) == Err(Step(b1, src, p).error)
    ensures Step(b1, src, p).Ok? ==>
      && Fits(Step(b1, src, p).value, src)
      && Loop(b, src) == Loop(Step(b1, src, p).value, src)
      && (|| Load(Step(b1, src, p).value.pending) < Load(b.pending)
          || (Load(Step(b1, src, p).value.pending) == Load(b.pending)
              && |Step(b1, src, p).value.pending| < |b.pending|))
  {
    hide Feed, Split;
    var n := |b.pending| - 1;
    p := b.pending[n];
    b1 := b.(pending := b.pending[..n]);
    assert b1.pending + [p] == b.pending;
    if Step(b1, src, p).Ok? {
      StepFits(b1, src, p);
      StepShrinks(b1, src, p);
    }
  }

  /** With an empty worklist the loop returns the state unchanged. */
  lemma LoopDone(b: Build, src: Sources)
    requires Fits(b, src)
    ensures b.pending == [] ==> Loop(b, src) == Ok(b)
  {
  }

  // ---------------------------------------------------------------------
  // Completeness

  /** The worklist side of a split: the entries below the popped one stay,
      and both halves already feed the new Machine and are spelled with
      source characters. */
  lemma SplitQueues(g: Graph, g': Graph, src: Sources, rest: seq<Pending>, p: Pending,
                    l: Word, r: Word, ps': seq<Pending>)
    requires QueueOk(g, src, p) && p.word == l + r
    requires |g'| == |g| + 3 && Recorded(g', NewEdges(|g|, p.inv, None, None))
    requires ps' == rest + [Pending(|g| + 1, l), Pending(|g| + 2, r)]
    ensures |rest| <= |ps'| && ps'[..|rest|] == rest
    ensures forall k | |rest| <= k < |ps'| :: QueueOk(g', src, ps'[k])
  {
    var n := |g|;
    NewEdgesListed(n, p.inv, None, None);
    assert ps'[..|rest|] == rest;
    assert ps'[|rest|] == Pending(n + 1, l) && ps'[|rest| + 1] == Pending(n + 2, r);
    assert forall k | 0 <= k < |l| :: l[k] == p.word[k];
    assert forall k | 0 <= k < |r| :: r[k] == p.word[|l| + k];
  }

  /** After a split, every character of the popped word lies in one of the
      two queued halves, each shorter than the word. */
  lemma SplitCovers(g': Graph, src: Sources, rest: seq<Pending>, n: nat, l: Word, r: Word)
    requires 1 <= |l| && 1 <= |r|
    ensures CoveredBelow(g', src, rest + [Pending(n + 1, l), Pending(n + 2, r)], l + r, |l + r|)
  {
    var ps' := rest + [Pending(n + 1, l), Pending(n + 2, r)];
    var w := l + r;
    assert ps'[|rest|] == Pending(n + 1, l) && ps'[|rest| + 1] == Pending(n + 2, r);
    forall k | 0 <= k < |w|
      ensures Awaited(ps', w[k], |w|)
    {
      if k < |l| {
        assert w[k] == l[k];
      } else {
        assert w[k] == r[k - |l|];
      }
    }
  }

  /** The arena side of a split: the Machine is fully connected, the popped
      Inventory is fed by it, the new Inventories are queued, and the popped
      word is covered by the halves. */
  lemma SplitCompletes(g: Graph, g': Graph, src: Sources, rest: seq<Pending>, p: Pending,
                       l: Word, r: Word, waiting: set<nat>)
    requires QueueOk(g, src, p) && IsInventoryAt(g, p.inv, p.word) && p.word == l + r
    requires 1 <= |l| && 1 <= |r|
    requires Expanded(g, g', p.inv, l, r, None, None)
    ensures var ps' := rest + [Pending(|g| + 1, l), Pending(|g| + 2, r)];
      && (forall j | 0 <= j < |[p]| :: CoveredBelow(g', src, ps', [p][j].word, |[p][j].word|))
      && (forall i | 0 <= i < |g'| && (i >= |g| || i in waiting || exists j | 0 <= j < |[p]| :: [p][j].inv == i) ::
            !g'[i].shape.SourceOf? && !IsPending(ps', i) && i !in waiting ==> FullyConnected(g', i))
      && (forall i | |g| <= i < |g'| && g'[i].shape.InventoryOf? && !IsPending(ps', i) ::
            CoveredBelow(g', src, ps', g'[i].shape.w, |g'[i].shape.w|))
  {
    hide *;
    SplitCoversPopped(g', src, rest, p, |g|, l, r);
    SplitConnectsTouched(g, g', src, rest, p, l, r, waiting);
    SplitQueuesNew(g, g', src, rest, p, l, r);
  }

  lemma SplitCoversPopped(g': Graph, src: Sources, rest: seq<Pending>, p: Pending, n: nat, l: Word, r: Word)
    requires p.word == l + r && 1 <= |l| && 1 <= |r|
    ensures var ps' := rest + [Pending(n + 1, l), Pending(n + 2, r)];
      forall j | 0 <= j < |[p]| :: CoveredBelow(g', src, ps', [p][j].word, |[p][j].word|)
  {
    assert [p][0] == p;
    SplitCovers(g', src, rest, n, l, r);
  }

  /** The nodes a split touches are fully connected unless queued. */
  lemma SplitConnectsTouched(g: Graph, g': Graph, src: Sources, rest: seq<Pending>, p: Pending,
                             l: Word, r: Word, waiting: set<nat>)
    requires QueueOk(g, src, p) && IsInventoryAt(g, p.inv, p.word) && p.word == l + r
    requires Expanded(g, g', p.inv, l, r, None, None)
    ensures var ps' := rest + [Pending(|g| + 1, l), Pending(|g| + 2, r)];
      forall i | 0 <= i < |g'| && (i >= |g| || i in waiting || exists j | 0 <= j < |[p]| :: [p][j].inv == i) ::
        !g'[i].shape.SourceOf? && !IsPending(ps', i) && i !in waiting ==> FullyConnected(g', i)
  {
    var n := |g|;
    assert |g'| == n + 3;
    SplitPending(rest, n, l, r);
    SplitConnected(g, g', src, p, l, r);
    hide *;
    assert [p][0] == p;
  }

  /** The Inventories a split adds are both queued. */
  lemma SplitQueuesNew(g: Graph, g': Graph, src: Sources, rest: seq<Pending>, p: Pending, l: Word, r: Word)
    requires Expanded(g, g', p.inv, l, r, None, None)
    ensures var ps' := rest + [Pending(|g| + 1, l), Pending(|g| + 2, r)];
      forall i | |g| <= i < |g'| && g'[i].shape.InventoryOf? && !IsPending(ps', i) ::
        CoveredBelow(g', src, ps', g'[i].shape.w, |g'[i].shape.w|)
  {
    assert |g'| == |g| + 3 && g'[|g|].shape.MachineOf?;
    SplitPending(rest, |g|, l, r);
  }

  /** Both halves of a split are queued. */
  lemma SplitPending(rest: seq<Pending>, n: nat, l: Word, r: Word)
    ensures var ps' := rest + [Pending(n + 1, l), Pending(n + 2, r)];
      IsPending(ps', n + 1) && IsPending(ps', n + 2)
  {
    var ps' := rest + [Pending(n + 1, l), Pending(n + 2, r)];
    assert ps'[|rest|].inv == n + 1;
    assert ps'[|rest| + 1].inv == n + 2;
  }

  /** After a split the new Machine and the popped Inventory are fully
      connected. */
  lemma SplitConnected(g: Graph, g': Graph, src: Sources, p: Pending, l: Word, r: Word)
    requires QueueOk(g, src, p) && IsInventoryAt(g, p.inv, p.word) && p.word == l + r
    requires Expanded(g, g', p.inv, l, r, None, None)
    ensures FullyConnected(g', |g|) && FullyConnected(g', p.inv)
  {
    MachineConnected(g', |g|, p.inv, None, None, l, r);
    assert g[p.inv].outputNodes <= g'[p.inv].outputNodes;
    TargetConnected(g', |g|, p.inv, None, None, l, r);
  }

  /** A split keeps the completeness invariant. */
  lemma SplitResettles(g: Graph, g': Graph, src: Sources, stack: seq<Pending>, rest: seq<Pending>,
                       p: Pending, l: Word, r: Word, ps': seq<Pending>, waiting: set<nat>)
    requires ps' == rest + [Pending(|g| + 1, l), Pending(|g| + 2, r)]
    requires Settled(g, src, stack, waiting) && stack == rest + [p]
    requires IsInventoryAt(g, p.inv, p.word) && p.word == l + r && 1 <= |l| && 1 <= |r|
    requires Expanded(g, g', p.inv, l, r, None, None)
    ensures Settled(g', src, ps', waiting)
  {
    assert stack[|rest|] == p;
    assert QueueOk(g, src, p);
    assert [p][0] == p;
    SplitQueues(g, g', src, rest, p, l, r, ps');
    SplitCompletes(g, g', src, rest, p, l, r, waiting);
    Resettle(g, g', src, rest, [p], ps', waiting, waiting);
  }

  /** One step keeps the completeness invariant. */
  lemma StepSettles(b: Build, src: Sources, stack: seq<Pending>, p: Pending, waiting: set<nat>)
    requires Fits(b, src) && IsInventoryAt(b.g, p.inv, p.word) && Atomic(src)
    requires Settled(b.g, src, stack, waiting) && stack == b.pending + [p]
    requires Step(b, src, p).Ok?
    ensures Settled(Step(b, src, p).value.g, src, Step(b, src, p).value.pending, waiting)
  {
    StepCases(b, src, p);
    hide Step, Feed, Split, Expand, Settled, Expanded, Fits;
    if p.word in src {
      FeedFacts(b, src, p);
      FeedResettles(b.g, Feed(b, src, p).g, src, stack, b.pending, p, waiting);
    } else {
      var (l, r) := Halves(p.word);
      HalvesFacts(p.word, {});
      SplitExpands(b, p);
      SplitResettles(b.g, Split(b, p).g, src, stack, b.pending, p, l, r, Split(b, p).pending, waiting);
    }
  }

  lemma StepKeepsWired(b: Build, src: Sources, p: Pending)
    requires Fits(b, src) && IsInventoryAt(b.g, p.inv, p.word)
    requires Step(b, src, p).Ok?
    ensures Wired(b.g) ==> Wired(Step(b, src, p).value.g)
  {
    if p.word in src {
      FeedFacts(b, src, p);
    } else {
      SplitExpands(b, p);
    }
  }

  /** The whole loop keeps the completeness invariant, ending with an empty
      worklist. */
  lemma {:induction false} LoopSettles(b: Build, src: Sources, waiting: set<nat>)
    requires Fits(b, src) && Atomic(src) && Settled(b.g, src, b.pending, waiting)
    requires Loop(b, src).Ok?
    ensures Settled(Loop(b, src).value.g, src, [], waiting)
    decreases Load(b.pending), |b.pending|
  {
    if b.pending != [] {
      var b1, p := LoopPop(b, src);
      hide Loop, Step, Feed, Split, Expand, Fits, Settled;
      StepSettles(b1, src, b.pending, p, waiting);
      LoopSettles(Step(b1, src, p).value, src, waiting);
    }
  }

  lemma {:induction false} LoopKeepsWired(b: Build, src: Sources)
    requires Fits(b, src) && Loop(b, src).Ok?
    ensures Wired(b.g) ==> Wired(Loop(b, src).value.g)
    decreases Load(b.pending), |b.pending|
  {
    if b.pending != [] {
      var b1, p := LoopPop(b, src);
      hide Loop, Step, Feed, Split, Expand, Fits, Wired;
      StepKeepsWired(b1, src, p);
      LoopKeepsWired(Step(b1, src, p).value, src);
    }
  }

  // ---------------------------------------------------------------------
  // Outcome

  /** Splitting a word spelled with source characters queues two non-empty
      halves spelled with them. */
  lemma SplitKeepsSpelled(b: Build, src: Sources, p: Pending)
    requires IsInventoryAt(b.g, p.inv, p.word) && |p.word| >= 2
    requires Spelled(b.pending, src) && AllCharsIn(p.word, src.Keys)
    ensures Spelled(Split(b, p).pending, src)
    ensures NonEmpty(Split(b, p).pending) <==> NonEmpty(b.pending)
  {
    var (l, r) := Halves(p.word);
    HalvesFacts(p.word, src.Keys);
    SplitExpands(b, p);
    hide Split, Expand;
    var q1 := Pending(|b.g| + 1, l);
    var q2 := Pending(|b.g| + 2, r);
    assert b.pending + [q1, q2] == (b.pending + [q1]) + [q2];
    SpelledSnoc(b.pending, q1, src);
    SpelledSnoc(b.pending + [q1], q2, src);
    NonEmptySnoc(b.pending, q1);
    NonEmptySnoc(b.pending + [q1], q2);
  }

  /** A step on a word spelled with single-character sources fails exactly
      on the empty word; otherwise the worklist stays spelled with source
      characters and has an empty word exactly when the entries below the
      popped one do. */
  lemma StepKeepsSpelled(b: Build, src: Sources, p: Pending)
    requires Fits(b, src) && IsInventoryAt(b.g, p.inv, p.word)
    requires Atomic(src) && Spelled(b.pending + [p], src)
    ensures var r := Step(b, src, p);
      && (r.Err? <==> p.word == [])
      && (r.Err? ==> r.error == Diverges([]))
      && (r.Ok? ==> Spelled(r.value.pending, src) && (NonEmpty(r.value.pending) <==> NonEmpty(b.pending)))
  {
    SpelledSnoc(b.pending, p, src);
    SourcedIffAtom(p.word, src);
    StepCases(b, src, p);
    hide Step, Feed, Split, Expand, Fits, Halves, Spelled, NonEmpty;
    if p.word in src {
      FeedFacts(b, src, p);
    } else if |p.word| >= 2 {
      SplitKeepsSpelled(b, src, p);
    }
  }

  /** With single-character sources and every queued word spelled with them,
      the loop succeeds exactly when no queued word is empty; otherwise the
      source loops forever on the empty word. */
  lemma {:induction false} LoopOutcome(b: Build, src: Sources)
    requires Fits(b, src) && Atomic(src) && Spelled(b.pending, src)
    ensures Loop(b, src).Ok? <==> NonEmpty(b.pending)
    ensures Loop(b, src).Err? ==> Loop(b, src).error == Diverges([])
    decreases Load(b.pending), |b.pending|
  {
    LoopDone(b, src);
    hide Loop, Step, Feed, Split, Expand, Fits, Halves;
    if b.pending != [] {
      var b1, p := LoopPop(b, src);
      NonEmptySnoc(b1.pending, p);
      StepKeepsSpelled(b1, src, p);
      if Step(b1, src, p).Ok? {
        LoopOutcome(Step(b1, src, p).value, src);
      }
    }
  }

  // ---------------------------------------------------------------------
  // The generator

  /** form_component_assembly on the arena `generate` builds: the sink loop,
      then the `while` loop. */
  function FormComponent(g: Graph, src: Sources, sinks: Sinks): (r: Result<Graph>)
    requires SourcesFit(g, src) && SinksFit(g, sinks)
    ensures r.Ok? ==> Grows(g, r.value)
  {
    var b0 := Build(g, [], map[], map[]);
    var b1 := SupplySinks(b0, src, sinks);
    var b2 :- Loop(b1, src);
    GrowsTransitive(g, b1.g, b2.g);
    Ok(b2.g)
  }

  /** The generator as its two loops: the sink loop builds `b1`, and the
      outcome is that of the `while` loop on it. */
  lemma ComponentUnfold(g: Graph, src: Sources, sinks: Sinks) returns (b1: Build)
    requires SourcesFit(g, src) && SinksFit(g, sinks)
    ensures Fits(Build(g, [], map[], map[]), src)
    ensures b1 == SupplySinks(Build(g, [], map[], map[]), src, sinks) && Fits(b1, src)
    ensures FormComponent(g, src, sinks).Ok? <==> Loop(b1, src).Ok?
    ensures FormComponent(g, src, sinks).Ok? ==> FormComponent(g, src, sinks).value == Loop(b1, src).value.g
    ensures FormComponent(g, src, sinks).Err? ==> FormComponent(g, src, sinks).error == Loop(b1, src).error
  {
    hide Loop, Step, Feed, Split, Expand, SupplySinks, SupplyOne;
    b1 := SupplySinks(Build(g, [], map[], map[]), src, sinks);
  }

  /** The sink loop queues the sink words, in order. */
  lemma SinkQueueWords(g: Graph, src: Sources, sinks: Sinks)
    requires SourcesFit(g, src) && SinksFit(g, sinks)
    requires forall j | 0 <= j < |sinks| :: AllCharsIn(sinks[j].0, src.Keys)
    requires Fits(Build(g, [], map[], map[]), src)
    ensures Spelled(SupplySinks(Build(g, [], map[], map[]), src, sinks).pending, src)
    ensures NonEmpty(SupplySinks(Build(g, [], map[], map[]), src, sinks).pending)
            <==> forall j | 0 <= j < |sinks| :: |sinks[j].0| >= 1
  {
    var b0 := Build(g, [], map[], map[]);
    hide SupplySinks, SupplyOne, Fits, SinksFit, SourcesFit;
    SupplySinksQueues(b0, src, sinks);
    var ps := SupplySinks(b0, src, sinks).pending;
    assert forall k | 0 <= k < |ps| :: ps[k].word == sinks[k].0;
  }

  /** The component generator succeeds exactly when no output word is empty;
      on an empty output word the source never terminates. */
  lemma ComponentOutcome(g: Graph, src: Sources, sinks: Sinks)
    requires Setting(g, src, sinks)
    ensures FormComponent(g, src, sinks).Ok? <==> forall j | 0 <= j < |sinks| :: |sinks[j].0| >= 1
    ensures FormComponent(g, src, sinks).Err? ==> FormComponent(g, src, sinks).error == Diverges([])
  {
    SettingFacts(g, src, sinks);
    var b1 := ComponentUnfold(g, src, sinks);
    hide *;
    SinkQueueWords(g, src, sinks);
    LoopOutcome(b1, src);
  }

  /** Every edge the component generator forms passes the node_types.py rules. */
  lemma ComponentWired(g: Graph, src: Sources, sinks: Sinks)
    requires Setting(g, src, sinks)
    requires FormComponent(g, src, sinks).Ok?
    ensures Wired(FormComponent(g, src, sinks).value)
  {
    var b1 := ComponentUnfold(g, src, sinks);
    hide FormComponent, Loop, Step, Feed, Split, Expand, SupplySinks, SupplyOne;
    SettingSettled(g, src, sinks);
    SupplySinksKeepsWired(Build(g, [], map[], map[]), src, sinks);
    LoopKeepsWired(b1, src);
  }

  /** The completeness invariant holds, with nothing queued or waiting, on
      the arena the component generator returns. */
  lemma ComponentSettles(g: Graph, src: Sources, sinks: Sinks)
    requires Setting(g, src, sinks)
    requires FormComponent(g, src, sinks).Ok?
    ensures Settled(FormComponent(g, src, sinks).value, src, [], {})
  {
    var b1 := ComponentUnfold(g, src, sinks);
    SettingSettled(g, src, sinks);
    SettingFacts(g, src, sinks);
    hide *;
    SupplySinksSettles(Build(g, [], map[], map[]), src, sinks, SinkIndices(sinks));
    assert SinkIndices(sinks) - SinkIndices(sinks) == {};
    LoopSettles(b1, src, {});
  }

  /** Whenever the component generator succeeds, it keeps every edge
      admissible and leaves every node of the arena fully connected. */
  lemma ComponentComplete(g: Graph, src: Sources, sinks: Sinks)
    requires Setting(g, src, sinks)
    requires FormComponent(g, src, sinks).Ok?
    ensures Wired(FormComponent(g, src, sinks).value)
    ensures forall i | 0 <= i < |FormComponent(g, src, sinks).value| ::
              FullyConnected(FormComponent(g, src, sinks).value, i)
  {
    var r := FormComponent(g, src, sinks).value;
    ComponentWired(g, src, sinks);
    ComponentSettles(g, src, sinks);
    hide FormComponent, Settled, Wired;
    CharSourcesGrow(g, r, src);
    DemandedGrows(g, r, src);
    SettledComplete(r, src);
  }
}
