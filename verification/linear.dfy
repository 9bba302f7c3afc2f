/** form_linear_assembly (wordmill/algorithms.py): every sink gets its own
    Inventory, and every queued word is split after its first character; the
    one-character left half is fed by its Source, the right half is fed by
    its Source or queued. */
module Linear {
  import opened Outcomes
  import opened Words
  import opened Nodes
  import Legacy
  import opened Construction
  import opened Expansion

  /** The worklist after a step: the right half `rt`, whose Inventory is
      node `n`, is queued unless it has a Source. */
  function Requeue(rest: seq<Pending>, n: nat, rt: Word, src: Sources): seq<Pending> {
    if rt in src then rest else rest + [Pending(n, rt)]
  }

  /** The body of the `while` loop for the popped entry `p`. The split is the
      unchecked one of wordmill.py; `sources[w_left]` fails when the left half
      has no Source. */
  function Step(b: Build, src: Sources, p: Pending): (r: Result<Build>)
    requires Fits(b, src) && IsInventoryAt(b.g, p.inv, p.word)
    ensures r.Err? <==> Legacy.SplitWord(p.word, 1).0 !in src
    ensures r.Err? ==> r.error == MissingSource(Legacy.SplitWord(p.word, 1).0)
    ensures r.Ok? ==> |r.value.g| == |b.g| + 3
  {
    var (l, rt) := Legacy.SplitWord(p.word, 1);
    if l !in src then Err(MissingSource(l))
    else
      var t := if rt in src then Some(src[rt]) else None;
      Ok(b.(g := Expand(b.g, p.inv, l, rt, Some(src[l]), t), pending := Requeue(b.pending, |b.g| + 2, rt, src)))
  }

  /** A successful step only adds Inventories and Machines to the arena. */
  lemma StepGrows(b: Build, src: Sources, p: Pending)
    requires Fits(b, src) && IsInventoryAt(b.g, p.inv, p.word)
    requires Step(b, src, p).Ok?
    ensures Grows(b.g, Step(b, src, p).value.g)
  {
    hide Expand;
    var (l, rt) := Legacy.SplitWord(p.word, 1);
    ExpandGrows(b.g, p.inv, l, rt, Some(src[l]), if rt in src then Some(src[rt]) else None);
  }

  /** A successful step queues the right half exactly when it has no Source. */
  lemma StepRequeues(b: Build, src: Sources, p: Pending)
    requires Fits(b, src) && IsInventoryAt(b.g, p.inv, p.word)
    requires Step(b, src, p).Ok?
    ensures Legacy.SplitWord(p.word, 1).1 in src ==> Step(b, src, p).value.pending == b.pending
    ensures Legacy.SplitWord(p.word, 1).1 !in src ==>
      Step(b, src, p).value.pending == b.pending + [Pending(|b.g| + 2, Legacy.SplitWord(p.word, 1).1)]
  {
    hide Expand, Fits;
  }

  /** A successful step keeps every index in the state well placed. */
  lemma StepFits(b: Build, src: Sources, p: Pending)
    requires Fits(b, src) && IsInventoryAt(b.g, p.inv, p.word)
    requires Step(b, src, p).Ok?
    ensures Fits(Step(b, src, p).value, src)
  {
    hide Expand;
    var (l, rt) := Legacy.SplitWord(p.word, 1);
    var t := if rt in src then Some(src[rt]) else None;
    var g' := Expand(b.g, p.inv, l, rt, Some(src[l]), t);
    ExpandGrows(b.g, p.inv, l, rt, Some(src[l]), t);
    ExpandShapes(b.g, p.inv, l, rt, Some(src[l]), t);
    FitsGrow(b, g', src);
    if rt !in src {
      FitsQueue(b.(g := g'), src, Pending(|b.g| + 2, rt));
    }
  }

  /** The `while` loop: pop the last entry and expand it until the worklist
      is empty or a Source is missing. Every expansion removes a word and
      queues at most its proper suffix, so the total split-tree weight of the
      worklist, and failing that its length, goes down. */
  function Loop(b: Build, src: Sources): (r: Result<Build>)
    requires Fits(b, src)
    ensures r.Ok? ==> Fits(r.value, src) && Grows(b.g, r.value.g) && r.value.pending == []
    decreases Load(b.pending), |b.pending|
  {
    if b.pending == [] then Ok(b)
    else
      var n := |b.pending| - 1;
      var p := b.pending[n];
      var b1 := b.(pending := b.pending[..n]);
      assert b1.pending + [p] == b.pending;
      FitsPop(b, src);
      var b2 :- Step(b1, src, p);
      StepFits(b1, src, p);
      StepGrows(b1, src, p);
      StepShrinks(b1, src, p);
      var r :- Loop(b2, src);
      GrowsTransitive(b.g, b2.g, r.g);
      Ok(r)
  }

  // ---------------------------------------------------------------------
  // Completeness

  /** After a step on `l + rt`, every character of the popped word has its
      Source in use, or lies in the queued right half, which is shorter. */
  lemma StepCovers(g': Graph, src: Sources, ps': seq<Pending>, l: Word, rt: Word, n: nat)
    requires Atomic(src) && l in src && Used(g', src, l)
    requires rt in src ==> Used(g', src, rt)
    requires rt !in src ==> |ps'| > 0 && ps'[|ps'| - 1] == Pending(n, rt)
    ensures CoveredBelow(g', src, ps', l + rt, |l + rt|)
  {
    var w := l + rt;
    forall k | 0 <= k < |w|
      ensures Used(g', src, [w[k]]) || Awaited(ps', w[k], |w|)
    {
      if k == 0 {
        assert [w[0]] == l;
      } else if rt in src {
        assert [w[k]] == rt;
      } else {
        assert w[k] == rt[k - 1];
        assert w[k] in ps'[|ps'| - 1].word;
      }
    }
  }

  /** The nodes a step adds or completes are fully connected unless queued:
      the Machine, the left Inventory, the right Inventory when it has a
      Source, and the expanded Inventory, which already fed its consumer. */
  lemma NewConnected(g': Graph, n: nat, p: Pending, s: nat, t: Option<nat>, l: Word, rt: Word,
                     ps': seq<Pending>, waiting: set<nat>)
    requires |g'| == n + 3 && p.inv < n && s < n && (t.Some? ==> t.value < n)
    requires Recorded(g', NewEdges(n, p.inv, Some(s), t))
    requires g'[n].shape == MachineOf(l, rt) && g'[n + 1].shape == InventoryOf(l)
    requires g'[n + 2].shape == InventoryOf(rt) && g'[p.inv].shape == InventoryOf(l + rt)
    requires g'[s].shape == SourceOf(l) && (t.Some? ==> g'[t.value].shape == SourceOf(rt))
    requires |g'[p.inv].outputNodes| > 0
    requires t.None? ==> IsPending(ps', n + 2)
    ensures forall i | 0 <= i < |g'| && (i >= n || i in waiting || exists j | 0 <= j < |[p]| :: [p][j].inv == i) ::
              !g'[i].shape.SourceOf? && !IsPending(ps', i) && i !in waiting ==> FullyConnected(g', i)
  {
    MachineConnected(g', n, p.inv, Some(s), t, l, rt);
    LeftConnected(g', n, p.inv, Some(s), t, l);
    TargetConnected(g', n, p.inv, Some(s), t, l, rt);
    if t.Some? {
      RightConnected(g', n, p.inv, Some(s), t, rt);
    }
    NewCases(g', n, p, ps', waiting);
  }

  /** The case split behind NewConnected, on connectivity facts alone. */
  lemma NewCases(g': Graph, n: nat, p: Pending, ps': seq<Pending>, waiting: set<nat>)
    requires |g'| == n + 3 && p.inv < n
    requires FullyConnected(g', n) && FullyConnected(g', n + 1) && FullyConnected(g', p.inv)
    requires IsPending(ps', n + 2) || FullyConnected(g', n + 2)
    ensures forall i | 0 <= i < |g'| && (i >= n || i in waiting || exists j | 0 <= j < |[p]| :: [p][j].inv == i) ::
              !g'[i].shape.SourceOf? && !IsPending(ps', i) && i !in waiting ==> FullyConnected(g', i)
  {
    assert [p][0] == p;
    forall i | 0 <= i < |g'| && (i >= n || i in waiting || exists j | 0 <= j < |[p]| :: [p][j].inv == i)
      ensures !g'[i].shape.SourceOf? && !IsPending(ps', i) && i !in waiting ==> FullyConnected(g', i)
    {
      if i == n {
      } else if i == n + 1 {
      } else if i == n + 2 {
      } else if i == p.inv {
      } else {
        assert i in waiting;
      }
    }
  }

  /** The Inventories a step adds are covered unless queued. */
  lemma NewCovered(g': Graph, n: nat, src: Sources, ps': seq<Pending>, l: Word, rt: Word)
    requires |g'| == n + 3
    requires g'[n].shape.MachineOf? && g'[n + 1].shape == InventoryOf(l) && g'[n + 2].shape == InventoryOf(rt)
    requires CoveredBelow(g', src, ps', l, |l|)
    requires !IsPending(ps', n + 2) ==> CoveredBelow(g', src, ps', rt, |rt|)
    ensures forall i | n <= i < |g'| && g'[i].shape.InventoryOf? && !IsPending(ps', i) ::
              CoveredBelow(g', src, ps', g'[i].shape.w, |g'[i].shape.w|)
  {
    forall i | n <= i < |g'| && g'[i].shape.InventoryOf? && !IsPending(ps', i)
      ensures CoveredBelow(g', src, ps', g'[i].shape.w, |g'[i].shape.w|)
    {
      if i == n + 1 {
        assert g'[i].shape.w == l;
      } else {
        assert i == n + 2 && g'[i].shape.w == rt;
      }
    }
  }

  /** The worklist side of a step: the entries below the popped one stay,
      and the queued right half already feeds the new Machine. */
  lemma StepQueues(g: Graph, g': Graph, src: Sources, rest: seq<Pending>, p: Pending,
                   l: Word, rt: Word, ps': seq<Pending>)
    requires QueueOk(g, src, p) && IsInventoryAt(g, p.inv, p.word) && p.word == l + rt
    requires |g'| == |g| + 3 && |g| in g'[|g| + 2].outputNodes
    requires rt in src ==> ps' == rest
    requires rt !in src ==> ps' == rest + [Pending(|g| + 2, rt)]
    ensures |rest| <= |ps'| && ps'[..|rest|] == rest
    ensures forall j | 0 <= j < |[p]| :: IsInventoryAt(g, [p][j].inv, [p][j].word)
    ensures forall k | |rest| <= k < |ps'| :: QueueOk(g', src, ps'[k])
  {
    assert ps'[..|rest|] == rest;
    assert [p][0] == p;
    if rt !in src {
      assert QueueOk(g', src, Pending(|g| + 2, rt)) by {
        assert forall k | 0 <= k < |rt| :: rt[k] == p.word[|l| + k];
      }
    }
  }

  /** The nodes a step draws on keep their shapes, and the Sources of both
      halves now feed something. */
  lemma StepDrawsOn(g: Graph, g': Graph, src: Sources, p: Pending, l: Word, rt: Word, t: Option<nat>)
    requires SourcesFit(g, src) && QueueOk(g, src, p)
    requires |g'| == |g| + 3 && Grows(g, g') && l in src && p.word == l + rt
    requires Recorded(g', NewEdges(|g|, p.inv, Some(src[l]), t))
    requires IsInventoryAt(g, p.inv, p.word)
    requires t == (if rt in src then Some(src[rt]) else None)
    ensures Used(g', src, l) && (rt in src ==> Used(g', src, rt))
    ensures src[l] < |g| && g'[src[l]].shape == SourceOf(l)
    ensures t.Some? ==> t.value < |g| && g'[t.value].shape == SourceOf(rt)
    ensures p.inv < |g| && g'[p.inv].shape == InventoryOf(l + rt) && |g'[p.inv].outputNodes| > 0
  {
    hide Recorded, NewEdges;
    var n := |g|;
    var es := NewEdges(n, p.inv, Some(src[l]), t);
    NewEdgesListed(n, p.inv, Some(src[l]), t);
    RecordedEdge(g', es, Edge(src[l], n + 1));
    if rt in src {
      RecordedEdge(g', es, Edge(src[rt], n + 2));
    }
    assert g[p.inv].outputNodes <= g'[p.inv].outputNodes;
  }

  /** The arena side of a step: what it adds or completes is fully connected
      or covered, unless queued. */
  lemma StepCompletes(g: Graph, g': Graph, src: Sources, rest: seq<Pending>, p: Pending,
                      l: Word, rt: Word, t: Option<nat>, ps': seq<Pending>, waiting: set<nat>)
    requires Atomic(src) && SourcesFit(g, src) && QueueOk(g, src, p)
    requires |g'| == |g| + 3 && Grows(g, g') && l in src && p.word == l + rt
    requires Recorded(g', NewEdges(|g|, p.inv, Some(src[l]), t))
    requires g'[|g|].shape == MachineOf(l, rt) && g'[|g| + 1].shape == InventoryOf(l)
    requires g'[|g| + 2].shape == InventoryOf(rt)
    requires IsInventoryAt(g, p.inv, p.word)
    requires t == (if rt in src then Some(src[rt]) else None)
    requires rt in src ==> ps' == rest
    requires rt !in src ==> ps' == rest + [Pending(|g| + 2, rt)]
    ensures forall j | 0 <= j < |[p]| :: CoveredBelow(g', src, ps', [p][j].word, |[p][j].word|)
    ensures forall i | 0 <= i < |g'| && (i >= |g| || i in waiting || exists j | 0 <= j < |[p]| :: [p][j].inv == i) ::
              !g'[i].shape.SourceOf? && !IsPending(ps', i) && i !in waiting ==> FullyConnected(g', i)
    ensures forall i | |g| <= i < |g'| && g'[i].shape.InventoryOf? && !IsPending(ps', i) ::
              CoveredBelow(g', src, ps', g'[i].shape.w, |g'[i].shape.w|)
  {
    hide *;
    StepDrawsOn(g, g', src, p, l, rt, t);
    StepCoversPopped(g, g', src, rest, p, l, rt, t, ps');
    NewConnected(g', |g|, p, src[l], t, l, rt, ps', waiting);
    NewCovered(g', |g|, src, ps', l, rt);
  }

  /** After a step, the popped word and its left half are covered below
      their lengths, and so is the right half unless it is queued. */
  lemma StepCoversPopped(g: Graph, g': Graph, src: Sources, rest: seq<Pending>, p: Pending,
                         l: Word, rt: Word, t: Option<nat>, ps': seq<Pending>)
    requires Atomic(src) && SourcesFit(g, src) && QueueOk(g, src, p)
    requires |g'| == |g| + 3 && Grows(g, g') && l in src && p.word == l + rt
    requires Recorded(g', NewEdges(|g|, p.inv, Some(src[l]), t))
    requires IsInventoryAt(g, p.inv, p.word)
    requires t == (if rt in src then Some(src[rt]) else None)
    requires rt in src ==> ps' == rest
    requires rt !in src ==> ps' == rest + [Pending(|g| + 2, rt)]
    ensures forall j | 0 <= j < |[p]| :: CoveredBelow(g', src, ps', [p][j].word, |[p][j].word|)
    ensures CoveredBelow(g', src, ps', l, |l|)
    ensures rt in src ==> CoveredBelow(g', src, ps', rt, |rt|)
    ensures rt !in src ==> IsPending(ps', |g| + 2)
  {
    hide *;
    StepDrawsOn(g, g', src, p, l, rt, t);
    var n := |g|;
    assert [p][0] == p;
    if rt in src {
      AtomCovered(g', src, ps', rt);
    } else {
      PendingLast(rest, Pending(n + 2, rt));
      assert ps'[|ps'| - 1] == Pending(n + 2, rt);
    }
    StepCovers(g', src, ps', l, rt, n + 2);
    AtomCovered(g', src, ps', l);
  }

  /** A step on the popped entry `p` keeps the completeness invariant. */
  lemma StepResettles(g: Graph, g': Graph, src: Sources, stack: seq<Pending>, rest: seq<Pending>, p: Pending,
                      l: Word, rt: Word, t: Option<nat>, ps': seq<Pending>, waiting: set<nat>)
    requires rt in src ==> ps' == rest
    requires rt !in src ==> ps' == rest + [Pending(|g| + 2, rt)]
    requires Settled(g, src, stack, waiting) && stack == rest + [p]
    requires Atomic(src) && SourcesFit(g, src)
    requires l in src && Expanded(g, g', p.inv, l, rt, Some(src[l]), t)
    requires IsInventoryAt(g, p.inv, p.word) && p.word == l + rt
    requires t == (if rt in src then Some(src[rt]) else None)
    ensures Settled(g', src, ps', waiting)
  {
    assert (rest + [p])[|rest|] == p;
    NewEdgesListed(|g|, p.inv, Some(src[l]), t);
    StepQueues(g, g', src, rest, p, l, rt, ps');
    StepCompletes(g, g', src, rest, p, l, rt, t, ps', waiting);
    Resettle(g, g', src, rest, [p], ps', waiting, waiting);
  }

  /** What a successful step builds, in terms of `Expand`. */
  lemma StepExpands(b: Build, src: Sources, p: Pending)
    requires Fits(b, src) && IsInventoryAt(b.g, p.inv, p.word)
    requires Step(b, src, p).Ok?
    ensures var (l, rt) := Legacy.SplitWord(p.word, 1);
      var t := if rt in src then Some(src[rt]) else None;
      && l in src
      && Expanded(b.g, Step(b, src, p).value.g, p.inv, l, rt, Some(src[l]), t)
  {
    hide Expand;
    var (l, rt) := Legacy.SplitWord(p.word, 1);
    var t := if rt in src then Some(src[rt]) else None;
    ExpandFacts(b.g, p.inv, l, rt, Some(src[l]), t);
  }

  /** One expansion keeps the completeness invariant. */
  lemma StepSettles(b: Build, src: Sources, stack: seq<Pending>, p: Pending, waiting: set<nat>)
    requires Fits(b, src) && IsInventoryAt(b.g, p.inv, p.word) && Atomic(src)
    requires Settled(b.g, src, stack, waiting) && stack == b.pending + [p]
    requires Step(b, src, p).Ok?
    ensures Settled(Step(b, src, p).value.g, src, Step(b, src, p).value.pending, waiting)
  {
    hide Step, Expand, Settled, Expanded;
    var l := Legacy.SplitWord(p.word, 1).0;
    var rt := Legacy.SplitWord(p.word, 1).1;
    var t := if rt in src then Some(src[rt]) else None;
    StepExpands(b, src, p);
    StepRequeues(b, src, p);
    StepResettles(b.g, Step(b, src, p).value.g, src, stack, b.pending, p, l, rt, t, Step(b, src, p).value.pending, waiting);
  }

  lemma StepKeepsWired(b: Build, src: Sources, p: Pending)
    requires Fits(b, src) && IsInventoryAt(b.g, p.inv, p.word)
    requires Step(b, src, p).Ok?
    ensures Wired(b.g) ==> Wired(Step(b, src, p).value.g)
  {
    hide Expand;
    var (l, rt) := Legacy.SplitWord(p.word, 1);
    var t := if rt in src then Some(src[rt]) else None;
    ExpandKeepsWired(b.g, p.inv, l, rt, Some(src[l]), t);
  }

  /** A successful step lowers the worklist measure of the `while` loop. */
  lemma StepShrinks(b: Build, src: Sources, p: Pending)
    requires Fits(b, src) && IsInventoryAt(b.g, p.inv, p.word)
    requires Step(b, src, p).Ok?
    ensures || Load(Step(b, src, p).value.pending) < Load(b.pending + [p])
            || (Load(Step(b, src, p).value.pending) == Load(b.pending + [p])
                && |Step(b, src, p).value.pending| <= |b.pending|)
  {
    StepRequeues(b, src, p);
    hide Step, Expand, Fits;
    LoadPush(b.pending, p);
    LoadPush(b.pending, Pending(|b.g| + 2, Legacy.SplitWord(p.word, 1).1));
  }

  /** One turn of the loop: pop the last entry, step on it, and go on with a
      smaller worklist measure. */
  lemma LoopPop(b: Build, src: Sources) returns (b1: Build, p: Pending)
    requires Fits(b, src) && b.pending != []
    ensures b1.g == b.g && b1.pending + [p] == b.pending
    ensures b1 == b.(pending := b.pending[..|b.pending| - 1]) && p == b.pending[|b.pending| - 1]
    ensures Fits(b1, src) && IsInventoryAt(b1.g, p.inv, p.word)
    ensures Step(b1, src, p).Err? ==> Loop(b, src) == Err(Step(b1, src, p).error)
    ensures Step(b1, src, p).Ok? ==>
      && Fits(Step(b1, src, p).value, src)
      && Loop(b, src) == Loop(Step(b1, src, p).value, src)
      && (|| Load(Step(b1, src, p).value.pending) < Load(b.pending)
          || (Load(Step(b1, src, p).value.pending) == Load(b.pending)
              && |Step(b1, src, p).value.pending| < |b.pending|))
  {
    hide Expand;
    var n := |b.pending| - 1;
    p := b.pending[n];
    b1 := b.(pending := b.pending[..n]);
    assert b1.pending + [p] == b.pending;
    if Step(b1, src, p).Ok? {
      StepFits(b1, src, p);
      StepShrinks(b1, src, p);
    }
  }

  /** The whole loop keeps the completeness invariant, ending with an empty
      worklist. */
  lemma {:induction false} LoopSettles(b: Build, src: Sources, waiting: set<nat>)
    requires Fits(b, src) && Atomic(src) && Settled(b.g, src, b.pending, waiting)
    requires Loop(b, src).Ok?
    ensures Settled(Loop(b, src).value.g, src, [], waiting)
    decreases Load(b.pending), |b.pending|
  {
    if b.pending != [] {
      var b1, p := LoopPop(b, src);
      hide Loop, Step, Expand, Fits, Settled;
      StepSettles(b1, src, b.pending, p, waiting);
      LoopSettles(Step(b1, src, p).value, src, waiting);
    }
  }

  lemma {:induction false} LoopKeepsWired(b: Build, src: Sources)
    requires Fits(b, src) && Loop(b, src).Ok?
    ensures Wired(b.g) ==> Wired(Loop(b, src).value.g)
    decreases Load(b.pending), |b.pending|
  {
    if b.pending != [] {
      var b1, p := LoopPop(b, src);
      hide Loop, Step, Expand, Fits, Wired;
      StepKeepsWired(b1, src, p);
      LoopKeepsWired(Step(b1, src, p).value, src);
    }
  }

  // ---------------------------------------------------------------------
  // Outcome

  /** Every queued word has at least two characters. */
  ghost predicate Long(ps: seq<Pending>) {
    forall k | 0 <= k < |ps| :: |ps[k].word| >= 2
  }

  lemma LongSnoc(ps: seq<Pending>, q: Pending)
    ensures Long(ps + [q]) <==> Long(ps) && |q.word| >= 2
  {
    assert forall k | 0 <= k < |ps| :: (ps + [q])[k] == ps[k];
    assert (ps + [q])[|ps|] == q;
  }

  /** Splitting a word of source characters after its first character: the
      left half has a Source exactly when the word is not empty, and the
      right half has one exactly when the word has two characters. */
  lemma FirstSplit(w: Word, src: Sources)
    requires Atomic(src) && AllCharsIn(w, src.Keys)
    ensures Legacy.SplitWord(w, 1).0 in src <==> |w| >= 1
    ensures Legacy.SplitWord(w, 1).1 in src <==> |w| == 2
    ensures |w| >= 1 ==> Legacy.SplitWord(w, 1).1 == w[1..]
    ensures |w| == 0 ==> Legacy.SplitWord(w, 1).0 == []
    ensures AllCharsIn(Legacy.SplitWord(w, 1).1, src.Keys)
  {
    var (l, rt) := Legacy.SplitWord(w, 1);
    if |w| >= 1 {
      assert l == [w[0]] && rt == w[1..];
      assert forall k | 0 <= k < |rt| :: rt[k] == w[k + 1];
      if |w| == 2 {
        assert rt == [w[1]];
      }
    }
  }

  /** A step on a word of source characters fails exactly on the empty word,
      with the empty left half as the missing Source, and queues the rest of
      the word unless it is a single character. */
  lemma StepOutcome(b: Build, src: Sources, p: Pending)
    requires Fits(b, src) && IsInventoryAt(b.g, p.inv, p.word)
    requires Atomic(src) && AllCharsIn(p.word, src.Keys)
    ensures Step(b, src, p).Err? <==> p.word == []
    ensures Step(b, src, p).Err? ==> Step(b, src, p).error == MissingSource([])
    ensures Step(b, src, p).Ok? && |p.word| == 2 ==> Step(b, src, p).value.pending == b.pending
    ensures Step(b, src, p).Ok? && |p.word| != 2 ==>
      && Step(b, src, p).value.pending == b.pending + [Pending(|b.g| + 2, p.word[1..])]
      && AllCharsIn(p.word[1..], src.Keys)
  {
    FirstSplit(p.word, src);
    if Step(b, src, p).Ok? {
      StepRequeues(b, src, p);
    }
  }

  /** With single-character sources and every queued word spelled with
      them, the loop succeeds exactly when every queued word has at least
      two characters; otherwise it stops on the empty word, which has no
      Source. */
  lemma {:induction false} LoopOutcome(b: Build, src: Sources)
    requires Fits(b, src) && Atomic(src) && Spelled(b.pending, src)
    ensures Loop(b, src).Ok? <==> Long(b.pending)
    ensures Loop(b, src).Err? ==> Loop(b, src).error == MissingSource([])
    decreases Load(b.pending), |b.pending|
  {
    if b.pending != [] {
      var b1, p := LoopPop(b, src);
      SpelledSnoc(b1.pending, p, src);
      LongSnoc(b1.pending, p);
      StepOutcome(b1, src, p);
      hide Loop, Step, Expand, Fits;
      if Step(b1, src, p).Ok? {
        var b2 := Step(b1, src, p).value;
        if |p.word| != 2 {
          SpelledSnoc(b1.pending, Pending(|b1.g| + 2, p.word[1..]), src);
          LongSnoc(b1.pending, Pending(|b1.g| + 2, p.word[1..]));
        }
        LoopOutcome(b2, src);
      }
    }
  }

  // ---------------------------------------------------------------------
  // The generator

  /** form_linear_assembly on the arena `generate` builds: the sink loop,
      then the `while` loop. */
  function FormLinear(g: Graph, src: Sources, sinks: Sinks): (r: Result<Graph>)
    requires SourcesFit(g, src) && SinksFit(g, sinks)
    ensures r.Ok? ==> Grows(g, r.value)
  {
    var b0 := Build(g, [], map[], map[]);
    var b1 := SupplySinks(b0, src, sinks);
    var b2 :- Loop(b1, src);
    GrowsTransitive(g, b1.g, b2.g);
    Ok(b2.g)
  }

  /** The generator as its two loops: the sink loop builds `b1`, and the
      outcome is that of the `while` loop on it. */
  lemma LinearUnfold(g: Graph, src: Sources, sinks: Sinks) returns (b1: Build)
    requires SourcesFit(g, src) && SinksFit(g, sinks)
    ensures Fits(Build(g, [], map[], map[]), src)
    ensures b1 == SupplySinks(Build(g, [], map[], map[]), src, sinks) && Fits(b1, src)
    ensures FormLinear(g, src, sinks).Ok? <==> Loop(b1, src).Ok?
    ensures FormLinear(g, src, sinks).Ok? ==> FormLinear(g, src, sinks).value == Loop(b1, src).value.g
    ensures FormLinear(g, src, sinks).Err? ==> FormLinear(g, src, sinks).error == Loop(b1, src).error
  {
    hide Loop, Step, Expand, SupplySinks, SupplyOne;
    b1 := SupplySinks(Build(g, [], map[], map[]), src, sinks);
  }

  /** The linear generator succeeds exactly when every output word has at
      least two characters, and otherwise fails on the empty left half of a
      one-character word. */
  lemma LinearOutcome(g: Graph, src: Sources, sinks: Sinks)
    requires Setting(g, src, sinks)
    ensures FormLinear(g, src, sinks).Ok? <==> forall j | 0 <= j < |sinks| :: |sinks[j].0| >= 2
    ensures FormLinear(g, src, sinks).Err? ==> FormLinear(g, src, sinks).error == MissingSource([])
  {
    SettingFacts(g, src, sinks);
    var b1 := LinearUnfold(g, src, sinks);
    hide *;
    SinkQueueWords(g, src, sinks);
    LoopOutcome(b1, src);
  }

  /** The sink loop queues the sink words, in order. */
  lemma SinkQueueWords(g: Graph, src: Sources, sinks: Sinks)
    requires SourcesFit(g, src) && SinksFit(g, sinks)
    requires forall j | 0 <= j < |sinks| :: AllCharsIn(sinks[j].0, src.Keys)
    requires Fits(Build(g, [], map[], map[]), src)
    ensures Spelled(SupplySinks(Build(g, [], map[], map[]), src, sinks).pending, src)
    ensures Long(SupplySinks(Build(g, [], map[], map[]), src, sinks).pending)
            <==> forall j | 0 <= j < |sinks| :: |sinks[j].0| >= 2
  {
    var b0 := Build(g, [], map[], map[]);
    hide SupplySinks, SupplyOne, Fits, SinksFit, SourcesFit;
    SupplySinksQueues(b0, src, sinks);
    var ps := SupplySinks(b0, src, sinks).pending;
    assert forall k | 0 <= k < |ps| :: ps[k].word == sinks[k].0;
  }

  /** Every edge the linear generator forms passes the node_types.py rules. */
  lemma LinearWired(g: Graph, src: Sources, sinks: Sinks)
    requires Setting(g, src, sinks)
    requires FormLinear(g, src, sinks).Ok?
    ensures Wired(FormLinear(g, src, sinks).value)
  {
    var b1 := LinearUnfold(g, src, sinks);
    hide FormLinear, Loop, Step, Expand, SupplySinks, SupplyOne;
    SettingSettled(g, src, sinks);
    SupplySinksKeepsWired(Build(g, [], map[], map[]), src, sinks);
    LoopKeepsWired(b1, src);
  }

  /** The completeness invariant holds, with nothing queued or waiting, on
      the arena the linear generator returns. */
  lemma LinearSettles(g: Graph, src: Sources, sinks: Sinks)
    requires Setting(g, src, sinks)
    requires FormLinear(g, src, sinks).Ok?
    ensures Settled(FormLinear(g, src, sinks).value, src, [], {})
  {
    var b1 := LinearUnfold(g, src, sinks);
    SettingSettled(g, src, sinks);
    SettingFacts(g, src, sinks);
    hide *;
    SupplySinksSettles(Build(g, [], map[], map[]), src, sinks, SinkIndices(sinks));
    assert SinkIndices(sinks) - SinkIndices(sinks) == {};
    LoopSettles(b1, src, {});
  }

  /** Whenever the linear generator succeeds, it keeps every edge admissible
      and leaves every node of the arena fully connected. */
  lemma LinearComplete(g: Graph, src: Sources, sinks: Sinks)
    requires Setting(g, src, sinks)
    requires FormLinear(g, src, sinks).Ok?
    ensures Wired(FormLinear(g, src, sinks).value)
    ensures forall i | 0 <= i < |FormLinear(g, src, sinks).value| :: FullyConnected(FormLinear(g, src, sinks).value, i)
  {
    var r := FormLinear(g, src, sinks).value;
    LinearWired(g, src, sinks);
    LinearSettles(g, src, sinks);
    hide FormLinear, Settled, Wired;
    CharSourcesGrow(g, r, src);
    DemandedGrows(g, r, src);
    SettledComplete(r, src);
  }
}
