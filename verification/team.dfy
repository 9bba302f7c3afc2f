/** form_product_focussed_team_assembly of wordmill/algorithms.py. Each sink
    word gets an Inventory feeding its Sink and, for every top-level split,
    a Machine of its own fed by two new Inventories: one team per split.
    Each team then supplies its two Inventories with a run of the
    bio-inspired loop that starts from an empty Machine cache and a cache
    holding only the team's two Inventories. Teams share nothing but the
    Sources. */
module Team {
  import opened Outcomes
  import opened Words
  import opened Nodes
  import opened Construction
  import opened Expansion
  import Bio

  /** One entry of `inventory_pairs`: the Inventories of the two halves of a
      top-level split. */
  datatype Pair = Pair(left: Pending, right: Pending)

  ghost predicate PairFits(g: Graph, p: Pair) {
    && IsInventoryAt(g, p.left.inv, p.left.word)
    && IsInventoryAt(g, p.right.inv, p.right.word)
  }

  ghost predicate PairsFit(g: Graph, ps: seq<Pair>) {
    forall k | 0 <= k < |ps| :: PairFits(g, ps[k])
  }

  lemma PairGrows(g: Graph, g': Graph, p: Pair)
    requires PairFits(g, p) && Grows(g, g')
    ensures PairFits(g', p)
  {
  }

  /** A pair made on `g1`, followed by pairs made on a later `g2`, all fit
      `g2`, which grows the first arena `g`. */
  lemma PairsLink(g: Graph, g1: Graph, g2: Graph, p: Pair, ps: seq<Pair>)
    requires Grows(g, g1) && PairFits(g1, p) && Grows(g1, g2) && PairsFit(g2, ps)
    ensures Grows(g, g2) && PairsFit(g2, [p] + ps)
  {
    GrowsTransitive(g, g1, g2);
    PairGrows(g1, g2, p);
    assert forall k | 1 <= k < |[p] + ps| :: ([p] + ps)[k] == ps[k - 1];
  }

  lemma PairsGrow(g: Graph, g': Graph, ps: seq<Pair>)
    requires PairsFit(g, ps) && Grows(g, g')
    ensures PairsFit(g', ps)
  {
  }

  lemma SourcesGrow(g: Graph, g': Graph, src: Sources)
    requires SourcesFit(g, src) && Extends(g, g')
    ensures SourcesFit(g', src)
  {
  }

  // ---------------------------------------------------------------------
  // The `for w_out, sink in sinks.items()` loop

  /** One iteration of `for i in range(1, len(w_out))`: Machine(l, r) feeding
      the sink word's Inventory, fed by a new Inventory(l) and a new
      Inventory(r), which form the next pair. */
  function Head(g: Graph, inv: nat, w: Word, i: nat): (r: (Graph, Pair))
    requires IsInventoryAt(g, inv, w) && 1 <= i < |w|
    ensures Grows(g, r.0) && PairFits(r.0, r.1)
  {
    assert w[..i] + w[i..] == w;
    ExpandFacts(g, inv, w[..i], w[i..], None, None);
    (Expand(g, inv, w[..i], w[i..], None, None), Pair(Pending(|g| + 1, w[..i]), Pending(|g| + 2, w[i..])))
  }

  /** The inner loop from split position `i` on. */
  function Heads(g: Graph, inv: nat, w: Word, i: nat): (r: (Graph, seq<Pair>))
    requires IsInventoryAt(g, inv, w) && 1 <= i
    ensures Grows(g, r.0) && PairsFit(r.0, r.1)
    decreases |w| - i
  {
    if i >= |w| then (g, [])
    else
      var h := Head(g, inv, w, i);
      InventoryStays(g, h.0, inv, w);
      var t := Heads(h.0, inv, w, i + 1);
      PairsLink(g, h.0, t.0, h.1, t.1);
      (t.0, [h.1] + t.1)
  }

  /** One iteration of the sink loop: an Inventory of the sink's word feeding
      the Sink, never queued, and its top-level splits. */
  function Front(g: Graph, w: Word, s: nat): (r: (Graph, seq<Pair>))
    requires IsSinkAt(g, s, w)
    ensures Grows(g, r.0) && PairsFit(r.0, r.1)
  {
    SupplyShapes(w);
    var (g1, inv) := AddNode(g, InventoryOf(w));
    var g2 := Connect(g1, inv, s);
    ExtendsTransitive(g, g1, g2);
    var (g3, ps) := Heads(g2, inv, w, 1);
    GrowsTransitive(g, g2, g3);
    (g3, ps)
  }

  /** The sink loop, in sink order, collecting `inventory_pairs`. */
  function Fronts(g: Graph, sinks: Sinks): (r: (Graph, seq<Pair>))
    requires SinksFit(g, sinks)
    ensures Grows(g, r.0) && PairsFit(r.0, r.1)
    decreases |sinks|
  {
    if sinks == [] then (g, [])
    else
      var n := |sinks| - 1;
      SinksFitInit(g, sinks);
      var (g1, ps1) := Fronts(g, sinks[..n]);
      SinksFitGrow(g, g1, sinks);
      var (g2, ps2) := Front(g1, sinks[n].0, sinks[n].1);
      GrowsTransitive(g, g1, g2);
      PairsGrow(g1, g2, ps1);
      (g2, ps1 + ps2)
  }

  // ---------------------------------------------------------------------
  // The `for inv_left, inv_right in inventory_pairs` loop

  /** A team's starting state: both Inventories queued, left first so that
      `pop()` takes the right one first, and recorded under their words, the
      right one winning when the words are equal, as in a dict display. */
  function Kickoff(g: Graph, p: Pair): Build {
    Build(g, [p.left, p.right], map[p.left.word := p.left.inv][p.right.word := p.right.inv], map[])
  }

  /** The words a team can come to hold: every factor of its two words. */
  ghost function Scope(p: Pair): set<Word> {
    Bio.Factors({p.left.word, p.right.word})
  }

  lemma KickoffFits(g: Graph, src: Sources, p: Pair)
    requires SourcesFit(g, src) && PairFits(g, p)
    ensures Fits(Kickoff(g, p), src)
    ensures Bio.Within(Kickoff(g, p).pending, Scope(p)) && Bio.SplitClosed(Scope(p))
  {
    KickoffWellFormed(g, src, p);
    var ws := {p.left.word, p.right.word};
    Bio.FactorsClosed(ws);
    hide *;
    KickoffWithin(p, ws, Scope(p));
  }

  lemma KickoffWellFormed(g: Graph, src: Sources, p: Pair)
    requires SourcesFit(g, src) && PairFits(g, p)
    ensures Fits(Kickoff(g, p), src)
  {
    var b := Kickoff(g, p);
    assert forall w | w in b.invs :: w == p.left.word || w == p.right.word;
  }

  lemma KickoffWithin(p: Pair, ws: set<Word>, univ: set<Word>)
    requires ws == {p.left.word, p.right.word} && ws <= univ
    ensures Bio.Within([p.left, p.right], univ)
  {
    var ps := [p.left, p.right];
    assert ps[0].word in ws && ps[1].word in ws;
  }

  /** One team: the bio-inspired `while` loop with no Machine sharing, since
      the team's `created_machines` is never written. */
  function Crew(g: Graph, src: Sources, p: Pair): (r: Graph)
    requires SourcesFit(g, src) && PairFits(g, p)
    ensures Grows(g, r)
  {
    KickoffFits(g, src, p);
    Bio.Loop(Kickoff(g, p), src, false, Scope(p)).g
  }

  /** The teams, in the order of `inventory_pairs`. */
  function Crews(g: Graph, src: Sources, ps: seq<Pair>): (r: Graph)
    requires SourcesFit(g, src) && PairsFit(g, ps)
    ensures Grows(g, r)
    decreases |ps|
  {
    if ps == [] then g
    else
      var n := |ps| - 1;
      var g1 := Crews(g, src, ps[..n]);
      SourcesGrow(g, g1, src);
      PairGrows(g, g1, ps[n]);
      var r := Crew(g1, src, ps[n]);
      GrowsTransitive(g, g1, r);
      r
  }

  /** form_product_focussed_team_assembly. */
  function FormTeam(g: Graph, src: Sources, sinks: Sinks): (r: Graph)
    requires SourcesFit(g, src) && SinksFit(g, sinks)
    ensures Grows(g, r)
  {
    var (g1, ps) := Fronts(g, sinks);
    SourcesGrow(g, g1, src);
    var r := Crews(g1, src, ps);
    GrowsTransitive(g, g1, r);
    r
  }

  // ---------------------------------------------------------------------
  // Every edge obeys the node rules

  lemma {:induction false} HeadsKeepsWired(g: Graph, inv: nat, w: Word, i: nat)
    requires IsInventoryAt(g, inv, w) && 1 <= i && Wired(g)
    ensures Wired(Heads(g, inv, w, i).0)
    decreases |w| - i
  {
    if i < |w| {
      var g1 := Head(g, inv, w, i).0;
      assert w[..i] + w[i..] == w;
      ExpandKeepsWired(g, inv, w[..i], w[i..], None, None);
      InventoryStays(g, g1, inv, w);
      HeadsKeepsWired(g1, inv, w, i + 1);
    }
  }

  lemma {:induction false} FrontsKeepWired(g: Graph, sinks: Sinks)
    requires SinksFit(g, sinks) && Wired(g)
    ensures Wired(Fronts(g, sinks).0)
    decreases |sinks|
  {
    if sinks != [] {
      var n := |sinks| - 1;
      var (w, s) := sinks[n];
      SinksFitInit(g, sinks);
      var g1 := Fronts(g, sinks[..n]).0;
      FrontsKeepWired(g, sinks[..n]);
      SinksFitGrow(g, g1, sinks);
      SupplyShapes(w);
      var (g2, inv) := AddNode(g1, InventoryOf(w));
      AppendKeepsWired(g1, Fresh(InventoryOf(w)));
      LinkKeepsWired(g2, inv, s);
      HeadsKeepsWired(Connect(g2, inv, s), inv, w, 1);
    }
  }

  lemma {:induction false} CrewsKeepWired(g: Graph, src: Sources, ps: seq<Pair>)
    requires SourcesFit(g, src) && PairsFit(g, ps) && Wired(g)
    ensures Wired(Crews(g, src, ps))
    decreases |ps|
  {
    if ps != [] {
      var n := |ps| - 1;
      var g1 := Crews(g, src, ps[..n]);
      CrewsKeepWired(g, src, ps[..n]);
      SourcesGrow(g, g1, src);
      PairGrows(g, g1, ps[n]);
      KickoffFits(g1, src, ps[n]);
      Bio.LoopKeepsWired(Kickoff(g1, ps[n]), src, false, Scope(ps[n]));
    }
  }

  /** Every edge the team generator forms passes the node rules. */
  lemma TeamWired(g: Graph, src: Sources, sinks: Sinks)
    requires SourcesFit(g, src) && SinksFit(g, sinks) && Wired(g)
    ensures Wired(FormTeam(g, src, sinks))
  {
    var (g1, ps) := Fronts(g, sinks);
    FrontsKeepWired(g, sinks);
    SourcesGrow(g, g1, src);
    CrewsKeepWired(g1, src, ps);
  }

  // ---------------------------------------------------------------------
  // Every top-level split gets its own Machine and Inventories

  /** Machine(l, r) at `n` feeds `inv` and is fed by Inventory(l) at `n + 1`
      and Inventory(r) at `n + 2`. */
  ghost predicate HeadAt(g: Graph, inv: nat, l: Word, r: Word, n: nat) {
    && inv < |g| && IsMachineAt(g, n, l, r)
    && IsInventoryAt(g, n + 1, l) && IsInventoryAt(g, n + 2, r)
    && n in g[inv].inputNodes
    && n + 1 in g[n].inputNodes && n + 2 in g[n].inputNodes
  }

  /** The pairs `ps` are the splits of `w` from position `i` on, in order,
      each with its own Machine at `base`, `base + 3`, ... */
  ghost predicate Headed(g: Graph, inv: nat, w: Word, i: nat, base: nat, ps: seq<Pair>) {
    forall k | 0 <= k < |ps| ::
      && i + k < |w|
      && ps[k] == Pair(Pending(base + 3 * k + 1, w[..i + k]), Pending(base + 3 * k + 2, w[i + k..]))
      && HeadAt(g, inv, w[..i + k], w[i + k..], base + 3 * k)
  }

  lemma HeadAtGrows(g: Graph, g': Graph, inv: nat, l: Word, r: Word, n: nat)
    requires HeadAt(g, inv, l, r, n) && Grows(g, g')
    ensures HeadAt(g', inv, l, r, n)
  {
    PrefixMember(g[inv].inputNodes, g'[inv].inputNodes, n);
    PrefixMember(g[n].inputNodes, g'[n].inputNodes, n + 1);
    PrefixMember(g[n].inputNodes, g'[n].inputNodes, n + 2);
  }

  lemma HeadFacts(g: Graph, inv: nat, w: Word, i: nat)
    requires IsInventoryAt(g, inv, w) && 1 <= i < |w|
    ensures var r := Head(g, inv, w, i);
      && |r.0| == |g| + 3
      && r.1 == Pair(Pending(|g| + 1, w[..i]), Pending(|g| + 2, w[i..]))
      && HeadAt(r.0, inv, w[..i], w[i..], |g|)
  {
    hide Expand, Grows, Wire, AddNodes;
    assert w[..i] + w[i..] == w;
    ExpandFacts(g, inv, w[..i], w[i..], None, None);
    NewEdgesListed(|g|, inv, None, None);
  }

  lemma HeadedCons(g: Graph, inv: nat, w: Word, i: nat, base: nat, p: Pair, ps: seq<Pair>)
    requires i < |w| && p == Pair(Pending(base + 1, w[..i]), Pending(base + 2, w[i..]))
    requires HeadAt(g, inv, w[..i], w[i..], base)
    requires Headed(g, inv, w, i + 1, base + 3, ps)
    ensures Headed(g, inv, w, i, base, [p] + ps)
  {
    forall k | 0 <= k < |[p] + ps|
      ensures && i + k < |w|
              && ([p] + ps)[k] == Pair(Pending(base + 3 * k + 1, w[..i + k]), Pending(base + 3 * k + 2, w[i + k..]))
              && HeadAt(g, inv, w[..i + k], w[i + k..], base + 3 * k)
    {
      if k > 0 {
        assert ([p] + ps)[k] == ps[k - 1];
        assert base + 3 * k == base + 3 + 3 * (k - 1);
        assert i + k == i + 1 + (k - 1);
      }
    }
  }

  /** The inner loop adds, for each split position from `i` on, a Machine of
      that split feeding `inv` and two fresh Inventories of its halves, and
      lists those Inventories as the next pairs. */
  lemma {:induction false} HeadsShape(g: Graph, inv: nat, w: Word, i: nat)
    requires IsInventoryAt(g, inv, w) && 1 <= i
    ensures var r := Heads(g, inv, w, i);
      && |r.1| == (if i < |w| then |w| - i else 0)
      && |r.0| == |g| + 3 * |r.1|
      && Headed(r.0, inv, w, i, |g|, r.1)
    decreases |w| - i
  {
    hide *;
    HeadsDone(g, inv, w, i);
    if i < |w| {
      var g1, p := HeadsUnfold(g, inv, w, i);
      HeadFacts(g, inv, w, i);
      var r := Heads(g1, inv, w, i + 1);
      HeadsShape(g1, inv, w, i + 1);
      assert |g1| == |g| + 3;
      HeadAtGrows(g1, r.0, inv, w[..i], w[i..], |g|);
      HeadedCons(r.0, inv, w, i, |g|, p, r.1);
    } else {
      HeadedNone(Heads(g, inv, w, i).0, inv, w, i, |g|);
    }
  }

  lemma HeadedNone(g: Graph, inv: nat, w: Word, i: nat, base: nat)
    ensures Headed(g, inv, w, i, base, [])
  {
  }

  lemma HeadsDone(g: Graph, inv: nat, w: Word, i: nat)
    requires IsInventoryAt(g, inv, w) && 1 <= i
    ensures i >= |w| ==> Heads(g, inv, w, i) == (g, [])
  {
  }

  lemma HeadsUnfold(g: Graph, inv: nat, w: Word, i: nat) returns (g1: Graph, p: Pair)
    requires IsInventoryAt(g, inv, w) && 1 <= i < |w|
    ensures g1 == Head(g, inv, w, i).0 && p == Head(g, inv, w, i).1 && IsInventoryAt(g1, inv, w)
    ensures var r := Heads(g1, inv, w, i + 1);
      && Grows(g1, r.0)
      && Heads(g, inv, w, i) == (r.0, [p] + r.1)
  {
    g1, p := Head(g, inv, w, i).0, Head(g, inv, w, i).1;
    InventoryStays(g, g1, inv, w);
  }

  /** Each sink word gets a new Inventory feeding its Sink, and behind it one
      Machine and two fresh Inventories for each of its top-level splits. */
  lemma FrontShape(g: Graph, w: Word, s: nat)
    requires IsSinkAt(g, s, w)
    ensures var r := Front(g, w, s);
      && IsInventoryAt(r.0, |g|, w) && |g| in r.0[s].inputNodes
      && |r.1| == (if |w| > 1 then |w| - 1 else 0)
      && |r.0| == |g| + 1 + 3 * |r.1|
      && Headed(r.0, |g|, w, 1, |g| + 1, r.1)
  {
    SupplyShapes(w);
    var (g1, inv) := AddNode(g, InventoryOf(w));
    var g2 := Connect(g1, inv, s);
    ExtendsTransitive(g, g1, g2);
    HeadsShape(g2, inv, w, 1);
    var g3 := Heads(g2, inv, w, 1).0;
    assert g2[s].inputNodes[|g1[s].inputNodes|] == inv;
    PrefixMember(g2[s].inputNodes, g3[s].inputNodes, inv);
  }

  /** The pairs' Inventories are distinct nodes of `lo .. hi - 1`, ascending
      in list order. */
  ghost predicate Ascending(ps: seq<Pair>, lo: nat, hi: nat) {
    && (forall k | 0 <= k < |ps| :: lo <= ps[k].left.inv < ps[k].right.inv < hi)
    && (forall k, k' | 0 <= k < k' < |ps| :: ps[k].right.inv < ps[k'].left.inv)
  }

  lemma HeadedAscending(g: Graph, inv: nat, w: Word, i: nat, base: nat, ps: seq<Pair>)
    requires Headed(g, inv, w, i, base, ps)
    ensures Ascending(ps, base, base + 3 * |ps|)
  {
    forall k, k' | 0 <= k < k' < |ps|
      ensures ps[k].right.inv < ps[k'].left.inv
    {
      assert ps[k].right.inv == base + 3 * k + 2 && ps[k'].left.inv == base + 3 * k' + 1;
    }
  }

  lemma AscendingJoin(a: seq<Pair>, b: seq<Pair>, lo: nat, mid: nat, hi: nat)
    requires lo <= mid <= hi && Ascending(a, lo, mid) && Ascending(b, mid, hi)
    ensures Ascending(a + b, lo, hi)
  {
    var c := a + b;
    forall k | 0 <= k < |c|
      ensures lo <= c[k].left.inv < c[k].right.inv < hi
    {
      if k < |a| {
        assert c[k] == a[k];
      } else {
        assert c[k] == b[k - |a|];
      }
    }
    forall k, k' | 0 <= k < k' < |c|
      ensures c[k].right.inv < c[k'].left.inv
    {
      if k' < |a| {
        assert c[k] == a[k] && c[k'] == a[k'];
      } else if k < |a| {
        assert c[k] == a[k] && c[k'] == b[k' - |a|];
      } else {
        assert c[k] == b[k - |a|] && c[k'] == b[k' - |a|];
      }
    }
  }

  /** Every top-level split of every sink word gets Inventories of its own:
      no two entries of `inventory_pairs` share a node, even when sink words
      share halves. */
  lemma {:induction false} FrontsFresh(g: Graph, sinks: Sinks)
    requires SinksFit(g, sinks)
    ensures var r := Fronts(g, sinks); Ascending(r.1, |g|, |r.0|)
    decreases |sinks|
  {
    hide *;
    if sinks == [] {
      FrontsNone(g, sinks);
    } else {
      var n := |sinks| - 1;
      var g1, ps1 := FrontsUnfold(g, sinks);
      FrontsFresh(g, sinks[..n]);
      var (g2, ps2) := Front(g1, sinks[n].0, sinks[n].1);
      FrontShape(g1, sinks[n].0, sinks[n].1);
      HeadedAscending(g2, |g1|, sinks[n].0, 1, |g1| + 1, ps2);
      AscendingJoin(ps1, ps2, |g|, |g1|, |g2|);
    }
  }

  lemma FrontsNone(g: Graph, sinks: Sinks)
    requires SinksFit(g, sinks) && sinks == []
    ensures var r := Fronts(g, sinks); Ascending(r.1, |g|, |r.0|)
  {
  }

  lemma FrontsUnfold(g: Graph, sinks: Sinks) returns (g1: Graph, ps1: seq<Pair>)
    requires SinksFit(g, sinks) && sinks != []
    ensures var n := |sinks| - 1;
      && SinksFit(g, sinks[..n])
      && (g1, ps1) == Fronts(g, sinks[..n])
      && |g| <= |g1|
      && IsSinkAt(g1, sinks[n].1, sinks[n].0)
      && var f := Front(g1, sinks[n].0, sinks[n].1);
         Fronts(g, sinks) == (f.0, ps1 + f.1)
  {
    var n := |sinks| - 1;
    SinksFitInit(g, sinks);
    g1, ps1 := Fronts(g, sinks[..n]).0, Fronts(g, sinks[..n]).1;
    SinksFitGrow(g, g1, sinks);
  }

  // ---------------------------------------------------------------------
  // Teams keep to themselves

  /** The nodes handed to the teams: the Inventories of every pair. */
  ghost function Handed(ps: seq<Pair>): set<nat> {
    (set k | 0 <= k < |ps| :: ps[k].left.inv) + (set k | 0 <= k < |ps| :: ps[k].right.inv)
  }

  lemma KickoffOwned(g: Graph, p: Pair)
    ensures Bio.Owned(Kickoff(g, p), |g|, {p.left.inv, p.right.inv})
  {
    var b := Kickoff(g, p);
    assert forall w | w in b.invs :: b.invs[w] == p.left.inv || b.invs[w] == p.right.inv;
  }

  /** A team changes no node of the arena it starts on except Sources and its
      own two Inventories. */
  lemma CrewFramed(g: Graph, src: Sources, p: Pair)
    requires SourcesFit(g, src) && PairFits(g, p)
    ensures Bio.Framed(g, Crew(g, src, p), {p.left.inv, p.right.inv})
  {
    KickoffFits(g, src, p);
    KickoffOwned(g, p);
    Bio.LoopFramed(Kickoff(g, p), src, false, Scope(p), g, {p.left.inv, p.right.inv});
  }

  lemma FramedThen(g0: Graph, g1: Graph, g2: Graph, keep: set<nat>, keep': set<nat>)
    requires Bio.Framed(g0, g1, keep) && Bio.Framed(g1, g2, keep') && keep' <= keep
    ensures Bio.Framed(g0, g2, keep)
  {
    ExtendsTransitive(g0, g1, g2);
  }

  lemma FramedWider(g0: Graph, g1: Graph, keep: set<nat>, keep': set<nat>)
    requires Bio.Framed(g0, g1, keep) && keep <= keep'
    ensures Bio.Framed(g0, g1, keep')
  {
  }

  lemma HandedInit(ps: seq<Pair>)
    requires ps != []
    ensures Handed(ps[..|ps| - 1]) <= Handed(ps)
    ensures {ps[|ps| - 1].left.inv, ps[|ps| - 1].right.inv} <= Handed(ps)
  {
    var n := |ps| - 1;
    forall x | x in Handed(ps[..n]) ensures x in Handed(ps) {
      var k :| 0 <= k < n && (ps[..n][k].left.inv == x || ps[..n][k].right.inv == x);
      assert ps[..n][k] == ps[k];
    }
  }

  /** All the teams together change no node of the arena they start on
      except Sources and the pairs' Inventories: the Inventory feeding each
      Sink and the top-level Machines get no further edges. */
  lemma {:induction false} CrewsFramed(g: Graph, src: Sources, ps: seq<Pair>)
    requires SourcesFit(g, src) && PairsFit(g, ps)
    ensures Bio.Framed(g, Crews(g, src, ps), Handed(ps))
    decreases |ps|
  {
    if ps == [] {
      ExtendsTransitive(g, g, g);
    } else {
      var n := |ps| - 1;
      var g1 := Crews(g, src, ps[..n]);
      CrewsFramed(g, src, ps[..n]);
      SourcesGrow(g, g1, src);
      PairGrows(g, g1, ps[n]);
      CrewFramed(g1, src, ps[n]);
      HandedInit(ps);
      FramedWider(g, g1, Handed(ps[..n]), Handed(ps));
      FramedThen(g, g1, Crew(g1, src, ps[n]), Handed(ps), {ps[n].left.inv, ps[n].right.inv});
    }
  }

  /** Within a team, sub-word Inventories are shared per word: the
      Inventories a team creates hold distinct words, and none holds either
      word of the team's own pair. */
  lemma CrewFresh(g: Graph, src: Sources, p: Pair)
    requires SourcesFit(g, src) && PairFits(g, p)
    ensures var r := Crew(g, src, p);
      && (forall i, j | |g| <= i < |r| && |g| <= j < |r| && r[i].shape.InventoryOf? && r[j].shape == r[i].shape :: i == j)
      && (forall i | |g| <= i < |r| && r[i].shape.InventoryOf? :: r[i].shape.w != p.left.word && r[i].shape.w != p.right.word)
  {
    KickoffFits(g, src, p);
    var b := Kickoff(g, p);
    var e := Bio.Loop(b, src, false, Scope(p));
    Bio.LoopStocked(b, src, false, Scope(p), |g|);
    Bio.StockedUnique(e, |g|);
    Bio.LoopKeeps(b, src, false, Scope(p));
    assert b.invs[p.left.word] < |g| && b.invs[p.right.word] < |g|;
  }

  /** At the start of a team nothing of its own is off the worklist: its
      two Inventories are queued and it has created nothing yet. */
  lemma KickoffWorked(g: Graph, src: Sources, p: Pair)
    ensures Bio.AllWorked(Kickoff(g, p), src, {p.left.inv, p.right.inv}, |g|)
  {
    var b := Kickoff(g, p);
    assert b.pending[0].inv == p.left.inv && b.pending[1].inv == p.right.inv;
  }

  /** The run of one team ends with every Inventory of its own worked on. */
  lemma CrewWorked(g: Graph, src: Sources, p: Pair) returns (e: Build)
    requires SourcesFit(g, src) && PairFits(g, p)
    ensures e.g == Crew(g, src, p) && Fits(e, src) && e.pending == []
    ensures Bio.AllWorked(e, src, {p.left.inv, p.right.inv}, |g|)
  {
    KickoffFits(g, src, p);
    KickoffWorked(g, src, p);
    Bio.LoopWorked(Kickoff(g, p), src, false, Scope(p), {p.left.inv, p.right.inv}, |g|);
    e := Bio.Loop(Kickoff(g, p), src, false, Scope(p));
  }

  /** A team leaves no Inventory of its own unexpanded: its two
      Inventories and every Inventory it creates are each fed by the
      word's Source or, for a word without one, produced at every split
      position by a Machine of the two halves fed by Inventories of both. */
  lemma CrewServes(g: Graph, src: Sources, p: Pair)
    requires SourcesFit(g, src) && PairFits(g, p)
    ensures var r := Crew(g, src, p);
      forall i | 0 <= i < |r| && r[i].shape.InventoryOf? && (i == p.left.inv || i == p.right.inv || |g| <= i) ::
        && (r[i].shape.w in src ==> src[r[i].shape.w] in r[i].inputNodes)
        && (r[i].shape.w !in src ==> forall j | 1 <= j < |r[i].shape.w| :: SplitFeeds(r, i, r[i].shape.w, j))
  {
    var e := CrewWorked(g, src, p);
    hide Fits, Crew, Bio.Served, SplitFeeds, PairFits, SourcesFit;
    forall i | 0 <= i < |e.g| && e.g[i].shape.InventoryOf? && (i == p.left.inv || i == p.right.inv || |g| <= i)
      ensures e.g[i].shape.w in src ==> src[e.g[i].shape.w] in e.g[i].inputNodes
      ensures e.g[i].shape.w !in src ==> forall j | 1 <= j < |e.g[i].shape.w| :: SplitFeeds(e.g, i, e.g[i].shape.w, j)
    {
      assert i in {p.left.inv, p.right.inv} || |g| <= i;
      assert Bio.Worked(e, src, i);
      var w := e.g[i].shape.w;
      forall j | 1 <= j < |w| && w !in src
        ensures SplitFeeds(e.g, i, w, j)
      {
        Bio.ServedFeeds(e, src, i, w, j);
      }
    }
  }

  /** The whole generator: the teams leave the Inventory feeding each Sink
      and every top-level Machine as the sink loop built them. */
  lemma TeamKeepsFronts(g: Graph, src: Sources, sinks: Sinks)
    requires SourcesFit(g, src) && SinksFit(g, sinks)
    ensures var f := Fronts(g, sinks);
      Bio.Framed(f.0, FormTeam(g, src, sinks), Handed(f.1))
  {
    var (g1, ps) := Fronts(g, sinks);
    SourcesGrow(g, g1, src);
    CrewsFramed(g1, src, ps);
  }
}
