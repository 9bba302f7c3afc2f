/** form_late_product_differentiation of wordmill/algorithms.py. A fixed list
    of standard words gets shared Inventories, created on first request. A
    queued word without a Source is rebuilt around the longest standard word
    occurring in it: the part before it (head) and the part after it (tail)
    get Inventories of their own, and at most two Machines put head, standard
    word and tail together. A word with no standard word in it is split
    after its first character. */
module Late {
  import opened Outcomes
  import opened Words
  import opened Nodes
  import Legacy
  import opened Construction
  import opened Expansion
  import Bio

  // ---------------------------------------------------------------------
  // Substring search

  /** `c` occurs in `w` at offset `a`. */
  ghost predicate OccursAt(c: Word, w: Word, a: int) {
    0 <= a && a + |c| <= |w| && w[a..a + |c|] == c
  }

  /** `str.index` from offset `a` on: the first offset at or after `a` where
      `c` occurs, if any. */
  function FindFrom(c: Word, w: Word, a: nat): (r: Option<nat>)
    ensures r.Some? ==> a <= r.value && OccursAt(c, w, r.value)
    ensures forall a' | a <= a' && (r.Some? ==> a' < r.value) :: !OccursAt(c, w, a')
    decreases |w| - a
  {
    if a + |c| > |w| then None
    else if w[a..a + |c|] == c then Some(a)
    else FindFrom(c, w, a + 1)
  }

  /** `c in w` for strings. */
  predicate Occurs(c: Word, w: Word) {
    FindFrom(c, w, 0).Some?
  }

  /** A word `get_longest_standard_product_in(w)` considers: a word other
      than `w` that occurs in `w`. */
  predicate Candidate(c: Word, w: Word) {
    c != w && Occurs(c, w)
  }

  /** `get_longest_standard_product_in`: the loop over the standard words,
      in order, keeping a candidate only when it is strictly longer than the
      best one so far. */
  function Longest(std: seq<Word>, w: Word): (r: Option<Word>)
    ensures r.Some? ==> r.value in std && Candidate(r.value, w)
    ensures r.None? ==> forall k | 0 <= k < |std| :: !Candidate(std[k], w)
    decreases |std|
  {
    if std == [] then None
    else
      var best := Longest(std[..|std| - 1], w);
      var c := std[|std| - 1];
      if Candidate(c, w) && (best.None? || |c| > |best.value|) then Some(c) else best
  }

  /** The first standard word of maximal length among the candidates. */
  ghost predicate IsLongest(std: seq<Word>, w: Word, c: Word) {
    && c in std && Candidate(c, w)
    && (forall k | 0 <= k < |std| && Candidate(std[k], w) :: |std[k]| <= |c|)
    && exists k | 0 <= k < |std| && std[k] == c ::
         forall j | 0 <= j < k && Candidate(std[j], w) :: |std[j]| < |c|
  }

  /** `str.index` finds the first occurrence, and `c in w` holds exactly
      when `c` occurs somewhere. */
  lemma OccursIff(c: Word, w: Word)
    ensures Occurs(c, w) <==> exists a :: OccursAt(c, w, a)
    ensures Occurs(c, w) ==> forall a | 0 <= a < FindFrom(c, w, 0).value :: !OccursAt(c, w, a)
  {
    if exists a :: OccursAt(c, w, a) {
      var a :| OccursAt(c, w, a);
      assert FindFrom(c, w, 0).Some?;
    }
  }

  /** The search returns nothing exactly when no standard word is a
      candidate, and otherwise the first candidate of maximal length. */
  lemma {:induction false} LongestSpec(std: seq<Word>, w: Word)
    ensures Longest(std, w).None? <==> forall k | 0 <= k < |std| :: !Candidate(std[k], w)
    ensures Longest(std, w).Some? ==> IsLongest(std, w, Longest(std, w).value)
    decreases |std|
  {
    if std != [] {
      var n := |std| - 1;
      var init := std[..n];
      var c := std[n];
      assert std == init + [c];
      LongestSpec(init, w);
      var best := Longest(init, w);
      if Candidate(c, w) && (best.None? || |c| > |best.value|) {
        LongestTakes(init, c, w);
      } else if best.Some? {
        LongestKeeps(init, c, w, best.value);
      } else {
        assert forall k | 0 <= k < |std| :: std[k] == c || std[k] == init[k];
      }
    }
  }

  /** A last standard word that is a candidate and longer than every
      earlier one is the longest. */
  lemma LongestTakes(init: seq<Word>, c: Word, w: Word)
    requires Candidate(c, w)
    requires Longest(init, w).None? ==> forall k | 0 <= k < |init| :: !Candidate(init[k], w)
    requires Longest(init, w).Some? ==>
      IsLongest(init, w, Longest(init, w).value) && |c| > |Longest(init, w).value|
    ensures IsLongest(init + [c], w, c)
  {
    var std := init + [c];
    forall j | 0 <= j < |std| - 1 && Candidate(std[j], w)
      ensures |std[j]| < |c|
    {
      assert std[j] == init[j];
    }
    assert std[|init|] == c;
  }

  /** A last standard word that is no candidate, or no longer than the best
      so far, leaves the best one. */
  lemma LongestKeeps(init: seq<Word>, c: Word, w: Word, b: Word)
    requires IsLongest(init, w, b) && (Candidate(c, w) ==> |c| <= |b|)
    ensures IsLongest(init + [c], w, b)
  {
    var std := init + [c];
    var k :| 0 <= k < |init| && init[k] == b &&
      forall j | 0 <= j < k && Candidate(init[j], w) :: |init[j]| < |b|;
    assert std[k] == b;
    forall j | 0 <= j < k && Candidate(std[j], w)
      ensures |std[j]| < |b|
    {
      assert std[j] == init[j];
    }
    forall j | 0 <= j < |std| && Candidate(std[j], w)
      ensures |std[j]| <= |b|
    {
      if j < |init| {
        assert std[j] == init[j];
      }
    }
  }

  /** `w[:w.index(c)]` and `w[w.index(c) + len(c):]`: the head before the
      first occurrence of `c` and the tail after it. */
  function Around(w: Word, c: Word): (r: (Word, Word))
    requires Occurs(c, w)
    ensures r.0 + c + r.1 == w
    ensures OccursAt(c, w, |r.0|) && forall a | 0 <= a < |r.0| :: !OccursAt(c, w, a)
  {
    var a := FindFrom(c, w, 0).value;
    PartsJoin(w, c, a);
    (w[..a], w[a + |c|..])
  }

  /** Head, standard word and tail put back together give the word. */
  lemma PartsJoin(w: Word, c: Word, a: nat)
    requires OccursAt(c, w, a)
    ensures w[..a] + c + w[a + |c|..] == w
    ensures |w[..a]| + |c| + |w[a + |c|..]| == |w|
  {
    assert w == w[..a] + w[a..a + |c|] + w[a + |c|..];
  }

  /** A worked example: in "abcd" the standard
      word "bc" is found at offset 1, leaving head "a" and tail "d". */
  lemma ScenarioParts()
    ensures Longest(["bc"], "abcd") == Some("bc")
    ensures FindFrom("bc", "abcd", 0) == Some(1)
    ensures "abcd"[..1] == "a" && "abcd"[1 + |"bc"|..] == "d"
  {
    assert FindFrom("bc", "abcd", 1) == Some(1) by {
      assert "abcd"[1..3] == "bc";
    }
    assert "abcd"[0..2] != "bc" by {
      assert "abcd"[0..2][0] == 'a';
    }
  }

  // ---------------------------------------------------------------------
  // The standard-inventory helper

  /** `get_inventory_for_standard_product` for a standard word: the cached
      Inventory, or a new one that is queued and cached. */
  function Shared(b: Build, src: Sources, std: seq<Word>, w: Word): (r: (Build, nat))
    requires Fits(b, src) && w in std
    ensures Fits(r.0, src) && Grows(b.g, r.0.g) && IsInventoryAt(r.0.g, r.1, w)
    ensures r.0.invs == b.invs[w := r.1] && r.0.machines == b.machines
    ensures Wired(b.g) ==> Wired(r.0.g)
  {
    if w in b.invs then (b, b.invs[w])
    else
      var (g1, k) := AddNode(b.g, InventoryOf(w));
      AppendKeepsWired(b.g, Fresh(InventoryOf(w)));
      FitsGrow(b, g1, src);
      FitsQueue(b.(g := g1), src, Pending(k, w));
      FitsRecord(b.(g := g1, pending := b.pending + [Pending(k, w)]), src, w, k);
      (Build(g1, b.pending + [Pending(k, w)], b.invs[w := k], b.machines), k)
  }

  /** The helper on any word: its assertion rejects a non-standard word. */
  function StandardInventory(b: Build, src: Sources, std: seq<Word>, w: Word): (r: Result<(Build, nat)>)
    requires Fits(b, src)
    ensures r.Err? <==> w !in std
    ensures r.Err? ==> r.error == NotStandard(w)
  {
    if w !in std then Err(NotStandard(w)) else Ok(Shared(b, src, std, w))
  }

  /** A standard word's Inventory is created and queued on the first
      request only: a cached word comes back unchanged, a new one gets one
      queued Inventory, and asking again changes nothing. */
  lemma StandardOnce(b: Build, src: Sources, std: seq<Word>, w: Word)
    requires Fits(b, src) && w in std
    ensures var r := StandardInventory(b, src, std, w).value;
      && (w in b.invs ==> r == (b, b.invs[w]))
      && (w !in b.invs ==>
            && r.1 == |b.g| && |r.0.g| == |b.g| + 1
            && r.0.pending == b.pending + [Pending(r.1, w)])
      && StandardInventory(r.0, src, std, w) == Ok(r)
  {
  }

  // ---------------------------------------------------------------------
  // One word

  /** The Inventory of a non-empty head or tail: the shared one for a
      standard word, otherwise a new, queued one. */
  function Piece(b: Build, src: Sources, std: seq<Word>, x: Word): (r: (Build, nat))
    requires Fits(b, src)
    ensures Fits(r.0, src) && Grows(b.g, r.0.g) && IsInventoryAt(r.0.g, r.1, x)
    ensures r.0.machines == b.machines
    ensures Wired(b.g) ==> Wired(r.0.g)
  {
    if x in std then Shared(b, src, std, x)
    else
      var (g1, k) := AddNode(b.g, InventoryOf(x));
      AppendKeepsWired(b.g, Fresh(InventoryOf(x)));
      FitsGrow(b, g1, src);
      FitsQueue(b.(g := g1), src, Pending(k, x));
      (b.(g := g1, pending := b.pending + [Pending(k, x)]), k)
  }

  /** `if len(x) > 0:` around `Piece`. */
  function MaybePiece(b: Build, src: Sources, std: seq<Word>, x: Word): (r: (Build, Option<nat>))
    requires Fits(b, src)
    ensures Fits(r.0, src) && Grows(b.g, r.0.g) && r.0.machines == b.machines
    ensures r.1.Some? <==> |x| > 0
    ensures r.1.Some? ==> IsInventoryAt(r.0.g, r.1.value, x)
    ensures Wired(b.g) ==> Wired(r.0.g)
  {
    if |x| == 0 then (b, None)
    else
      var (b1, k) := Piece(b, src, std, x);
      (b1, Some(k))
  }

  /** `form_edge(i, m)`: the Inventory `i` of `x` feeds the Machine(l, r)
      at `m`, for `x` one of `l` and `r`. */
  function Input(b: Build, src: Sources, i: nat, x: Word, m: nat, l: Word, r: Word): (res: Build)
    requires Fits(b, src) && IsInventoryAt(b.g, i, x) && IsMachineAt(b.g, m, l, r) && (x == l || x == r)
    ensures Fits(res, src) && Grows(b.g, res.g) && |res.g| == |b.g|
    ensures res.pending == b.pending && res.invs == b.invs && res.machines == b.machines
    ensures Wired(b.g) ==> Wired(res.g)
  {
    MachineShapes(l, r);
    JoinKeepsWired(b, src, i, m);
    Join(b, src, i, m)
  }

  /** `form_edge(m, inv)`: the Machine(l, r) at `m` feeds the Inventory of
      `l + r` at `inv`. */
  function Output(b: Build, src: Sources, m: nat, l: Word, r: Word, inv: nat): (res: Build)
    requires Fits(b, src) && IsMachineAt(b.g, m, l, r) && IsInventoryAt(b.g, inv, l + r)
    ensures Fits(res, src) && Grows(b.g, res.g) && |res.g| == |b.g|
    ensures res.pending == b.pending && res.invs == b.invs && res.machines == b.machines
    ensures Wired(b.g) ==> Wired(res.g)
  {
    MachineShapes(l, r);
    JoinKeepsWired(b, src, m, inv);
    Join(b, src, m, inv)
  }

  /** A new Machine(l, r), with no edges yet. */
  function NewMachine(b: Build, src: Sources, l: Word, r: Word): (res: Build)
    requires Fits(b, src)
    ensures Fits(res, src) && Grows(b.g, res.g) && |res.g| == |b.g| + 1
    ensures IsMachineAt(res.g, |b.g|, l, r)
    ensures res.pending == b.pending && res.invs == b.invs && res.machines == b.machines
    ensures Wired(b.g) ==> Wired(res.g)
  {
    AppendKeepsWired(b.g, Fresh(MachineOf(l, r)));
    var (g1, m) := AddNode(b.g, MachineOf(l, r));
    FitsGrow(b, g1, src);
    b.(g := g1)
  }

  /** A new Machine(l, r), fed by `i` and then `j`, feeding `inv`. */
  function Tie(b: Build, src: Sources, l: Word, r: Word, i: nat, j: nat, inv: nat): (res: Build)
    requires Fits(b, src) && IsInventoryAt(b.g, inv, l + r)
    requires IsInventoryAt(b.g, i, l) && IsInventoryAt(b.g, j, r)
    ensures Fits(res, src) && Grows(b.g, res.g) && |res.g| == |b.g| + 1
    ensures IsMachineAt(res.g, |b.g|, l, r)
    ensures res.pending == b.pending && res.invs == b.invs && res.machines == b.machines
    ensures Wired(b.g) ==> Wired(res.g)
  {
    var m := |b.g|;
    var b1 := NewMachine(b, src, l, r);
    var b2 := Input(b1, src, i, l, m, l, r);
    var b3 := Input(b2, src, j, r, m, l, r);
    var res := Output(b3, src, m, l, r, inv);
    GrowsTransitive(b.g, b1.g, b2.g);
    GrowsTransitive(b.g, b2.g, b3.g);
    GrowsTransitive(b.g, b3.g, res.g);
    res
  }

  /** A new Machine(l, r) feeding `inv`. */
  function Hook(b: Build, src: Sources, l: Word, r: Word, inv: nat): (res: Build)
    requires Fits(b, src) && IsInventoryAt(b.g, inv, l + r)
    ensures Fits(res, src) && Grows(b.g, res.g) && |res.g| == |b.g| + 1
    ensures IsMachineAt(res.g, |b.g|, l, r)
    ensures res.pending == b.pending && res.invs == b.invs && res.machines == b.machines
    ensures Wired(b.g) ==> Wired(res.g)
  {
    var b1 := NewMachine(b, src, l, r);
    var res := Output(b1, src, |b.g|, l, r, inv);
    GrowsTransitive(b.g, b1.g, res.g);
    res
  }

  /** The Machine `m`, a Machine(l, r), gets the input `x` from `ix`, then
      the input `c` from the shared Inventory of `c`, requested only now:
      the order of the head-and-tail branch. */
  function FillAfter(b: Build, src: Sources, std: seq<Word>, m: nat, l: Word, r: Word,
                     x: Word, ix: nat, c: Word): (res: Build)
    requires Fits(b, src) && c in std && IsMachineAt(b.g, m, l, r)
    requires (l == x && r == c) || (l == c && r == x)
    requires IsInventoryAt(b.g, ix, x)
    ensures Fits(res, src) && Grows(b.g, res.g) && res.machines == b.machines
    ensures Wired(b.g) ==> Wired(res.g)
  {
    var b1 := Input(b, src, ix, x, m, l, r);
    var (b2, ic) := Shared(b1, src, std, c);
    var res := Input(b2, src, ic, c, m, l, r);
    GrowsTransitive(b.g, b1.g, b2.g);
    GrowsTransitive(b.g, b2.g, res.g);
    res
  }

  /** The Machine `m`, a Machine(l, r), gets the input `c` from the shared
      Inventory of `c`, then the input `x` from `ix`: the order of the
      single-Machine branches. */
  function FillBefore(b: Build, src: Sources, std: seq<Word>, m: nat, l: Word, r: Word,
                      x: Word, ix: nat, c: Word): (res: Build)
    requires Fits(b, src) && c in std && IsMachineAt(b.g, m, l, r)
    requires (l == x && r == c) || (l == c && r == x)
    requires IsInventoryAt(b.g, ix, x)
    ensures Fits(res, src) && Grows(b.g, res.g) && res.machines == b.machines
    ensures Wired(b.g) ==> Wired(res.g)
  {
    var (b1, ic) := Shared(b, src, std, c);
    var b2 := Input(b1, src, ic, c, m, l, r);
    var res := Input(b2, src, ix, x, m, l, r);
    GrowsTransitive(b.g, b1.g, b2.g);
    GrowsTransitive(b.g, b2.g, res.g);
    res
  }

  /** A new, unqueued Inventory(head + c) at `|b.g|`, fed by a new
      Machine(head, c) at `|b.g| + 1`. */
  function Stage(b: Build, src: Sources, head: Word, c: Word): (r: Build)
    requires Fits(b, src)
    ensures Fits(r, src) && Grows(b.g, r.g) && |r.g| == |b.g| + 2
    ensures IsInventoryAt(r.g, |b.g|, head + c) && IsMachineAt(r.g, |b.g| + 1, head, c)
    ensures r.pending == b.pending && r.invs == b.invs && r.machines == b.machines
    ensures Wired(b.g) ==> Wired(r.g)
  {
    AppendKeepsWired(b.g, Fresh(InventoryOf(head + c)));
    var (g1, ii) := AddNode(b.g, InventoryOf(head + c));
    FitsGrow(b, g1, src);
    var r := Hook(b.(g := g1), src, head, c, ii);
    ExtendsTransitive(b.g, g1, r.g);
    r
  }

  /** The first half of the head-and-tail branch: the intermediate
      Inventory(head + c), fed by a new Machine(head, c) with inputs head
      then `c`. */
  function Intermediate(b: Build, src: Sources, std: seq<Word>, head: Word, c: Word, ih: nat): (r: (Build, nat))
    requires Fits(b, src) && c in std && IsInventoryAt(b.g, ih, head)
    ensures Fits(r.0, src) && Grows(b.g, r.0.g) && r.0.machines == b.machines
    ensures IsInventoryAt(r.0.g, r.1, head + c)
    ensures Wired(b.g) ==> Wired(r.0.g)
  {
    var b1 := Stage(b, src, head, c);
    InventoryStays(b.g, b1.g, ih, head);
    var b2 := FillAfter(b1, src, std, |b.g| + 1, head, c, head, ih, c);
    GrowsTransitive(b.g, b1.g, b2.g);
    (b2, |b.g|)
  }

  /** Head and tail both non-empty: the intermediate Inventory(head + c),
      then a new Machine(head + c, tail) with inputs Inventory(head + c)
      then tail, feeding the word's Inventory. */
  function Both(b: Build, src: Sources, std: seq<Word>, inv: nat, head: Word, c: Word, tail: Word,
                ih: nat, it: nat): (r: Build)
    requires Fits(b, src) && c in std && IsInventoryAt(b.g, inv, head + c + tail)
    requires IsInventoryAt(b.g, ih, head) && IsInventoryAt(b.g, it, tail)
    ensures Fits(r, src) && Grows(b.g, r.g) && r.machines == b.machines
    ensures Wired(b.g) ==> Wired(r.g)
  {
    var (b1, ii) := Intermediate(b, src, std, head, c, ih);
    InventoryStays(b.g, b1.g, it, tail);
    InventoryStays(b.g, b1.g, inv, head + c + tail);
    var r := Tie(b1, src, head + c, tail, ii, it, inv);
    GrowsTransitive(b.g, b1.g, r.g);
    r
  }

  /** Only one of head and tail non-empty: one new Machine(l, r) combining
      the standard word `c` with that side `x` feeds the word's Inventory,
      and is fed first by the shared Inventory of `c`, then by that of `x`. */
  function Single(b: Build, src: Sources, std: seq<Word>, inv: nat, l: Word, r: Word, c: Word,
                  x: Word, ix: nat): (res: Build)
    requires Fits(b, src) && c in std && IsInventoryAt(b.g, inv, l + r)
    requires (l == c && r == x) || (l == x && r == c)
    requires IsInventoryAt(b.g, ix, x)
    ensures Fits(res, src) && Grows(b.g, res.g) && res.machines == b.machines
    ensures Wired(b.g) ==> Wired(res.g)
  {
    var b1 := Hook(b, src, l, r, inv);
    var res := FillBefore(b1, src, std, |b.g|, l, r, x, ix, c);
    GrowsTransitive(b.g, b1.g, res.g);
    res
  }

  /** The Inventories of the non-empty head and tail, head first. */
  function Pieces(b: Build, src: Sources, std: seq<Word>, head: Word, tail: Word)
    : (r: (Build, Option<nat>, Option<nat>))
    requires Fits(b, src)
    ensures Fits(r.0, src) && Grows(b.g, r.0.g) && r.0.machines == b.machines
    ensures Wired(b.g) ==> Wired(r.0.g)
    ensures (r.1.Some? <==> |head| > 0) && (r.2.Some? <==> |tail| > 0)
    ensures r.1.Some? ==> IsInventoryAt(r.0.g, r.1.value, head)
    ensures r.2.Some? ==> IsInventoryAt(r.0.g, r.2.value, tail)
  {
    var (b1, oh) := MaybePiece(b, src, std, head);
    var (b2, ot) := MaybePiece(b1, src, std, tail);
    GrowsTransitive(b.g, b1.g, b2.g);
    if oh.Some? then InventoryStays(b1.g, b2.g, oh.value, head); (b2, oh, ot)
    else (b2, oh, ot)
  }

  /** The Machines of the standard-word branch: two when head and tail are
      both non-empty, one when only one of them is, none otherwise. */
  function Assemble(b: Build, src: Sources, std: seq<Word>, inv: nat, head: Word, c: Word, tail: Word,
                    oh: Option<nat>, ot: Option<nat>): (r: Build)
    requires Fits(b, src) && c in std && IsInventoryAt(b.g, inv, head + c + tail)
    requires (oh.Some? <==> |head| > 0) && (ot.Some? <==> |tail| > 0)
    requires oh.Some? ==> IsInventoryAt(b.g, oh.value, head)
    requires ot.Some? ==> IsInventoryAt(b.g, ot.value, tail)
    ensures Fits(r, src) && Grows(b.g, r.g) && r.machines == b.machines
    ensures Wired(b.g) ==> Wired(r.g)
  {
    if oh.Some? && ot.Some? then
      Both(b, src, std, inv, head, c, tail, oh.value, ot.value)
    else if oh.Some? then
      assert head + c + tail == head + c;
      Single(b, src, std, inv, head, c, c, head, oh.value)
    else if ot.Some? then
      assert head + c + tail == c + tail;
      Single(b, src, std, inv, c, tail, c, tail, ot.value)
    else b
  }

  /** The standard-word branch for the longest standard word `c` in the
      popped word: head and tail around its first occurrence get their
      Inventories, and then one or two Machines. */
  function Differentiate(b: Build, src: Sources, std: seq<Word>, p: Pending, c: Word): (r: Build)
    requires Fits(b, src) && IsInventoryAt(b.g, p.inv, p.word) && c in std && Candidate(c, p.word)
    ensures Fits(r, src) && Grows(b.g, r.g) && r.machines == b.machines
    ensures Wired(b.g) ==> Wired(r.g)
  {
    var parts := Around(p.word, c);
    var pcs := Pieces(b, src, std, parts.0, parts.1);
    InventoryStays(b.g, pcs.0.g, p.inv, p.word);
    var r := Assemble(pcs.0, src, std, p.inv, parts.0, c, parts.1, pcs.1, pcs.2);
    GrowsTransitive(b.g, pcs.0.g, r.g);
    r
  }

  /** The branch for a word with no standard word in it: Machine(w[..1],
      w[1..]) fed by two new Inventories, both queued, left first. */
  function Fallback(b: Build, src: Sources, p: Pending): (r: Build)
    requires Fits(b, src) && IsInventoryAt(b.g, p.inv, p.word)
    ensures Fits(r, src) && Grows(b.g, r.g) && r.invs == b.invs && r.machines == b.machines
    ensures Wired(b.g) ==> Wired(r.g)
  {
    var halves := Legacy.SplitWord(p.word, 1);
    var l := halves.0;
    var rt := halves.1;
    ExpandFacts(b.g, p.inv, l, rt, None, None);
    ExpandKeepsWired(b.g, p.inv, l, rt, None, None);
    var g' := Expand(b.g, p.inv, l, rt, None, None);
    FitsGrow(b, g', src);
    FitsQueue(b.(g := g'), src, Pending(|b.g| + 1, l));
    FitsQueue(b.(g := g', pending := b.pending + [Pending(|b.g| + 1, l)]), src, Pending(|b.g| + 2, rt));
    assert b.pending + [Pending(|b.g| + 1, l)] + [Pending(|b.g| + 2, rt)]
        == b.pending + [Pending(|b.g| + 1, l), Pending(|b.g| + 2, rt)];
    b.(g := g', pending := b.pending + [Pending(|b.g| + 1, l), Pending(|b.g| + 2, rt)])
  }

  /** The body of the `while` loop for the popped entry `p`. The source
      loops forever on a word shorter than two characters with no Source
      and no standard word in it (it queues the same word again), and on a
      non-standard word whose longest standard word is the empty word (the
      tail is then the word itself, queued again). */
  function Step(b: Build, src: Sources, std: seq<Word>, p: Pending): (r: Result<Build>)
    requires Fits(b, src) && IsInventoryAt(b.g, p.inv, p.word)
    ensures r.Err? <==>
      && p.word !in src
      && ((Longest(std, p.word).None? && |p.word| < 2)
          || (Longest(std, p.word) == Some([]) && p.word !in std))
    ensures r.Err? ==> r.error == Diverges(p.word)
    ensures r.Ok? ==> Fits(r.value, src) && Grows(b.g, r.value.g)
  {
    if p.word in src then
      FeedFacts(b, src, p);
      Ok(Feed(b, src, p))
    else
      match Longest(std, p.word)
      case None =>
        if |p.word| < 2 then Err(Diverges(p.word)) else Ok(Fallback(b, src, p))
      case Some(c) =>
        LongestSpec(std, p.word);
        if |c| == 0 && p.word !in std then Err(Diverges(p.word))
        else Ok(Differentiate(b, src, std, p, c))
  }

  // ---------------------------------------------------------------------
  // Termination of the `while` loop

  function StdSet(std: seq<Word>): set<Word> {
    set c | c in std
  }

  /** The standard words that have no cached Inventory yet. */
  ghost function Unmade(b: Build, std: seq<Word>): nat {
    |StdSet(std) - b.invs.Keys|
  }

  /** The sum of the weights of some words. */
  function Weights(ws: seq<Word>): nat {
    if ws == [] then 0 else Weights(ws[..|ws| - 1]) + Weight(ws[|ws| - 1])
  }

  /** What a part of a step does to the worklist and the cache: the worklist
      only grows at its end, by entries for words of `asks`; the cache keeps
      every entry and gains only standard words of `asks`; and while it
      gains none, the worklist gains exactly entries for the words `extra`. */
  ghost predicate Adds(b: Build, b': Build, std: seq<Word>, extra: seq<Word>, asks: set<Word>) {
    && b.invs.Keys <= b'.invs.Keys <= b.invs.Keys + (StdSet(std) * asks)
    && (forall x | x in b.invs :: b'.invs[x] == b.invs[x])
    && |b.pending| <= |b'.pending| && b'.pending[..|b.pending|] == b.pending
    && (forall k | |b.pending| <= k < |b'.pending| :: b'.pending[k].word in asks)
    && (b'.invs.Keys == b.invs.Keys ==>
          && |b'.pending| == |b.pending| + |extra|
          && forall k | 0 <= k < |extra| :: b'.pending[|b.pending| + k].word == extra[k])
  }

  lemma AddsSame(b: Build, b': Build, std: seq<Word>, a: set<Word>)
    requires b'.invs == b.invs && b'.pending == b.pending
    ensures Adds(b, b', std, [], a)
  {
  }

  lemma AddsThen(b1: Build, b2: Build, b3: Build, std: seq<Word>, e1: seq<Word>, e2: seq<Word>, a: set<Word>)
    requires Adds(b1, b2, std, e1, a) && Adds(b2, b3, std, e2, a)
    ensures Adds(b1, b3, std, e1 + e2, a)
  {
    assert b3.pending[..|b2.pending|][..|b1.pending|] == b3.pending[..|b1.pending|];
    forall k | |b1.pending| <= k < |b3.pending|
      ensures b3.pending[k].word in a
    {
      if k < |b2.pending| {
        assert b3.pending[..|b2.pending|][k] == b2.pending[k];
      }
    }
    if b3.invs.Keys == b1.invs.Keys {
      forall k | 0 <= k < |e1 + e2|
        ensures b3.pending[|b1.pending| + k].word == (e1 + e2)[k]
      {
        if k < |e1| {
          assert b3.pending[..|b2.pending|][|b1.pending| + k] == b2.pending[|b1.pending| + k];
        } else {
          assert b3.pending[|b2.pending| + (k - |e1|)].word == e2[k - |e1|];
        }
      }
    }
  }

  lemma AddsWider(b: Build, b': Build, std: seq<Word>, e: seq<Word>, a: set<Word>, a': set<Word>)
    requires Adds(b, b', std, e, a) && a <= a'
    ensures Adds(b, b', std, e, a')
  {
  }

  lemma SharedAdds(b: Build, src: Sources, std: seq<Word>, w: Word)
    requires Fits(b, src) && w in std
    ensures Adds(b, Shared(b, src, std, w).0, std, [], {w})
  {
    hide Fits, Grows, Wired;
    assert w in StdSet(std);
    if w !in b.invs {
      assert w in Shared(b, src, std, w).0.invs.Keys - b.invs.Keys;
    }
  }

  /** The words a non-empty head or tail may queue: itself. */
  function Asked(x: Word): set<Word> {
    if |x| == 0 then {} else {x}
  }

  /** The words a head or tail queues as an Inventory of its own. */
  function Extra(std: seq<Word>, x: Word): seq<Word> {
    if |x| == 0 || x in std then [] else [x]
  }

  lemma MaybePieceAdds(b: Build, src: Sources, std: seq<Word>, x: Word)
    requires Fits(b, src)
    ensures Adds(b, MaybePiece(b, src, std, x).0, std, Extra(std, x), Asked(x))
  {
    if |x| > 0 {
      if x in std {
        SharedAdds(b, src, std, x);
      } else {
        var r := MaybePiece(b, src, std, x).0;
        assert r.pending == b.pending + [Pending(|b.g|, x)];
        assert r.pending[..|b.pending|] == b.pending;
      }
    }
  }

  lemma FillAfterAdds(b: Build, src: Sources, std: seq<Word>, m: nat, l: Word, r: Word, x: Word, ix: nat, c: Word)
    requires Fits(b, src) && c in std && IsMachineAt(b.g, m, l, r)
    requires (l == x && r == c) || (l == c && r == x)
    requires IsInventoryAt(b.g, ix, x)
    ensures Adds(b, FillAfter(b, src, std, m, l, r, x, ix, c), std, [], {c})
  {
    hide *;
    var e: seq<Word> := [];
    assert e + e == e;
    var b1 := Input(b, src, ix, x, m, l, r);
    var s := Shared(b1, src, std, c);
    FillAfterUnfold(b, src, std, m, l, r, x, ix, c);
    AddsSame(b, b1, std, {c});
    SharedAdds(b1, src, std, c);
    AddsSame(s.0, Input(s.0, src, s.1, c, m, l, r), std, {c});
    AddsThen(b, b1, s.0, std, e, e, {c});
    AddsThen(b, s.0, Input(s.0, src, s.1, c, m, l, r), std, e, e, {c});
  }

  lemma FillBeforeAdds(b: Build, src: Sources, std: seq<Word>, m: nat, l: Word, r: Word, x: Word, ix: nat, c: Word)
    requires Fits(b, src) && c in std && IsMachineAt(b.g, m, l, r)
    requires (l == x && r == c) || (l == c && r == x)
    requires IsInventoryAt(b.g, ix, x)
    ensures Adds(b, FillBefore(b, src, std, m, l, r, x, ix, c), std, [], {c})
  {
    hide *;
    var e: seq<Word> := [];
    assert e + e == e;
    var s := Shared(b, src, std, c);
    FillBeforeUnfold(b, src, std, m, l, r, x, ix, c);
    var b2 := Input(s.0, src, s.1, c, m, l, r);
    SharedAdds(b, src, std, c);
    AddsSame(s.0, b2, std, {c});
    AddsSame(b2, Input(b2, src, ix, x, m, l, r), std, {c});
    AddsThen(b, s.0, b2, std, e, e, {c});
    AddsThen(b, b2, Input(b2, src, ix, x, m, l, r), std, e, e, {c});
  }

  lemma IntermediateAdds(b: Build, src: Sources, std: seq<Word>, head: Word, c: Word, ih: nat)
    requires Fits(b, src) && c in std && IsInventoryAt(b.g, ih, head)
    ensures Adds(b, Intermediate(b, src, std, head, c, ih).0, std, [], {c})
  {
    hide *;
    var b1 := Stage(b, src, head, c);
    InventoryStays(b.g, b1.g, ih, head);
    AddsSame(b, b1, std, {c});
    FillAfterAdds(b1, src, std, |b.g| + 1, head, c, head, ih, c);
    IntermediateUnfold(b, src, std, head, c, ih);
    var e: seq<Word> := [];
    assert e + e == e;
    AddsThen(b, b1, Intermediate(b, src, std, head, c, ih).0, std, e, e, {c});
  }

  lemma IntermediateUnfold(b: Build, src: Sources, std: seq<Word>, head: Word, c: Word, ih: nat)
    requires Fits(b, src) && c in std && IsInventoryAt(b.g, ih, head)
    ensures var b1 := Stage(b, src, head, c);
      && IsInventoryAt(b1.g, ih, head)
      && Intermediate(b, src, std, head, c, ih) == (FillAfter(b1, src, std, |b.g| + 1, head, c, head, ih, c), |b.g|)
  {
    hide Fits, Grows, Stage, FillAfter;
    InventoryStays(b.g, Stage(b, src, head, c).g, ih, head);
  }

  lemma BothAdds(b: Build, src: Sources, std: seq<Word>, inv: nat, head: Word, c: Word, tail: Word, ih: nat, it: nat)
    requires Fits(b, src) && c in std && IsInventoryAt(b.g, inv, head + c + tail)
    requires IsInventoryAt(b.g, ih, head) && IsInventoryAt(b.g, it, tail)
    ensures Adds(b, Both(b, src, std, inv, head, c, tail, ih, it), std, [], {c})
  {
    hide *;
    var e: seq<Word> := [];
    assert e + e == e;
    var i := Intermediate(b, src, std, head, c, ih);
    BothUnfold(b, src, std, inv, head, c, tail, ih, it);
    IntermediateAdds(b, src, std, head, c, ih);
    AddsSame(i.0, Tie(i.0, src, head + c, tail, i.1, it, inv), std, {c});
    AddsThen(b, i.0, Both(b, src, std, inv, head, c, tail, ih, it), std, e, e, {c});
  }

  lemma SingleAdds(b: Build, src: Sources, std: seq<Word>, inv: nat, l: Word, r: Word, c: Word, x: Word, ix: nat)
    requires Fits(b, src) && c in std && IsInventoryAt(b.g, inv, l + r)
    requires (l == c && r == x) || (l == x && r == c)
    requires IsInventoryAt(b.g, ix, x)
    ensures Adds(b, Single(b, src, std, inv, l, r, c, x, ix), std, [], {c})
  {
    hide *;
    var e: seq<Word> := [];
    assert e + e == e;
    var b1 := Hook(b, src, l, r, inv);
    SingleUnfold(b, src, std, inv, l, r, c, x, ix);
    AddsSame(b, b1, std, {c});
    FillBeforeAdds(b1, src, std, |b.g|, l, r, x, ix, c);
    AddsThen(b, b1, Single(b, src, std, inv, l, r, c, x, ix), std, e, e, {c});
  }

  lemma PiecesAdds(b: Build, src: Sources, std: seq<Word>, head: Word, tail: Word)
    requires Fits(b, src)
    ensures Adds(b, Pieces(b, src, std, head, tail).0, std, Extra(std, head) + Extra(std, tail),
                 Asked(head) + Asked(tail))
  {
    hide *;
    var b1 := MaybePiece(b, src, std, head).0;
    var a := Asked(head) + Asked(tail);
    MaybePieceAdds(b, src, std, head);
    PiecesUnfold(b, src, std, head, tail);
    MaybePieceAdds(b1, src, std, tail);
    AddsWider(b, b1, std, Extra(std, head), Asked(head), a);
    AddsWider(b1, Pieces(b, src, std, head, tail).0, std, Extra(std, tail), Asked(tail), a);
    AddsThen(b, b1, Pieces(b, src, std, head, tail).0, std, Extra(std, head), Extra(std, tail), a);
  }

  lemma PiecesUnfold(b: Build, src: Sources, std: seq<Word>, head: Word, tail: Word)
    requires Fits(b, src)
    ensures var b1 := MaybePiece(b, src, std, head).0;
      Fits(b1, src) && Pieces(b, src, std, head, tail).0 == MaybePiece(b1, src, std, tail).0
  {
    hide Fits, Grows, Wired, MaybePiece;
  }

  lemma AssembleAdds(b: Build, src: Sources, std: seq<Word>, inv: nat, head: Word, c: Word, tail: Word,
                     oh: Option<nat>, ot: Option<nat>)
    requires Fits(b, src) && c in std && IsInventoryAt(b.g, inv, head + c + tail)
    requires (oh.Some? <==> |head| > 0) && (ot.Some? <==> |tail| > 0)
    requires oh.Some? ==> IsInventoryAt(b.g, oh.value, head)
    requires ot.Some? ==> IsInventoryAt(b.g, ot.value, tail)
    ensures Adds(b, Assemble(b, src, std, inv, head, c, tail, oh, ot), std, [], {c})
  {
    if oh.Some? && ot.Some? {
      BothAdds(b, src, std, inv, head, c, tail, oh.value, ot.value);
    } else if oh.Some? {
      assert head + c + tail == head + c;
      SingleAdds(b, src, std, inv, head, c, c, head, oh.value);
    } else if ot.Some? {
      assert head + c + tail == c + tail;
      SingleAdds(b, src, std, inv, c, tail, c, tail, ot.value);
    } else {
      AddsSame(b, b, std, {c});
    }
  }

  /** A differentiation queues exactly the head and the tail that are
      non-empty and not standard, head first. */
  lemma DifferentiateAdds(b: Build, src: Sources, std: seq<Word>, p: Pending, c: Word)
    requires Fits(b, src) && IsInventoryAt(b.g, p.inv, p.word) && c in std && Candidate(c, p.word)
    ensures var (head, tail) := Around(p.word, c);
      Adds(b, Differentiate(b, src, std, p, c), std, Extra(std, head) + Extra(std, tail),
           Asked(head) + Asked(tail) + {c})
  {
    var parts := Around(p.word, c);
    hide *;
    var head := parts.0;
    var tail := parts.1;
    var pcs := Pieces(b, src, std, head, tail);
    var a := Asked(head) + Asked(tail) + {c};
    DifferentiateUnfold(b, src, std, p, c);
    PiecesAdds(b, src, std, head, tail);
    AssembleAdds(pcs.0, src, std, p.inv, head, c, tail, pcs.1, pcs.2);
    AddsWider(b, pcs.0, std, Extra(std, head) + Extra(std, tail), Asked(head) + Asked(tail), a);
    AddsWider(pcs.0, Differentiate(b, src, std, p, c), std, [], {c}, a);
    AddsThen(b, pcs.0, Differentiate(b, src, std, p, c), std, Extra(std, head) + Extra(std, tail), [], a);
    assert Extra(std, head) + Extra(std, tail) + [] == Extra(std, head) + Extra(std, tail);
  }

  /** The fallback queues the first character, then the rest. */
  lemma FallbackAdds(b: Build, src: Sources, std: seq<Word>, p: Pending)
    requires Fits(b, src) && IsInventoryAt(b.g, p.inv, p.word)
    ensures var halves := Legacy.SplitWord(p.word, 1);
      Adds(b, Fallback(b, src, p), std, [halves.0, halves.1], {halves.0, halves.1})
  {
    hide *;
    FallbackQueues(b, src, p);
    var halves := Legacy.SplitWord(p.word, 1);
    AddsPair(b, Fallback(b, src, p), std, halves.0, halves.1);
  }

  lemma FallbackQueues(b: Build, src: Sources, p: Pending)
    requires Fits(b, src) && IsInventoryAt(b.g, p.inv, p.word)
    ensures var halves := Legacy.SplitWord(p.word, 1);
      var r := Fallback(b, src, p);
      && r.invs == b.invs
      && r.pending == b.pending + [Pending(|b.g| + 1, halves.0), Pending(|b.g| + 2, halves.1)]
  {
    hide Fits, Grows, Wired, Expand;
  }

  lemma AddsPair(b: Build, b': Build, std: seq<Word>, x: Word, y: Word)
    requires b'.invs == b.invs
    requires exists i, j :: b'.pending == b.pending + [Pending(i, x), Pending(j, y)]
    ensures Adds(b, b', std, [x, y], {x, y})
  {
    assert b'.pending[..|b.pending|] == b.pending;
  }

  /** Step as its branches. */
  lemma StepCases(b: Build, src: Sources, std: seq<Word>, p: Pending)
    requires Fits(b, src) && IsInventoryAt(b.g, p.inv, p.word)
    ensures p.word in src ==> Step(b, src, std, p) == Ok(Feed(b, src, p))
    ensures p.word !in src && Longest(std, p.word).None? && |p.word| >= 2 ==>
              Step(b, src, std, p) == Ok(Fallback(b, src, p))
    ensures p.word !in src && Longest(std, p.word).Some? ==>
              && Longest(std, p.word).value in std && Candidate(Longest(std, p.word).value, p.word)
              && (Step(b, src, std, p).Ok? ==>
                    Step(b, src, std, p) == Ok(Differentiate(b, src, std, p, Longest(std, p.word).value)))
  {
    hide Feed, Fallback, Differentiate, Fits;
    LongestSpec(std, p.word);
  }

  /** The words one step queues while the cache gains nothing. */
  function StepExtra(src: Sources, std: seq<Word>, w: Word): seq<Word> {
    if w in src then []
    else match Longest(std, w)
      case None => [Legacy.SplitWord(w, 1).0, Legacy.SplitWord(w, 1).1]
      case Some(c) => if Occurs(c, w) then Extra(std, Around(w, c).0) + Extra(std, Around(w, c).1) else []
  }

  /** The words one step may queue or cache. */
  function StepAsks(src: Sources, std: seq<Word>, w: Word): set<Word> {
    if w in src then {}
    else match Longest(std, w)
      case None => {Legacy.SplitWord(w, 1).0, Legacy.SplitWord(w, 1).1}
      case Some(c) => if Occurs(c, w) then Asked(Around(w, c).0) + Asked(Around(w, c).1) + {c} else {}
  }

  /** Every successful step adds to the worklist and the cache as `Adds`
      describes, with the words of `StepExtra`. */
  lemma StepAdds(b: Build, src: Sources, std: seq<Word>, p: Pending)
    requires Fits(b, src) && IsInventoryAt(b.g, p.inv, p.word)
    requires Step(b, src, std, p).Ok?
    ensures Adds(b, Step(b, src, std, p).value, std, StepExtra(src, std, p.word), StepAsks(src, std, p.word))
  {
    StepCases(b, src, std, p);
    hide *;
    if p.word in src {
      FeedFacts(b, src, p);
      AddsSame(b, Feed(b, src, p), std, {});
    } else if Longest(std, p.word).None? {
      FallbackAdds(b, src, std, p);
    } else {
      DifferentiateAdds(b, src, std, p, Longest(std, p.word).value);
    }
  }

  /** The words a successful step queues weigh less than the popped word,
      or there are none. */
  lemma StepLighter(b: Build, src: Sources, std: seq<Word>, p: Pending)
    requires Fits(b, src) && IsInventoryAt(b.g, p.inv, p.word)
    requires Step(b, src, std, p).Ok?
    ensures StepExtra(src, std, p.word) == [] || Weights(StepExtra(src, std, p.word)) < Weight(p.word)
  {
    var w := p.word;
    if w !in src {
      LongestSpec(std, w);
      if Longest(std, w).None? {
        SplitLighter(w);
      } else {
        var c := Longest(std, w).value;
        assert |c| == 0 ==> w in std;
        AroundLighter(std, w, c);
      }
    }
  }

  lemma SplitLighter(w: Word)
    requires |w| >= 2
    ensures var halves := Legacy.SplitWord(w, 1);
      Weights([halves.0, halves.1]) < Weight(w)
  {
    var halves := Legacy.SplitWord(w, 1);
    WeightsPair(halves.0, halves.1);
  }

  lemma AroundLighter(std: seq<Word>, w: Word, c: Word)
    requires Candidate(c, w) && (|c| == 0 ==> w in std)
    ensures var parts := Around(w, c);
      var e := Extra(std, parts.0) + Extra(std, parts.1);
      e == [] || Weights(e) < Weight(w)
  {
    var parts := Around(w, c);
    if |c| == 0 {
      assert OccursAt(c, w, 0);
      assert parts.1 == w;
    } else {
      ExtraWeights(std, parts.0, parts.1);
    }
  }

  lemma WeightsPair(x: Word, y: Word)
    ensures Weights([x]) == Weight(x)
    ensures Weights([x, y]) == Weight(x) + Weight(y)
  {
    assert [x, y][..1] == [x];
    assert [x][..0] == [];
  }

  lemma ExtraWeights(std: seq<Word>, h: Word, t: Word)
    ensures Weights(Extra(std, h) + Extra(std, t)) <= Weight(h) + Weight(t)
  {
    WeightsPair(h, t);
    WeightsPair(t, h);
    assert Extra(std, h) + [] == Extra(std, h);
  }

  /** The load of a worklist that grew by entries for the words `e`. */
  lemma {:induction false} LoadExtend(ps: seq<Pending>, ps': seq<Pending>, e: seq<Word>)
    requires |ps'| == |ps| + |e| && ps'[..|ps|] == ps
    requires forall k | 0 <= k < |e| :: ps'[|ps| + k].word == e[k]
    ensures Load(ps') == Load(ps) + Weights(e)
    decreases |e|
  {
    if e == [] {
      assert ps' == ps;
    } else {
      var n := |ps'| - 1;
      var e0 := e[..|e| - 1];
      assert ps'[..n][..|ps|] == ps;
      forall k | 0 <= k < |e0|
        ensures ps'[..n][|ps| + k].word == e0[k]
      {
        assert ps'[|ps| + k].word == e[k];
      }
      LoadExtend(ps, ps'[..n], e0);
      assert ps'[n].word == e[|e| - 1] by {
        assert ps'[|ps| + (|e| - 1)].word == e[|e| - 1];
      }
    }
  }

  /** The measure of the `while` loop: the standard words not cached yet,
      then the load of the worklist, then its length. */
  lemma Shrinks(b: Build, b0: Build, r: Build, std: seq<Word>, p: Pending, e: seq<Word>, asks: set<Word>)
    requires b.pending == b0.pending + [p] && b0.invs == b.invs
    requires Adds(b0, r, std, e, asks) && (e == [] || Weights(e) < Weight(p.word))
    ensures Unmade(r, std) <= Unmade(b, std)
    ensures Unmade(r, std) == Unmade(b, std) ==>
      || Load(r.pending) < Load(b.pending)
      || (Load(r.pending) == Load(b.pending) && |r.pending| < |b.pending|)
  {
    if r.invs.Keys != b.invs.Keys {
      Bio.FewerUnstocked(StdSet(std), b.invs.Keys, r.invs.Keys);
    } else {
      LoadSame(b0, r, std, p, e, asks);
    }
  }

  lemma LoadSame(b0: Build, r: Build, std: seq<Word>, p: Pending, e: seq<Word>, asks: set<Word>)
    requires Adds(b0, r, std, e, asks) && r.invs.Keys == b0.invs.Keys
    requires e == [] || Weights(e) < Weight(p.word)
    ensures || Load(r.pending) < Load(b0.pending + [p])
            || (Load(r.pending) == Load(b0.pending + [p]) && |r.pending| < |b0.pending + [p]|)
  {
    LoadPush(b0.pending, p);
    LoadExtend(b0.pending, r.pending, e);
  }

  /** A successful step leaves a smaller measure. */
  lemma StepShrinks(b: Build, src: Sources, std: seq<Word>, b0: Build, p: Pending)
    requires Fits(b0, src) && IsInventoryAt(b0.g, p.inv, p.word)
    requires b.pending == b0.pending + [p] && b0.invs == b.invs
    requires Step(b0, src, std, p).Ok?
    ensures var r := Step(b0, src, std, p).value;
      && Unmade(r, std) <= Unmade(b, std)
      && (Unmade(r, std) == Unmade(b, std) ==>
            || Load(r.pending) < Load(b.pending)
            || (Load(r.pending) == Load(b.pending) && |r.pending| < |b.pending|))
  {
    hide *;
    StepAdds(b0, src, std, p);
    StepLighter(b0, src, std, p);
    Shrinks(b, b0, Step(b0, src, std, p).value, std, p, StepExtra(src, std, p.word), StepAsks(src, std, p.word));
  }

  // ---------------------------------------------------------------------
  // The `while` loop

  /** The `while` loop: pop the last entry and step on it until the worklist
      is empty, or until a step would never end. */
  function Loop(b: Build, src: Sources, std: seq<Word>): (r: Result<Build>)
    requires Fits(b, src)
    ensures r.Ok? ==> Fits(r.value, src) && Grows(b.g, r.value.g) && r.value.pending == []
    decreases Unmade(b, std), Load(b.pending), |b.pending|
  {
    if b.pending == [] then Ok(b)
    else
      var n := |b.pending| - 1;
      var p := b.pending[n];
      var b1 := b.(pending := b.pending[..n]);
      assert b1.pending + [p] == b.pending;
      FitsPop(b, src);
      var b2 :- Step(b1, src, std, p);
      StepShrinks(b, src, std, b1, p);
      var r :- Loop(b2, src, std);
      GrowsTransitive(b.g, b2.g, r.g);
      Ok(r)
  }

  lemma FillAfterUnfold(b: Build, src: Sources, std: seq<Word>, m: nat, l: Word, r: Word, x: Word, ix: nat, c: Word)
    requires Fits(b, src) && c in std && IsMachineAt(b.g, m, l, r)
    requires (l == x && r == c) || (l == c && r == x)
    requires IsInventoryAt(b.g, ix, x)
    ensures var b1 := Input(b, src, ix, x, m, l, r);
      var s := Shared(b1, src, std, c);
      && Fits(b1, src) && IsMachineAt(s.0.g, m, l, r)
      && FillAfter(b, src, std, m, l, r, x, ix, c) == Input(s.0, src, s.1, c, m, l, r)
  {
    hide Fits, Grows, Wired, Input, Shared;
    var b1 := Input(b, src, ix, x, m, l, r);
    MachineStays(b.g, b1.g, m, l, r);
    MachineStays(b1.g, Shared(b1, src, std, c).0.g, m, l, r);
  }

  lemma FillBeforeUnfold(b: Build, src: Sources, std: seq<Word>, m: nat, l: Word, r: Word, x: Word, ix: nat, c: Word)
    requires Fits(b, src) && c in std && IsMachineAt(b.g, m, l, r)
    requires (l == x && r == c) || (l == c && r == x)
    requires IsInventoryAt(b.g, ix, x)
    ensures var s := Shared(b, src, std, c);
      && IsMachineAt(s.0.g, m, l, r) && IsInventoryAt(s.0.g, ix, x)
      && var b2 := Input(s.0, src, s.1, c, m, l, r);
      && IsInventoryAt(b2.g, ix, x) && IsMachineAt(b2.g, m, l, r)
      && FillBefore(b, src, std, m, l, r, x, ix, c) == Input(b2, src, ix, x, m, l, r)
  {
    hide Fits, Grows, Wired, Input, Shared;
    var s := Shared(b, src, std, c);
    MachineStays(b.g, s.0.g, m, l, r);
    InventoryStays(b.g, s.0.g, ix, x);
    var b2 := Input(s.0, src, s.1, c, m, l, r);
    MachineStays(s.0.g, b2.g, m, l, r);
    InventoryStays(s.0.g, b2.g, ix, x);
  }

  lemma BothUnfold(b: Build, src: Sources, std: seq<Word>, inv: nat, head: Word, c: Word, tail: Word, ih: nat, it: nat)
    requires Fits(b, src) && c in std && IsInventoryAt(b.g, inv, head + c + tail)
    requires IsInventoryAt(b.g, ih, head) && IsInventoryAt(b.g, it, tail)
    ensures var i := Intermediate(b, src, std, head, c, ih);
      && IsInventoryAt(i.0.g, it, tail) && IsInventoryAt(i.0.g, inv, head + c + tail)
      && Both(b, src, std, inv, head, c, tail, ih, it) == Tie(i.0, src, head + c, tail, i.1, it, inv)
  {
    hide Fits, Grows, Wired, Intermediate, Tie;
    var i := Intermediate(b, src, std, head, c, ih);
    InventoryStays(b.g, i.0.g, it, tail);
    InventoryStays(b.g, i.0.g, inv, head + c + tail);
  }

  lemma SingleUnfold(b: Build, src: Sources, std: seq<Word>, inv: nat, l: Word, r: Word, c: Word, x: Word, ix: nat)
    requires Fits(b, src) && c in std && IsInventoryAt(b.g, inv, l + r)
    requires (l == c && r == x) || (l == x && r == c)
    requires IsInventoryAt(b.g, ix, x)
    ensures var b1 := Hook(b, src, l, r, inv);
      && IsInventoryAt(b1.g, ix, x)
      && Single(b, src, std, inv, l, r, c, x, ix) == FillBefore(b1, src, std, |b.g|, l, r, x, ix, c)
  {
    hide Fits, Grows, Wired, Hook, FillBefore;
    InventoryStays(b.g, Hook(b, src, l, r, inv).g, ix, x);
  }

  lemma DifferentiateUnfold(b: Build, src: Sources, std: seq<Word>, p: Pending, c: Word)
    requires Fits(b, src) && IsInventoryAt(b.g, p.inv, p.word) && c in std && Candidate(c, p.word)
    ensures var parts := Around(p.word, c);
      var pcs := Pieces(b, src, std, parts.0, parts.1);
      && IsInventoryAt(pcs.0.g, p.inv, parts.0 + c + parts.1)
      && Differentiate(b, src, std, p, c) == Assemble(pcs.0, src, std, p.inv, parts.0, c, parts.1, pcs.1, pcs.2)
  {
    hide Fits, Grows, Wired, Pieces, Assemble;
    var parts := Around(p.word, c);
    InventoryStays(b.g, Pieces(b, src, std, parts.0, parts.1).0.g, p.inv, p.word);
  }

  // ---------------------------------------------------------------------
  // The Machines each branch adds

  /** `form_edge(i, m)` makes `i` an input of `m`. */
  lemma InputFeeds(b: Build, src: Sources, i: nat, x: Word, m: nat, l: Word, r: Word)
    requires Fits(b, src) && IsInventoryAt(b.g, i, x) && IsMachineAt(b.g, m, l, r) && (x == l || x == r)
    ensures i in Input(b, src, i, x, m, l, r).g[m].inputNodes
  {
    MachineShapes(l, r);
  }

  /** `form_edge(m, inv)` makes `m` an input of `inv`. */
  lemma OutputFeeds(b: Build, src: Sources, m: nat, l: Word, r: Word, inv: nat)
    requires Fits(b, src) && IsMachineAt(b.g, m, l, r) && IsInventoryAt(b.g, inv, l + r)
    ensures m in Output(b, src, m, l, r, inv).g[inv].inputNodes
  {
    MachineShapes(l, r);
  }

  /** The Machine `Hook` creates feeds `inv`. */
  lemma HookFeeds(b: Build, src: Sources, l: Word, r: Word, inv: nat)
    requires Fits(b, src) && IsInventoryAt(b.g, inv, l + r)
    ensures |b.g| in Hook(b, src, l, r, inv).g[inv].inputNodes
  {
    var b1 := NewMachine(b, src, l, r);
    InventoryStays(b.g, b1.g, inv, l + r);
    OutputFeeds(b1, src, |b.g|, l, r, inv);
  }

  /** The new Machine(head, c) of `Stage` feeds the new Inventory(head + c). */
  lemma StageFeeds(b: Build, src: Sources, head: Word, c: Word)
    requires Fits(b, src)
    ensures |b.g| + 1 in Stage(b, src, head, c).g[|b.g|].inputNodes
  {
    var (g1, ii) := AddNode(b.g, InventoryOf(head + c));
    FitsGrow(b, g1, src);
    HookFeeds(b.(g := g1), src, head, c, ii);
  }

  /** The edges of `Tie`, formed one after the other, are all still there
      at the end. */
  lemma Linked(g: Graph, g2: Graph, g3: Graph, g4: Graph, m: nat, l: Word, r: Word, i: nat, j: nat, out: nat)
    requires Grows(g, g2) && Grows(g2, g3) && Grows(g3, g4)
    requires IsInventoryAt(g, i, l) && IsInventoryAt(g, j, r) && IsInventoryAt(g, out, l + r)
    requires IsMachineAt(g2, m, l, r)
    requires i in g2[m].inputNodes && j in g3[m].inputNodes && m in g4[out].inputNodes
    ensures Combines(g4, m, l, r, i, j, out)
  {
    PrefixMember(g2[m].inputNodes, g3[m].inputNodes, i);
    PrefixMember(g3[m].inputNodes, g4[m].inputNodes, i);
    PrefixMember(g3[m].inputNodes, g4[m].inputNodes, j);
  }

  /** A Machine hung below an Inventory keeps that edge while it gets its
      inputs. */
  lemma Hooked(g1: Graph, g2: Graph, m: nat, l: Word, r: Word, i: nat, j: nat, out: nat)
    requires Grows(g1, g2) && IsInventoryAt(g2, i, l) && IsInventoryAt(g2, j, r)
    requires IsMachineAt(g1, m, l, r) && IsInventoryAt(g1, out, l + r) && m in g1[out].inputNodes
    requires i in g2[m].inputNodes && j in g2[m].inputNodes
    ensures Combines(g2, m, l, r, i, j, out)
  {
    PrefixMember(g1[out].inputNodes, g2[out].inputNodes, m);
  }

  /** `Tie` puts the Inventories `i` and `j` together into `inv` through the
      new Machine(l, r) at the first free index. */
  lemma TieCombines(b: Build, src: Sources, l: Word, r: Word, i: nat, j: nat, inv: nat)
    requires Fits(b, src) && IsInventoryAt(b.g, inv, l + r)
    requires IsInventoryAt(b.g, i, l) && IsInventoryAt(b.g, j, r)
    ensures Combines(Tie(b, src, l, r, i, j, inv).g, |b.g|, l, r, i, j, inv)
  {
    var m := |b.g|;
    var b1 := NewMachine(b, src, l, r);
    InventoryStays(b.g, b1.g, i, l);
    InventoryStays(b.g, b1.g, j, r);
    InventoryStays(b.g, b1.g, inv, l + r);
    InputFeeds(b1, src, i, l, m, l, r);
    var b2 := Input(b1, src, i, l, m, l, r);
    InventoryStays(b1.g, b2.g, j, r);
    InventoryStays(b1.g, b2.g, inv, l + r);
    MachineStays(b1.g, b2.g, m, l, r);
    InputFeeds(b2, src, j, r, m, l, r);
    var b3 := Input(b2, src, j, r, m, l, r);
    InventoryStays(b2.g, b3.g, inv, l + r);
    MachineStays(b2.g, b3.g, m, l, r);
    OutputFeeds(b3, src, m, l, r, inv);
    var res := Output(b3, src, m, l, r, inv);
    assert Tie(b, src, l, r, i, j, inv) == res;
    GrowsTransitive(b.g, b1.g, b2.g);
    Linked(b.g, b2.g, b3.g, res.g, m, l, r, i, j, inv);
  }

  /** `FillAfter` gives the Machine `m` both its inputs: `ix` and the shared
      Inventory of `c`, which it caches. */
  lemma FillAfterFeeds(b: Build, src: Sources, std: seq<Word>, m: nat, l: Word, r: Word, x: Word, ix: nat, c: Word)
    requires Fits(b, src) && c in std && IsMachineAt(b.g, m, l, r)
    requires (l == x && r == c) || (l == c && r == x)
    requires IsInventoryAt(b.g, ix, x)
    ensures var res := FillAfter(b, src, std, m, l, r, x, ix, c);
      && c in res.invs && IsInventoryAt(res.g, res.invs[c], c)
      && ix in res.g[m].inputNodes && res.invs[c] in res.g[m].inputNodes
  {
    FillAfterUnfold(b, src, std, m, l, r, x, ix, c);
    InputFeeds(b, src, ix, x, m, l, r);
    var b1 := Input(b, src, ix, x, m, l, r);
    var s := Shared(b1, src, std, c);
    InputFeeds(s.0, src, s.1, c, m, l, r);
    var res := Input(s.0, src, s.1, c, m, l, r);
    PrefixMember(b1.g[m].inputNodes, s.0.g[m].inputNodes, ix);
    PrefixMember(s.0.g[m].inputNodes, res.g[m].inputNodes, ix);
  }

  /** `FillBefore` gives the Machine `m` both its inputs: the shared
      Inventory of `c`, which it caches, and `ix`. */
  lemma FillBeforeFeeds(b: Build, src: Sources, std: seq<Word>, m: nat, l: Word, r: Word, x: Word, ix: nat, c: Word)
    requires Fits(b, src) && c in std && IsMachineAt(b.g, m, l, r)
    requires (l == x && r == c) || (l == c && r == x)
    requires IsInventoryAt(b.g, ix, x)
    ensures var res := FillBefore(b, src, std, m, l, r, x, ix, c);
      && c in res.invs && IsInventoryAt(res.g, res.invs[c], c)
      && ix in res.g[m].inputNodes && res.invs[c] in res.g[m].inputNodes
  {
    FillBeforeUnfold(b, src, std, m, l, r, x, ix, c);
    var s := Shared(b, src, std, c);
    InputFeeds(s.0, src, s.1, c, m, l, r);
    var b2 := Input(s.0, src, s.1, c, m, l, r);
    InputFeeds(b2, src, ix, x, m, l, r);
    var res := Input(b2, src, ix, x, m, l, r);
    PrefixMember(b2.g[m].inputNodes, res.g[m].inputNodes, s.1);
  }

  /** The intermediate Inventory(head + c) is the first new node, fed by
      Machine(head, c), which is fed by `ih` and the shared Inventory of `c`. */
  lemma IntermediateCombines(b: Build, src: Sources, std: seq<Word>, head: Word, c: Word, ih: nat)
    requires Fits(b, src) && c in std && IsInventoryAt(b.g, ih, head)
    ensures var r := Intermediate(b, src, std, head, c, ih);
      && r.1 == |b.g| && c in r.0.invs
      && Combines(r.0.g, |b.g| + 1, head, c, ih, r.0.invs[c], r.1)
  {
    hide Fits, Grows, Wired, Stage, FillAfter, Combines;
    var b1 := Stage(b, src, head, c);
    StageFeeds(b, src, head, c);
    InventoryStays(b.g, b1.g, ih, head);
    FillAfterFeeds(b1, src, std, |b.g| + 1, head, c, head, ih, c);
    var b2 := FillAfter(b1, src, std, |b.g| + 1, head, c, head, ih, c);
    assert Intermediate(b, src, std, head, c, ih) == (b2, |b.g|);
    InventoryStays(b1.g, b2.g, ih, head);
    MachineStays(b1.g, b2.g, |b.g| + 1, head, c);
    InventoryStays(b1.g, b2.g, |b.g|, head + c);
    Hooked(b1.g, b2.g, |b.g| + 1, head, c, ih, b2.invs[c], |b.g|);
  }

  /** The two Machines of the head-and-tail branch: Machine(head, c), fed by
      the Inventory `ih` of head and the Inventory `ic` of `c`, feeds an
      Inventory of head + c, and that Inventory, with the Inventory `it` of
      tail, feeds Machine(head + c, tail), which feeds `inv`. */
  ghost predicate Chained(g: Graph, inv: nat, head: Word, c: Word, tail: Word, ih: nat, ic: nat, it: nat) {
    exists ii, m1, m2 :: Combines(g, m1, head, c, ih, ic, ii) && Combines(g, m2, head + c, tail, ii, it, inv)
  }

  /** Head and tail both non-empty: `inv` is rebuilt as (head + c) + tail,
      with head + c rebuilt as head + c. */
  lemma BothChains(b: Build, src: Sources, std: seq<Word>, inv: nat, head: Word, c: Word, tail: Word, ih: nat, it: nat)
    requires Fits(b, src) && c in std && IsInventoryAt(b.g, inv, head + c + tail)
    requires IsInventoryAt(b.g, ih, head) && IsInventoryAt(b.g, it, tail)
    ensures var r := Both(b, src, std, inv, head, c, tail, ih, it);
      c in r.invs && Chained(r.g, inv, head, c, tail, ih, r.invs[c], it)
  {
    hide Fits, Grows, Wired, Intermediate, Tie, Combines;
    BothUnfold(b, src, std, inv, head, c, tail, ih, it);
    IntermediateCombines(b, src, std, head, c, ih);
    var i := Intermediate(b, src, std, head, c, ih);
    TieCombines(i.0, src, head + c, tail, i.1, it, inv);
    var r := Tie(i.0, src, head + c, tail, i.1, it, inv);
    CombinesStays(i.0.g, r.g, |b.g| + 1, head, c, ih, i.0.invs[c], i.1);
    assert Combines(r.g, |i.0.g|, head + c, tail, i.1, it, inv);
  }

  /** Only one side non-empty: one new Machine, at the first free index,
      puts that side's Inventory `ix` and the shared Inventory of `c`
      together into `inv`. */
  lemma SingleCombines(b: Build, src: Sources, std: seq<Word>, inv: nat, l: Word, r: Word, c: Word, x: Word, ix: nat)
    requires Fits(b, src) && c in std && IsInventoryAt(b.g, inv, l + r)
    requires (l == c && r == x) || (l == x && r == c)
    requires IsInventoryAt(b.g, ix, x)
    ensures var res := Single(b, src, std, inv, l, r, c, x, ix);
      && c in res.invs
      && (l == x && r == c ==> Combines(res.g, |b.g|, l, r, ix, res.invs[c], inv))
      && (l == c && r == x ==> Combines(res.g, |b.g|, l, r, res.invs[c], ix, inv))
  {
    SingleUnfold(b, src, std, inv, l, r, c, x, ix);
    HookFeeds(b, src, l, r, inv);
    var b1 := Hook(b, src, l, r, inv);
    InventoryStays(b.g, b1.g, inv, l + r);
    FillBeforeFeeds(b1, src, std, |b.g|, l, r, x, ix, c);
    var res := FillBefore(b1, src, std, |b.g|, l, r, x, ix, c);
    InventoryStays(b1.g, res.g, ix, x);
    if l == x && r == c {
      Hooked(b1.g, res.g, |b.g|, l, r, ix, res.invs[c], inv);
    }
    if l == c && r == x {
      Hooked(b1.g, res.g, |b.g|, l, r, res.invs[c], ix, inv);
    }
  }

  /** With an empty head or tail the word is `c` and the other side. */
  lemma OneSided(head: Word, c: Word, tail: Word)
    ensures |tail| == 0 ==> head + c + tail == head + c
    ensures |head| == 0 ==> head + c + tail == c + tail
  {
  }

  /** The Inventory `inv` of head + c + tail is rebuilt around the standard
      word `c`, whose shared Inventory is cached: through Machine(head, c)
      and Machine(head + c, tail) when head and tail are both non-empty, and
      through one Machine of `c` and the non-empty side otherwise. */
  ghost predicate Rebuilt(b: Build, inv: nat, head: Word, c: Word, tail: Word) {
    && c in b.invs
    && (|head| > 0 && |tail| > 0 ==> exists ih, it :: Chained(b.g, inv, head, c, tail, ih, b.invs[c], it))
    && (|head| > 0 && |tail| == 0 ==> exists m, ih :: Combines(b.g, m, head, c, ih, b.invs[c], inv))
    && (|head| == 0 && |tail| > 0 ==> exists m, it :: Combines(b.g, m, c, tail, b.invs[c], it, inv))
  }

  /** The Machines `Assemble` adds: Machine(head, c) and Machine(head + c,
      tail) when head and tail are both non-empty; with only one of them
      non-empty, one new Machine, at the first free index, fed by that
      side's Inventory and the shared Inventory of `c`; nothing otherwise. */
  lemma AssembleBuilds(b: Build, src: Sources, std: seq<Word>, inv: nat, head: Word, c: Word, tail: Word,
                       oh: Option<nat>, ot: Option<nat>)
    requires Fits(b, src) && c in std && IsInventoryAt(b.g, inv, head + c + tail)
    requires (oh.Some? <==> |head| > 0) && (ot.Some? <==> |tail| > 0)
    requires oh.Some? ==> IsInventoryAt(b.g, oh.value, head)
    requires ot.Some? ==> IsInventoryAt(b.g, ot.value, tail)
    ensures var r := Assemble(b, src, std, inv, head, c, tail, oh, ot);
      && (|head| > 0 && |tail| > 0 ==>
            c in r.invs && Chained(r.g, inv, head, c, tail, oh.value, r.invs[c], ot.value))
      && (|head| > 0 && |tail| == 0 ==>
            c in r.invs && Combines(r.g, |b.g|, head, c, oh.value, r.invs[c], inv))
      && (|head| == 0 && |tail| > 0 ==>
            c in r.invs && Combines(r.g, |b.g|, c, tail, r.invs[c], ot.value, inv))
      && (|head| == 0 && |tail| == 0 ==> r == b)
  {
    OneSided(head, c, tail);
    if |head| > 0 && |tail| > 0 {
      BothChains(b, src, std, inv, head, c, tail, oh.value, ot.value);
    } else if |head| > 0 {
      SingleCombines(b, src, std, inv, head, c, c, head, oh.value);
    } else if |tail| > 0 {
      SingleCombines(b, src, std, inv, c, tail, c, tail, ot.value);
    }
  }

  /** The standard-word branch rebuilds the popped word's Inventory around
      the first occurrence of `c`. */
  lemma DifferentiateRebuilds(b: Build, src: Sources, std: seq<Word>, p: Pending, c: Word)
    requires Fits(b, src) && IsInventoryAt(b.g, p.inv, p.word) && c in std && Candidate(c, p.word)
    ensures Rebuilt(Differentiate(b, src, std, p, c), p.inv, Around(p.word, c).0, c, Around(p.word, c).1)
  {
    var parts := Around(p.word, c);
    DifferentiateUnfold(b, src, std, p, c);
    var pcs := Pieces(b, src, std, parts.0, parts.1);
    AssembleBuilds(pcs.0, src, std, p.inv, parts.0, c, parts.1, pcs.1, pcs.2);
  }

  /** The no-standard-word branch: Machine(w[..1], w[1..]), at the first
      free index, puts the two new Inventories after it together into the
      popped word's Inventory. */
  lemma FallbackCombines(b: Build, src: Sources, p: Pending)
    requires Fits(b, src) && IsInventoryAt(b.g, p.inv, p.word)
    ensures var halves := Legacy.SplitWord(p.word, 1);
      Combines(Fallback(b, src, p).g, |b.g|, halves.0, halves.1, |b.g| + 1, |b.g| + 2, p.inv)
  {
    hide Fits, Wired, Expand, Expanded, Combines;
    var halves := Legacy.SplitWord(p.word, 1);
    ExpandFacts(b.g, p.inv, halves.0, halves.1, None, None);
    ExpandedCombines(b.g, Expand(b.g, p.inv, halves.0, halves.1, None, None), p.inv, halves.0, halves.1, None, None);
  }

  /** What one turn of the loop builds for the popped word: an edge from its
      Source when it has one; otherwise, around the longest standard word
      in it, the Machines `Rebuilt` describes; and with no standard word in
      it, Machine(w[..1], w[1..]) fed by two new Inventories, both queued. */
  lemma StepServes(b: Build, src: Sources, std: seq<Word>, p: Pending)
    requires Fits(b, src) && IsInventoryAt(b.g, p.inv, p.word)
    ensures var r := Step(b, src, std, p);
      && (r.Ok? && p.word in src ==> src[p.word] in r.value.g[p.inv].inputNodes)
      && (r.Ok? && p.word !in src && Longest(std, p.word).Some? ==>
            var c := Longest(std, p.word).value;
            Rebuilt(r.value, p.inv, Around(p.word, c).0, c, Around(p.word, c).1))
      && (r.Ok? && p.word !in src && Longest(std, p.word).None? ==>
            var halves := Legacy.SplitWord(p.word, 1);
            && Combines(r.value.g, |b.g|, halves.0, halves.1, |b.g| + 1, |b.g| + 2, p.inv)
            && r.value.pending == b.pending + [Pending(|b.g| + 1, halves.0), Pending(|b.g| + 2, halves.1)])
  {
    hide Fits, Grows, Wired, Feed, Fallback, Differentiate, Rebuilt, Combines;
    if p.word in src {
      FeedFacts(b, src, p);
    } else if Longest(std, p.word).None? {
      FallbackCombines(b, src, p);
      FallbackQueues(b, src, p);
    } else {
      LongestSpec(std, p.word);
      DifferentiateRebuilds(b, src, std, p, Longest(std, p.word).value);
    }
  }

  /** One turn of the loop: pop the last entry, step on it, and go on with a
      smaller measure. */
  lemma LoopPop(b: Build, src: Sources, std: seq<Word>) returns (b1: Build, p: Pending)
    requires Fits(b, src) && b.pending != []
    ensures b1.g == b.g && b1.invs == b.invs && b1.pending + [p] == b.pending
    ensures Fits(b1, src) && IsInventoryAt(b1.g, p.inv, p.word)
    ensures Step(b1, src, std, p).Err? ==> Loop(b, src, std) == Err(Step(b1, src, std, p).error)
    ensures Step(b1, src, std, p).Ok? ==>
      && Fits(Step(b1, src, std, p).value, src)
      && Loop(b, src, std) == Loop(Step(b1, src, std, p).value, src, std)
  {
    hide Feed, Fallback, Differentiate;
    var n := |b.pending| - 1;
    p := b.pending[n];
    b1 := b.(pending := b.pending[..n]);
    assert b1.pending + [p] == b.pending;
    FitsPop(b, src);
  }

  /** With an empty worklist the loop returns the state unchanged. */
  lemma LoopDone(b: Build, src: Sources, std: seq<Word>)
    requires Fits(b, src)
    ensures b.pending == [] ==> Loop(b, src, std) == Ok(b)
  {
  }

  lemma StepKeepsWired(b: Build, src: Sources, std: seq<Word>, p: Pending)
    requires Fits(b, src) && IsInventoryAt(b.g, p.inv, p.word)
    requires Step(b, src, std, p).Ok?
    ensures Wired(b.g) ==> Wired(Step(b, src, std, p).value.g)
  {
    StepCases(b, src, std, p);
    hide Step, Feed, Fallback, Differentiate, Fits, Wired;
    if p.word in src {
      FeedFacts(b, src, p);
    }
  }

  /** Every edge the loop forms passes the node_types.py rules. */
  lemma {:induction false} LoopKeepsWired(b: Build, src: Sources, std: seq<Word>)
    requires Fits(b, src) && Loop(b, src, std).Ok?
    ensures Wired(b.g) ==> Wired(Loop(b, src, std).value.g)
    decreases Unmade(b, std), Load(b.pending), |b.pending|
  {
    if b.pending != [] {
      var b1, p := LoopPop(b, src, std);
      StepShrinks(b, src, std, b1, p);
      hide *;
      StepKeepsWired(b1, src, std, p);
      LoopKeepsWired(Step(b1, src, std, p).value, src, std);
    }
  }

  /** The loop fails only where the source would loop forever. */
  lemma {:induction false} LoopDiverges(b: Build, src: Sources, std: seq<Word>)
    requires Fits(b, src) && Loop(b, src, std).Err?
    ensures Loop(b, src, std).error.Diverges?
    decreases Unmade(b, std), Load(b.pending), |b.pending|
  {
    LoopDone(b, src, std);
    var b1, p := LoopPop(b, src, std);
    if Step(b1, src, std, p).Ok? {
      StepShrinks(b, src, std, b1, p);
      hide *;
      LoopDiverges(Step(b1, src, std, p).value, src, std);
    }
  }

  // ---------------------------------------------------------------------
  // Outcome with one Source per character

  /** Nothing but the empty word occurs in the empty word. */
  lemma NothingInEmpty(std: seq<Word>)
    ensures Longest(std, []) == None
  {
    LongestSpec(std, []);
    forall k | 0 <= k < |std|
      ensures !Candidate(std[k], [])
    {
      if Occurs(std[k], []) {
        assert OccursAt(std[k], [], FindFrom(std[k], [], 0).value);
      }
    }
  }

  /** With one Source per character, no empty standard word, and a popped
      word spelled with source characters, a step fails exactly on the
      empty word, and everything it queues or caches is non-empty and
      spelled with source characters. */
  lemma StepSpelled(b: Build, src: Sources, std: seq<Word>, p: Pending)
    requires Fits(b, src) && IsInventoryAt(b.g, p.inv, p.word)
    requires Atomic(src) && [] !in std && AllCharsIn(p.word, src.Keys)
    ensures Step(b, src, std, p).Ok? <==> |p.word| >= 1
    ensures Step(b, src, std, p).Err? ==> Step(b, src, std, p).error == Diverges([])
    ensures |p.word| >= 1 ==>
      forall y | y in StepAsks(src, std, p.word) :: |y| >= 1 && AllCharsIn(y, src.Keys)
  {
    var w := p.word;
    hide Feed, Fallback, Differentiate, Fits;
    SourcedIffAtom(w, src);
    if |w| == 0 {
      NothingInEmpty(std);
    } else {
      LongestSpec(std, w);
      AsksSpelled(src, std, w);
    }
  }

  lemma AsksSpelled(src: Sources, std: seq<Word>, w: Word)
    requires Atomic(src) && [] !in std && AllCharsIn(w, src.Keys) && |w| >= 1
    ensures forall y | y in StepAsks(src, std, w) :: |y| >= 1 && AllCharsIn(y, src.Keys)
  {
    SourcedIffAtom(w, src);
    if w !in src {
      LongestSpec(std, w);
      if Longest(std, w).None? {
        var halves := Legacy.SplitWord(w, 1);
        AllCharsInJoin(halves.0, halves.1, src.Keys);
      } else {
        var c := Longest(std, w).value;
        var parts := Around(w, c);
        AllCharsInJoin(parts.0 + c, parts.1, src.Keys);
        AllCharsInJoin(parts.0, c, src.Keys);
      }
    }
  }

  /** The worklist after a step on a spelled, non-empty word: the entries
      below stay, and the new ones are non-empty and spelled. */
  lemma SpelledGrow(ps: seq<Pending>, ps': seq<Pending>, src: Sources, asks: set<Word>)
    requires |ps| <= |ps'| && ps'[..|ps|] == ps
    requires forall k | |ps| <= k < |ps'| :: ps'[k].word in asks
    requires forall y | y in asks :: |y| >= 1 && AllCharsIn(y, src.Keys)
    ensures Spelled(ps', src) <==> Spelled(ps, src)
    ensures NonEmpty(ps') <==> NonEmpty(ps)
  {
    assert forall k | 0 <= k < |ps| :: ps'[k] == ps[k] by {
      forall k | 0 <= k < |ps| ensures ps'[k] == ps[k] {
        assert ps'[..|ps|][k] == ps[k];
      }
    }
  }

  lemma StepKeepsSpelled(b: Build, src: Sources, std: seq<Word>, p: Pending)
    requires Fits(b, src) && IsInventoryAt(b.g, p.inv, p.word)
    requires Atomic(src) && [] !in std && Spelled(b.pending + [p], src)
    ensures Step(b, src, std, p).Ok? <==> |p.word| >= 1
    ensures Step(b, src, std, p).Err? ==> Step(b, src, std, p).error == Diverges([])
    ensures Step(b, src, std, p).Ok? ==>
      && Spelled(Step(b, src, std, p).value.pending, src)
      && (NonEmpty(Step(b, src, std, p).value.pending) <==> NonEmpty(b.pending))
  {
    SpelledSnoc(b.pending, p, src);
    StepSpelled(b, src, std, p);
    if Step(b, src, std, p).Ok? {
      var r := Step(b, src, std, p).value;
      hide *;
      StepAdds(b, src, std, p);
      AddsGrow(b, r, std, StepExtra(src, std, p.word), StepAsks(src, std, p.word));
      SpelledGrow(b.pending, r.pending, src, StepAsks(src, std, p.word));
    }
  }

  lemma AddsGrow(b: Build, b': Build, std: seq<Word>, e: seq<Word>, asks: set<Word>)
    requires Adds(b, b', std, e, asks)
    ensures |b.pending| <= |b'.pending| && b'.pending[..|b.pending|] == b.pending
    ensures forall k | |b.pending| <= k < |b'.pending| :: b'.pending[k].word in asks
  {
  }

  /** With one Source per character, no empty standard word and every
      queued word spelled with source characters, the loop succeeds exactly
      when no queued word is empty; otherwise the source loops forever on
      the empty word. */
  lemma {:induction false} LoopOutcome(b: Build, src: Sources, std: seq<Word>)
    requires Fits(b, src) && Atomic(src) && [] !in std && Spelled(b.pending, src)
    ensures Loop(b, src, std).Ok? <==> NonEmpty(b.pending)
    ensures Loop(b, src, std).Err? ==> Loop(b, src, std).error == Diverges([])
    decreases Unmade(b, std), Load(b.pending), |b.pending|
  {
    LoopDone(b, src, std);
    if b.pending != [] {
      var b1, p := LoopPop(b, src, std);
      NonEmptySnoc(b1.pending, p);
      StepKeepsSpelled(b1, src, std, p);
      if Step(b1, src, std, p).Ok? {
        StepShrinks(b, src, std, b1, p);
        hide *;
        LoopOutcome(Step(b1, src, std, p).value, src, std);
      }
    }
  }

  // ---------------------------------------------------------------------
  // The sink loop and the generator

  /** One iteration of the sink loop for a word that is not standard: a new
      Inventory of the word feeds the Sink and is queued, but not cached. */
  function Intake(b: Build, src: Sources, w: Word, s: nat): (r: Build)
    requires Fits(b, src) && IsSinkAt(b.g, s, w)
    ensures Fits(r, src) && Grows(b.g, r.g) && r.invs == b.invs && r.machines == b.machines
    ensures Wired(b.g) ==> Wired(r.g)
    ensures r.pending == b.pending + [Pending(|b.g|, w)]
    ensures IsInventoryAt(r.g, |b.g|, w) && |b.g| in r.g[s].inputNodes
  {
    var r := SupplyOne(b, src, w, s);
    SupplyOneKeepsWired(b, src, w, s);
    FitsGrow(b, r.g, src);
    FitsQueue(b.(g := r.g), src, Pending(|b.g|, w));
    assert r.g[s].inputNodes[|b.g[s].inputNodes|] == |b.g|;
    b.(g := r.g, pending := b.pending + [Pending(|b.g|, w)])
  }

  /** The position of the first sink whose word is standard, if any. */
  function FirstStandard(sinks: Sinks, std: seq<Word>): (r: Option<nat>)
    ensures r.Some? ==> r.value < |sinks| && sinks[r.value].0 in std
    ensures forall j | 0 <= j < |sinks| && (r.Some? ==> j < r.value) :: sinks[j].0 !in std
    decreases |sinks|
  {
    if sinks == [] then None
    else
      var n := |sinks| - 1;
      var r := FirstStandard(sinks[..n], std);
      assert forall j | 0 <= j < n :: sinks[..n][j] == sinks[j];
      if r.Some? then r
      else if sinks[n].0 in std then Some(n)
      else None
  }

  /** The `for w_out, sink in sinks.items()` loop: a standard sink word is
      looked up in the still empty cache, which raises KeyError in the
      source. */
  function Intakes(b: Build, src: Sources, std: seq<Word>, sinks: Sinks): (r: Result<Build>)
    requires Fits(b, src) && SinksFit(b.g, sinks)
    ensures r.Ok? ==> Fits(r.value, src) && Grows(b.g, r.value.g)
    ensures r.Ok? ==> r.value.invs == b.invs && r.value.machines == b.machines
    ensures r.Ok? && Wired(b.g) ==> Wired(r.value.g)
    decreases |sinks|
  {
    if sinks == [] then Ok(b)
    else
      var n := |sinks| - 1;
      SinksFitInit(b.g, sinks);
      var b1 :- Intakes(b, src, std, sinks[..n]);
      SinksFitGrow(b.g, b1.g, sinks);
      if sinks[n].0 in std then Err(StandardSink(sinks[n].0))
      else
        var r := Intake(b1, src, sinks[n].0, sinks[n].1);
        GrowsTransitive(b.g, b1.g, r.g);
        Ok(r)
  }

  /** The sink loop fails exactly when a sink word is standard, on the
      first such sink; otherwise it queues the sink words in order. */
  lemma {:induction false} IntakesOutcome(b: Build, src: Sources, std: seq<Word>, sinks: Sinks)
    requires Fits(b, src) && SinksFit(b.g, sinks)
    ensures Intakes(b, src, std, sinks).Err? <==> FirstStandard(sinks, std).Some?
    ensures Intakes(b, src, std, sinks).Err? ==>
      Intakes(b, src, std, sinks).error == StandardSink(sinks[FirstStandard(sinks, std).value].0)
    ensures Intakes(b, src, std, sinks).Ok? ==>
      var ps := Intakes(b, src, std, sinks).value.pending;
      && |ps| == |b.pending| + |sinks| && ps[..|b.pending|] == b.pending
      && forall j | 0 <= j < |sinks| :: ps[|b.pending| + j].word == sinks[j].0
    decreases |sinks|
  {
    hide *;
    IntakesStep(b, src, std, sinks);
    if sinks != [] {
      var n := |sinks| - 1;
      var w := sinks[n].0;
      var r1 := Intakes(b, src, std, sinks[..n]);
      IntakesOutcome(b, src, std, sinks[..n]);
      if r1.Ok? && w !in std {
        var b1 := r1.value;
        var ps := Intakes(b, src, std, sinks).value.pending;
        assert ps == b1.pending + [Pending(|b1.g|, w)];
        assert ps[..|b1.pending|] == b1.pending;
        assert ps[..|b.pending|] == b1.pending[..|b.pending|];
        forall j | 0 <= j < |sinks|
          ensures ps[|b.pending| + j].word == sinks[j].0
        {
          if j < n {
            assert sinks[..n][j] == sinks[j];
            assert ps[..|b1.pending|][|b.pending| + j] == ps[|b.pending| + j];
          }
        }
      }
    }
  }

  /** The sink loop as its last iteration after the loop on the sinks
      before it, and the first standard sink likewise. */
  lemma IntakesStep(b: Build, src: Sources, std: seq<Word>, sinks: Sinks)
    requires Fits(b, src) && SinksFit(b.g, sinks)
    ensures sinks == [] ==> Intakes(b, src, std, sinks) == Ok(b) && FirstStandard(sinks, std) == None
    ensures sinks != [] ==>
      var n := |sinks| - 1;
      && SinksFit(b.g, sinks[..n])
      && FirstStandard(sinks, std) ==
           (if FirstStandard(sinks[..n], std).Some? then FirstStandard(sinks[..n], std)
            else if sinks[n].0 in std then Some(n) else None)
      && var r1 := Intakes(b, src, std, sinks[..n]);
      && (r1.Err? ==> Intakes(b, src, std, sinks) == r1)
      && (r1.Ok? ==>
            && IsSinkAt(r1.value.g, sinks[n].1, sinks[n].0)
            && Intakes(b, src, std, sinks) ==
                 if sinks[n].0 in std then Err(StandardSink(sinks[n].0))
                 else Ok(Intake(r1.value, src, sinks[n].0, sinks[n].1)))
  {
    if sinks != [] {
      var n := |sinks| - 1;
      SinksFitInit(b.g, sinks);
      var r1 := Intakes(b, src, std, sinks[..n]);
      hide Intake, Fits, Wired, Grows;
      if r1.Ok? {
        SinksFitGrow(b.g, r1.value.g, sinks);
      }
    }
  }

  /** form_late_product_differentiation on the arena `generate` builds: the
      sink loop, then the `while` loop. */
  function FormLate(g: Graph, src: Sources, sinks: Sinks, std: seq<Word>): (r: Result<Graph>)
    requires SourcesFit(g, src) && SinksFit(g, sinks)
    ensures r.Ok? ==> Grows(g, r.value)
  {
    var b0 := Build(g, [], map[], map[]);
    var b1 :- Intakes(b0, src, std, sinks);
    var b2 :- Loop(b1, src, std);
    GrowsTransitive(g, b1.g, b2.g);
    Ok(b2.g)
  }

  /** The generator as its two loops. */
  lemma LateUnfold(g: Graph, src: Sources, sinks: Sinks, std: seq<Word>) returns (b0: Build)
    requires SourcesFit(g, src) && SinksFit(g, sinks)
    ensures b0 == Build(g, [], map[], map[]) && Fits(b0, src)
    ensures var r1 := Intakes(b0, src, std, sinks);
      && (r1.Err? ==> FormLate(g, src, sinks, std) == Err(r1.error))
      && (r1.Ok? ==>
            && (FormLate(g, src, sinks, std).Ok? <==> Loop(r1.value, src, std).Ok?)
            && (FormLate(g, src, sinks, std).Ok? ==>
                  FormLate(g, src, sinks, std).value == Loop(r1.value, src, std).value.g)
            && (FormLate(g, src, sinks, std).Err? ==>
                  FormLate(g, src, sinks, std).error == Loop(r1.value, src, std).error))
  {
    hide Loop, Intakes;
    b0 := Build(g, [], map[], map[]);
  }

  /** The generator fails on the first standard sink word, with the
      KeyError of the source; without one it fails only where the source
      would loop forever. The assertion of the standard-inventory helper is
      never what fails. */
  lemma LateErrors(g: Graph, src: Sources, sinks: Sinks, std: seq<Word>)
    requires SourcesFit(g, src) && SinksFit(g, sinks)
    ensures FirstStandard(sinks, std).Some? ==>
      FormLate(g, src, sinks, std) == Err(StandardSink(sinks[FirstStandard(sinks, std).value].0))
    ensures FirstStandard(sinks, std).None? && FormLate(g, src, sinks, std).Err? ==>
      FormLate(g, src, sinks, std).error.Diverges?
  {
    var b0 := LateUnfold(g, src, sinks, std);
    hide *;
    IntakesOutcome(b0, src, std, sinks);
    if Intakes(b0, src, std, sinks).Ok? && Loop(Intakes(b0, src, std, sinks).value, src, std).Err? {
      LoopDiverges(Intakes(b0, src, std, sinks).value, src, std);
    }
  }

  /** With one Source per character and no empty standard word, the
      generator succeeds exactly when no sink word is standard or empty; on
      an empty sink word the source loops forever. */
  lemma LateOutcome(g: Graph, src: Sources, sinks: Sinks, std: seq<Word>)
    requires Setting(g, src, sinks) && [] !in std
    ensures FormLate(g, src, sinks, std).Ok? <==>
      && FirstStandard(sinks, std).None?
      && forall j | 0 <= j < |sinks| :: |sinks[j].0| >= 1
    ensures FirstStandard(sinks, std).None? && FormLate(g, src, sinks, std).Err? ==>
      FormLate(g, src, sinks, std).error == Diverges([])
  {
    hide *;
    SettingFacts(g, src, sinks);
    var b0 := LateUnfold(g, src, sinks, std);
    IntakesOutcome(b0, src, std, sinks);
    var r1 := Intakes(b0, src, std, sinks);
    if r1.Ok? {
      SinkWordsQueued(r1.value.pending, src, sinks);
      LoopOutcome(r1.value, src, std);
    }
  }

  /** The queue the sink loop leaves behind, seen through the sink words. */
  lemma SinkWordsQueued(ps: seq<Pending>, src: Sources, sinks: Sinks)
    requires |ps| == 0 + |sinks| && forall j | 0 <= j < |sinks| :: ps[0 + j].word == sinks[j].0
    requires forall j | 0 <= j < |sinks| :: AllCharsIn(sinks[j].0, src.Keys)
    ensures Spelled(ps, src)
    ensures NonEmpty(ps) <==> forall j | 0 <= j < |sinks| :: |sinks[j].0| >= 1
  {
    assert forall j | 0 <= j < |sinks| :: ps[j].word == sinks[j].0;
  }

  /** Every edge the generator forms passes the node_types.py rules. */
  lemma LateWired(g: Graph, src: Sources, sinks: Sinks, std: seq<Word>)
    requires Setting(g, src, sinks)
    requires FormLate(g, src, sinks, std).Ok?
    ensures Wired(FormLate(g, src, sinks, std).value)
  {
    SettingSettled(g, src, sinks);
    SettingFacts(g, src, sinks);
    var b0 := LateUnfold(g, src, sinks, std);
    hide *;
    IntakesOutcome(b0, src, std, sinks);
    LoopKeepsWired(Intakes(b0, src, std, sinks).value, src, std);
  }

  // ---------------------------------------------------------------------
  // The sink loop on a standard word, as evidently intended

  /** Every Sink is fed by an Inventory of its word. */
  ghost predicate SinksFed(g: Graph, sinks: Sinks) {
    forall j | 0 <= j < |sinks| ::
      && sinks[j].1 < |g|
      && exists i | i in g[sinks[j].1].inputNodes :: IsInventoryAt(g, i, sinks[j].0)
  }

  /** A standard sink word takes the shared Inventory of the standard-inventory
      helper, which feeds the Sink. */
  function IntakeStandard(b: Build, src: Sources, std: seq<Word>, w: Word, s: nat): (r: Build)
    requires Fits(b, src) && IsSinkAt(b.g, s, w) && w in std
    ensures Fits(r, src) && Grows(b.g, r.g) && r.machines == b.machines
    ensures Wired(b.g) ==> Wired(r.g)
    ensures exists i | i in r.g[s].inputNodes :: IsInventoryAt(r.g, i, w)
  {
    var t := Shared(b, src, std, w);
    AdmissibleIffFeeds(InventoryOf(w), SinkOf(w));
    JoinKeepsWired(t.0, src, t.1, s);
    var r := Join(t.0, src, t.1, s);
    GrowsTransitive(b.g, t.0.g, r.g);
    assert IsInventoryAt(r.g, t.1, w);
    r
  }

  /** The sink loop with `get_inventory_for_standard_product(w_out)` in
      place of the lookup in the still empty cache. It never fails. */
  function IntakesFixed(b: Build, src: Sources, std: seq<Word>, sinks: Sinks): (r: Build)
    requires Fits(b, src) && SinksFit(b.g, sinks)
    ensures Fits(r, src) && Grows(b.g, r.g) && r.machines == b.machines
    ensures Wired(b.g) ==> Wired(r.g)
    decreases |sinks|
  {
    if sinks == [] then b
    else
      var n := |sinks| - 1;
      SinksFitInit(b.g, sinks);
      var b1 := IntakesFixed(b, src, std, sinks[..n]);
      SinksFitGrow(b.g, b1.g, sinks);
      var r :=
        if sinks[n].0 in std then IntakeStandard(b1, src, std, sinks[n].0, sinks[n].1)
        else Intake(b1, src, sinks[n].0, sinks[n].1);
      GrowsTransitive(b.g, b1.g, r.g);
      r
  }

  /** Feeding a Sink survives growth of the arena. */
  lemma SinksFedGrow(g: Graph, g': Graph, sinks: Sinks)
    requires SinksFed(g, sinks) && Grows(g, g')
    ensures SinksFed(g', sinks)
  {
    forall j | 0 <= j < |sinks|
      ensures exists i | i in g'[sinks[j].1].inputNodes :: IsInventoryAt(g', i, sinks[j].0)
    {
      var i :| i in g[sinks[j].1].inputNodes && IsInventoryAt(g, i, sinks[j].0);
      PrefixMember(g[sinks[j].1].inputNodes, g'[sinks[j].1].inputNodes, i);
      assert IsInventoryAt(g', i, sinks[j].0);
    }
  }

  lemma SinksFedSnoc(g: Graph, sinks: Sinks)
    requires sinks != [] && SinksFed(g, sinks[..|sinks| - 1])
    requires var s := sinks[|sinks| - 1];
      s.1 < |g| && exists i | i in g[s.1].inputNodes :: IsInventoryAt(g, i, s.0)
    ensures SinksFed(g, sinks)
  {
    assert forall j | 0 <= j < |sinks| - 1 :: sinks[..|sinks| - 1][j] == sinks[j];
  }

  /** The last iteration of the corrected sink loop feeds its Sink. */
  lemma IntakesFixedStep(b: Build, src: Sources, std: seq<Word>, sinks: Sinks) returns (b1: Build)
    requires Fits(b, src) && SinksFit(b.g, sinks) && sinks != []
    ensures SinksFit(b.g, sinks[..|sinks| - 1]) && Fits(b, src)
    ensures b1 == IntakesFixed(b, src, std, sinks[..|sinks| - 1])
    ensures var r := IntakesFixed(b, src, std, sinks);
      && Grows(b1.g, r.g)
      && var s := sinks[|sinks| - 1];
         s.1 < |r.g| && exists i | i in r.g[s.1].inputNodes :: IsInventoryAt(r.g, i, s.0)
  {
    var n := |sinks| - 1;
    SinksFitInit(b.g, sinks);
    b1 := IntakesFixed(b, src, std, sinks[..n]);
    SinksFitGrow(b.g, b1.g, sinks);
    var r := IntakesFixed(b, src, std, sinks);
    if sinks[n].0 !in std {
      assert r == Intake(b1, src, sinks[n].0, sinks[n].1);
      assert IsInventoryAt(r.g, |b1.g|, sinks[n].0);
    }
  }

  /** After the corrected sink loop every Sink, standard or not, is fed by
      an Inventory of its word. */
  lemma {:induction false} IntakesFixedFeeds(b: Build, src: Sources, std: seq<Word>, sinks: Sinks)
    requires Fits(b, src) && SinksFit(b.g, sinks)
    ensures SinksFed(IntakesFixed(b, src, std, sinks).g, sinks)
    decreases |sinks|
  {
    if sinks != [] {
      var b1 := IntakesFixedStep(b, src, std, sinks);
      hide *;
      var r := IntakesFixed(b, src, std, sinks);
      IntakesFixedFeeds(b, src, std, sinks[..|sinks| - 1]);
      SinksFedGrow(b1.g, r.g, sinks[..|sinks| - 1]);
      SinksFedSnoc(r.g, sinks);
    }
  }

  /** form_late_product_differentiation with the corrected sink loop. */
  function FormLateFixed(g: Graph, src: Sources, sinks: Sinks, std: seq<Word>): (r: Result<Graph>)
    requires SourcesFit(g, src) && SinksFit(g, sinks)
    ensures r.Ok? ==> Grows(g, r.value)
  {
    var b0 := Build(g, [], map[], map[]);
    var b1 := IntakesFixed(b0, src, std, sinks);
    var b2 :- Loop(b1, src, std);
    GrowsTransitive(g, b1.g, b2.g);
    Ok(b2.g)
  }

  /** The corrected generator never fails on a standard sink word: its only
      failure is a loop that would never end, and on success every Sink is
      fed by an Inventory of its word and every edge passes the node rules. */
  lemma LateFixedOutcome(g: Graph, src: Sources, sinks: Sinks, std: seq<Word>)
    requires SourcesFit(g, src) && SinksFit(g, sinks)
    ensures FormLateFixed(g, src, sinks, std).Err? ==> FormLateFixed(g, src, sinks, std).error.Diverges?
    ensures FormLateFixed(g, src, sinks, std).Ok? ==> SinksFed(FormLateFixed(g, src, sinks, std).value, sinks)
    ensures FormLateFixed(g, src, sinks, std).Ok? && Wired(g) ==> Wired(FormLateFixed(g, src, sinks, std).value)
  {
    var b0 := Build(g, [], map[], map[]);
    var b1 := IntakesFixed(b0, src, std, sinks);
    assert FormLateFixed(g, src, sinks, std) ==
      if Loop(b1, src, std).Err? then Err(Loop(b1, src, std).error) else Ok(Loop(b1, src, std).value.g);
    hide *;
    IntakesFixedFeeds(b0, src, std, sinks);
    if Loop(b1, src, std).Err? {
      LoopDiverges(b1, src, std);
    } else {
      SinksFedGrow(b1.g, Loop(b1, src, std).value.g, sinks);
      LoopKeepsWired(b1, src, std);
    }
  }

  /** The discrepancy on the smallest input: one Sink of the standard word
      "ab". The source raises KeyError; the corrected sink loop feeds it. */
  lemma StandardSinkExample()
    ensures var g := [Fresh(SinkOf("ab")), Fresh(SourceOf("a")), Fresh(SourceOf("b"))];
      var src := map["a" := 1, "b" := 2];
      var sinks := [("ab", 0)];
      && FormLate(g, src, sinks, ["ab"]) == Err(StandardSink("ab"))
      && SinksFed(IntakesFixed(Build(g, [], map[], map[]), src, ["ab"], sinks).g, sinks)
  {
    var g := [Fresh(SinkOf("ab")), Fresh(SourceOf("a")), Fresh(SourceOf("b"))];
    var src := map["a" := 1, "b" := 2];
    var sinks := [("ab", 0)];
    assert SourcesFit(g, src) && SinksFit(g, sinks);
    assert FirstStandard(sinks, ["ab"]) == Some(0);
    LateErrors(g, src, sinks, ["ab"]);
    IntakesFixedFeeds(Build(g, [], map[], map[]), src, ["ab"], sinks);
  }

  // ---------------------------------------------------------------------
  // The cache over a whole run

  /** Over the whole `while` loop the cache keeps every entry it had and
      gains entries only for standard words: once a standard word's
      Inventory is created, every later request gets that same Inventory. */
  lemma {:induction false} LoopKeepsCache(b: Build, src: Sources, std: seq<Word>)
    requires Fits(b, src) && Loop(b, src, std).Ok?
    ensures var r := Loop(b, src, std).value;
      && b.invs.Keys <= r.invs.Keys <= b.invs.Keys + StdSet(std)
      && forall x | x in b.invs :: r.invs[x] == b.invs[x]
    decreases Unmade(b, std), Load(b.pending), |b.pending|
  {
    LoopDone(b, src, std);
    if b.pending != [] {
      var b1, p := LoopPop(b, src, std);
      StepShrinks(b, src, std, b1, p);
      StepAdds(b1, src, std, p);
      hide Loop, Step, Fits, StepExtra, StepAsks;
      LoopKeepsCache(Step(b1, src, std, p).value, src, std);
    }
  }

  // ---------------------------------------------------------------------
  // One Inventory per standard word

  /** Every Inventory of a standard word in the arena is the cached one. */
  ghost predicate StdStocked(b: Build, std: seq<Word>) {
    forall i | 0 <= i < |b.g| && b.g[i].shape.InventoryOf? && b.g[i].shape.w in std ::
      b.g[i].shape.w in b.invs && b.invs[b.g[i].shape.w] == i
  }

  /** No two Inventories of the arena hold the same standard word. */
  ghost predicate OneStdInventory(g: Graph, std: seq<Word>) {
    forall i, j | 0 <= i < |g| && 0 <= j < |g| && g[i].shape.InventoryOf? && g[i].shape.w in std
                  && g[j].shape == g[i].shape :: i == j
  }

  lemma StdStockedUnique(b: Build, std: seq<Word>)
    requires StdStocked(b, std)
    ensures OneStdInventory(b.g, std)
  {
  }

  /** The invariant carries over to a state that keeps the shapes of the
      arena and every cache entry, when each new Inventory of a standard word
      is cached. */
  lemma StdStockedGrow(b: Build, b': Build, std: seq<Word>)
    requires StdStocked(b, std) && Extends(b.g, b'.g)
    requires forall x | x in b.invs :: x in b'.invs && b'.invs[x] == b.invs[x]
    requires forall i | |b.g| <= i < |b'.g| && b'.g[i].shape.InventoryOf? && b'.g[i].shape.w in std ::
      b'.g[i].shape.w in b'.invs && b'.invs[b'.g[i].shape.w] == i
    ensures StdStocked(b', std)
  {
    forall i | 0 <= i < |b'.g| && b'.g[i].shape.InventoryOf? && b'.g[i].shape.w in std
      ensures b'.g[i].shape.w in b'.invs && b'.invs[b'.g[i].shape.w] == i
    {
      if i < |b.g| {
        assert b'.g[i].shape == b.g[i].shape;
      }
    }
  }

  /** The invariant reads only the arena and the cache. */
  lemma StdStockedLike(b: Build, b': Build, std: seq<Word>)
    requires StdStocked(b, std) && b'.g == b.g && b'.invs == b.invs
    ensures StdStocked(b', std)
  {
  }

  /** New edges, no new node and the same cache keep the invariant. */
  lemma StdStockedSame(b: Build, b': Build, std: seq<Word>)
    requires StdStocked(b, std) && Extends(b.g, b'.g) && |b'.g| == |b.g| && b'.invs == b.invs
    ensures StdStocked(b', std)
  {
    StdStockedGrow(b, b', std);
  }

  lemma SharedStocked(b: Build, src: Sources, std: seq<Word>, w: Word)
    requires Fits(b, src) && w in std && StdStocked(b, std)
    ensures StdStocked(Shared(b, src, std, w).0, std)
  {
    var r := Shared(b, src, std, w).0;
    if w !in b.invs {
      assert |r.g| == |b.g| + 1 && r.invs == b.invs[w := |b.g|];
    }
    StdStockedGrow(b, r, std);
  }

  lemma MaybePieceStocked(b: Build, src: Sources, std: seq<Word>, x: Word)
    requires Fits(b, src) && StdStocked(b, std)
    ensures StdStocked(MaybePiece(b, src, std, x).0, std)
  {
    if |x| > 0 {
      if x in std {
        SharedStocked(b, src, std, x);
      } else {
        var r := MaybePiece(b, src, std, x).0;
        assert |r.g| == |b.g| + 1 && r.g[|b.g|].shape == InventoryOf(x) && r.invs == b.invs;
        StdStockedGrow(b, r, std);
      }
    }
  }

  lemma PiecesStocked(b: Build, src: Sources, std: seq<Word>, head: Word, tail: Word)
    requires Fits(b, src) && StdStocked(b, std)
    ensures StdStocked(Pieces(b, src, std, head, tail).0, std)
  {
    PiecesUnfold(b, src, std, head, tail);
    hide *;
    MaybePieceStocked(b, src, std, head);
    MaybePieceStocked(MaybePiece(b, src, std, head).0, src, std, tail);
  }

  lemma FillAfterStocked(b: Build, src: Sources, std: seq<Word>, m: nat, l: Word, r: Word, x: Word, ix: nat, c: Word)
    requires Fits(b, src) && c in std && IsMachineAt(b.g, m, l, r)
    requires (l == x && r == c) || (l == c && r == x)
    requires IsInventoryAt(b.g, ix, x) && StdStocked(b, std)
    ensures StdStocked(FillAfter(b, src, std, m, l, r, x, ix, c), std)
  {
    var b1 := Input(b, src, ix, x, m, l, r);
    var s := Shared(b1, src, std, c);
    FillAfterUnfold(b, src, std, m, l, r, x, ix, c);
    hide Fits, Wired, FillAfter, Shared, Input, StdStocked;
    StdStockedSame(b, b1, std);
    SharedStocked(b1, src, std, c);
    StdStockedSame(s.0, Input(s.0, src, s.1, c, m, l, r), std);
  }

  lemma FillBeforeStocked(b: Build, src: Sources, std: seq<Word>, m: nat, l: Word, r: Word, x: Word, ix: nat, c: Word)
    requires Fits(b, src) && c in std && IsMachineAt(b.g, m, l, r)
    requires (l == x && r == c) || (l == c && r == x)
    requires IsInventoryAt(b.g, ix, x) && StdStocked(b, std)
    ensures StdStocked(FillBefore(b, src, std, m, l, r, x, ix, c), std)
  {
    var s := Shared(b, src, std, c);
    FillBeforeUnfold(b, src, std, m, l, r, x, ix, c);
    var b2 := Input(s.0, src, s.1, c, m, l, r);
    hide Fits, Wired, FillBefore, Shared, Input, StdStocked;
    SharedStocked(b, src, std, c);
    StdStockedSame(s.0, b2, std);
    StdStockedSame(b2, Input(b2, src, ix, x, m, l, r), std);
  }

  /** A new Machine keeps the invariant. */
  lemma StdStockedMachine(b: Build, b': Build, std: seq<Word>)
    requires StdStocked(b, std) && Extends(b.g, b'.g) && b'.invs == b.invs
    requires |b'.g| == |b.g| + 1 && b'.g[|b.g|].shape.MachineOf?
    ensures StdStocked(b', std)
  {
    StdStockedGrow(b, b', std);
  }

  lemma HookStocked(b: Build, src: Sources, std: seq<Word>, l: Word, r: Word, inv: nat)
    requires Fits(b, src) && IsInventoryAt(b.g, inv, l + r) && StdStocked(b, std)
    ensures StdStocked(Hook(b, src, l, r, inv), std)
  {
    hide Fits, Wired, Hook, StdStocked;
    StdStockedMachine(b, Hook(b, src, l, r, inv), std);
  }

  lemma TieStocked(b: Build, src: Sources, std: seq<Word>, l: Word, r: Word, i: nat, j: nat, inv: nat)
    requires Fits(b, src) && IsInventoryAt(b.g, inv, l + r)
    requires IsInventoryAt(b.g, i, l) && IsInventoryAt(b.g, j, r) && StdStocked(b, std)
    ensures StdStocked(Tie(b, src, l, r, i, j, inv), std)
  {
    hide Fits, Wired, Tie, StdStocked;
    StdStockedMachine(b, Tie(b, src, l, r, i, j, inv), std);
  }

  /** The intermediate Inventory keeps the invariant when its word is not
      standard. */
  lemma StageStocked(b: Build, src: Sources, std: seq<Word>, head: Word, c: Word)
    requires Fits(b, src) && StdStocked(b, std) && head + c !in std
    ensures StdStocked(Stage(b, src, head, c), std)
  {
    var r := Stage(b, src, head, c);
    hide Fits, Wired, Stage;
    assert r.g[|b.g|].shape == InventoryOf(head + c);
    assert r.g[|b.g| + 1].shape == MachineOf(head, c);
    StdStockedGrow(b, r, std);
  }

  lemma IntermediateStocked(b: Build, src: Sources, std: seq<Word>, head: Word, c: Word, ih: nat)
    requires Fits(b, src) && c in std && IsInventoryAt(b.g, ih, head) && StdStocked(b, std)
    requires head + c !in std
    ensures StdStocked(Intermediate(b, src, std, head, c, ih).0, std)
  {
    hide *;
    var b1 := Stage(b, src, head, c);
    IntermediateUnfold(b, src, std, head, c, ih);
    StageStocked(b, src, std, head, c);
    FillAfterStocked(b1, src, std, |b.g| + 1, head, c, head, ih, c);
  }

  lemma BothStocked(b: Build, src: Sources, std: seq<Word>, inv: nat, head: Word, c: Word, tail: Word, ih: nat, it: nat)
    requires Fits(b, src) && c in std && IsInventoryAt(b.g, inv, head + c + tail)
    requires IsInventoryAt(b.g, ih, head) && IsInventoryAt(b.g, it, tail) && StdStocked(b, std)
    requires head + c !in std
    ensures StdStocked(Both(b, src, std, inv, head, c, tail, ih, it), std)
  {
    var i := Intermediate(b, src, std, head, c, ih);
    BothUnfold(b, src, std, inv, head, c, tail, ih, it);
    hide *;
    IntermediateStocked(b, src, std, head, c, ih);
    TieStocked(i.0, src, std, head + c, tail, i.1, it, inv);
  }

  lemma SingleStocked(b: Build, src: Sources, std: seq<Word>, inv: nat, l: Word, r: Word, c: Word, x: Word, ix: nat)
    requires Fits(b, src) && c in std && IsInventoryAt(b.g, inv, l + r)
    requires (l == c && r == x) || (l == x && r == c)
    requires IsInventoryAt(b.g, ix, x) && StdStocked(b, std)
    ensures StdStocked(Single(b, src, std, inv, l, r, c, x, ix), std)
  {
    var b1 := Hook(b, src, l, r, inv);
    SingleUnfold(b, src, std, inv, l, r, c, x, ix);
    HookStocked(b, src, std, l, r, inv);
    hide *;
    FillBeforeStocked(b1, src, std, |b.g|, l, r, x, ix, c);
  }

  lemma AssembleStocked(b: Build, src: Sources, std: seq<Word>, inv: nat, head: Word, c: Word, tail: Word,
                        oh: Option<nat>, ot: Option<nat>)
    requires Fits(b, src) && c in std && IsInventoryAt(b.g, inv, head + c + tail)
    requires (oh.Some? <==> |head| > 0) && (ot.Some? <==> |tail| > 0)
    requires oh.Some? ==> IsInventoryAt(b.g, oh.value, head)
    requires ot.Some? ==> IsInventoryAt(b.g, ot.value, tail)
    requires StdStocked(b, std) && (|head| > 0 && |tail| > 0 ==> head + c !in std)
    ensures StdStocked(Assemble(b, src, std, inv, head, c, tail, oh, ot), std)
  {
    if oh.Some? && ot.Some? {
      BothStocked(b, src, std, inv, head, c, tail, oh.value, ot.value);
    } else if oh.Some? {
      assert head + c + tail == head + c;
      SingleStocked(b, src, std, inv, head, c, c, head, oh.value);
    } else if ot.Some? {
      assert head + c + tail == c + tail;
      SingleStocked(b, src, std, inv, c, tail, c, tail, ot.value);
    }
  }

  /** The intermediate word of the head-and-tail branch is never standard:
      it occurs in the word, is shorter than it, and is longer than the
      longest standard word found there. */
  lemma IntermediateNotStandard(std: seq<Word>, w: Word, c: Word)
    requires IsLongest(std, w, c)
    ensures var (head, tail) := Around(w, c);
      |head| > 0 && |tail| > 0 ==> head + c !in std
  {
    var (head, tail) := Around(w, c);
    if |head| > 0 && |tail| > 0 {
      var hc := head + c;
      assert w == hc + tail;
      assert OccursAt(hc, w, 0) by {
        assert w[0..|hc|] == hc;
      }
      OccursIff(hc, w);
      assert Candidate(hc, w);
      assert forall k | 0 <= k < |std| :: std[k] != hc;
    }
  }

  /** With no standard word in it, neither half of the fallback split is
      standard: both occur in the word and are shorter than it. */
  lemma HalvesNotStandard(std: seq<Word>, w: Word)
    requires Longest(std, w).None? && |w| >= 2
    ensures var halves := Legacy.SplitWord(w, 1);
      halves.0 !in std && halves.1 !in std
  {
    var halves := Legacy.SplitWord(w, 1);
    assert halves.0 == w[..1] && halves.1 == w[1..];
    assert OccursAt(halves.0, w, 0);
    assert OccursAt(halves.1, w, 1);
    OccursIff(halves.0, w);
    OccursIff(halves.1, w);
    assert Candidate(halves.0, w) && Candidate(halves.1, w);
  }

  lemma FallbackStocked(b: Build, src: Sources, std: seq<Word>, p: Pending)
    requires Fits(b, src) && IsInventoryAt(b.g, p.inv, p.word) && StdStocked(b, std)
    requires Longest(std, p.word).None? && |p.word| >= 2
    ensures StdStocked(Fallback(b, src, p), std)
  {
    var halves := Legacy.SplitWord(p.word, 1);
    HalvesNotStandard(std, p.word);
    ExpandFacts(b.g, p.inv, halves.0, halves.1, None, None);
    var r := Fallback(b, src, p);
    assert r.g == Expand(b.g, p.inv, halves.0, halves.1, None, None) && r.invs == b.invs;
    hide Fallback, Expand, Fits, Wired, Legacy.SplitWord, Longest;
    StdStockedGrow(b, r, std);
  }

  lemma DifferentiateStocked(b: Build, src: Sources, std: seq<Word>, p: Pending, c: Word)
    requires Fits(b, src) && IsInventoryAt(b.g, p.inv, p.word) && IsLongest(std, p.word, c)
    requires StdStocked(b, std)
    ensures StdStocked(Differentiate(b, src, std, p, c), std)
  {
    var parts := Around(p.word, c);
    var pcs := Pieces(b, src, std, parts.0, parts.1);
    DifferentiateUnfold(b, src, std, p, c);
    IntermediateNotStandard(std, p.word, c);
    hide Fits, Wired, Differentiate, Pieces, Assemble, IsLongest;
    PiecesStocked(b, src, std, parts.0, parts.1);
    AssembleStocked(pcs.0, src, std, p.inv, parts.0, c, parts.1, pcs.1, pcs.2);
  }

  lemma StepStocked(b: Build, src: Sources, std: seq<Word>, p: Pending)
    requires Fits(b, src) && IsInventoryAt(b.g, p.inv, p.word) && StdStocked(b, std)
    requires Step(b, src, std, p).Ok?
    ensures StdStocked(Step(b, src, std, p).value, std)
  {
    StepCases(b, src, std, p);
    LongestSpec(std, p.word);
    hide Feed, Fallback, Differentiate, Fits, StdStocked;
    if p.word in src {
      FeedFacts(b, src, p);
      StdStockedSame(b, Feed(b, src, p), std);
    } else if Longest(std, p.word).None? {
      FallbackStocked(b, src, std, p);
    } else {
      DifferentiateStocked(b, src, std, p, Longest(std, p.word).value);
    }
  }

  /** The `while` loop keeps every Inventory of a standard word cached. */
  lemma {:induction false} LoopStocked(b: Build, src: Sources, std: seq<Word>)
    requires Fits(b, src) && StdStocked(b, std) && Loop(b, src, std).Ok?
    ensures StdStocked(Loop(b, src, std).value, std)
    decreases Unmade(b, std), Load(b.pending), |b.pending|
  {
    hide *;
    LoopDone(b, src, std);
    if b.pending != [] {
      var b1, p := LoopPop(b, src, std);
      StepShrinks(b, src, std, b1, p);
      StdStockedLike(b, b1, std);
      StepStocked(b1, src, std, p);
      LoopStocked(Step(b1, src, std, p).value, src, std);
    }
  }

  lemma IntakeStocked(b: Build, src: Sources, std: seq<Word>, w: Word, s: nat)
    requires Fits(b, src) && IsSinkAt(b.g, s, w) && w !in std && StdStocked(b, std)
    ensures StdStocked(Intake(b, src, w, s), std)
  {
    var r := Intake(b, src, w, s);
    assert |r.g| == |b.g| + 1;
    StdStockedGrow(b, r, std);
  }

  /** The sink loop as written creates no Inventory of a standard word. */
  lemma {:induction false} IntakesStocked(b: Build, src: Sources, std: seq<Word>, sinks: Sinks)
    requires Fits(b, src) && SinksFit(b.g, sinks) && StdStocked(b, std)
    requires Intakes(b, src, std, sinks).Ok?
    ensures StdStocked(Intakes(b, src, std, sinks).value, std)
    decreases |sinks|
  {
    IntakesStep(b, src, std, sinks);
    if sinks != [] {
      var n := |sinks| - 1;
      hide Intakes, Intake, Fits, StdStocked;
      IntakesStocked(b, src, std, sinks[..n]);
      IntakeStocked(Intakes(b, src, std, sinks[..n]).value, src, std, sinks[n].0, sinks[n].1);
    }
  }

  lemma IntakeStandardStocked(b: Build, src: Sources, std: seq<Word>, w: Word, s: nat)
    requires Fits(b, src) && IsSinkAt(b.g, s, w) && w in std && StdStocked(b, std)
    ensures StdStocked(IntakeStandard(b, src, std, w, s), std)
  {
    var t := Shared(b, src, std, w);
    SharedStocked(b, src, std, w);
    AdmissibleIffFeeds(InventoryOf(w), SinkOf(w));
    assert IntakeStandard(b, src, std, w, s) == Join(t.0, src, t.1, s);
    StdStockedSame(t.0, Join(t.0, src, t.1, s), std);
  }

  /** The corrected sink loop creates the Inventory of a standard sink word
      through the helper, so it is cached. */
  lemma {:induction false} IntakesFixedStocked(b: Build, src: Sources, std: seq<Word>, sinks: Sinks)
    requires Fits(b, src) && SinksFit(b.g, sinks) && StdStocked(b, std)
    ensures StdStocked(IntakesFixed(b, src, std, sinks), std)
    decreases |sinks|
  {
    if sinks != [] {
      var n := |sinks| - 1;
      SinksFitInit(b.g, sinks);
      var b1 := IntakesFixed(b, src, std, sinks[..n]);
      SinksFitGrow(b.g, b1.g, sinks);
      assert IntakesFixed(b, src, std, sinks) ==
        if sinks[n].0 in std then IntakeStandard(b1, src, std, sinks[n].0, sinks[n].1)
        else Intake(b1, src, sinks[n].0, sinks[n].1);
      hide IntakesFixed, IntakeStandard, Intake, Fits, StdStocked;
      IntakesFixedStocked(b, src, std, sinks[..n]);
      if sinks[n].0 in std {
        IntakeStandardStocked(b1, src, std, sinks[n].0, sinks[n].1);
      } else {
        IntakeStocked(b1, src, std, sinks[n].0, sinks[n].1);
      }
    }
  }

  /** In the network the late-differentiation generator returns, each
      standard word has at most one Inventory. */
  lemma LateOneInventoryPerWord(g: Graph, src: Sources, sinks: Sinks, std: seq<Word>)
    requires Setting(g, src, sinks)
    ensures FormLate(g, src, sinks, std).Ok? ==> OneStdInventory(FormLate(g, src, sinks, std).value, std)
  {
    SettingFacts(g, src, sinks);
    var b0 := LateUnfold(g, src, sinks, std);
    assert StdStocked(b0, std);
    var r1 := Intakes(b0, src, std, sinks);
    if FormLate(g, src, sinks, std).Ok? {
      hide *;
      IntakesStocked(b0, src, std, sinks);
      LoopStocked(r1.value, src, std);
      StdStockedUnique(Loop(r1.value, src, std).value, std);
    }
  }

  /** The same for the corrected generator, whose sink loop also takes the
      shared Inventory for a standard sink word. */
  lemma LateFixedOneInventoryPerWord(g: Graph, src: Sources, sinks: Sinks, std: seq<Word>)
    requires Setting(g, src, sinks)
    ensures FormLateFixed(g, src, sinks, std).Ok? ==> OneStdInventory(FormLateFixed(g, src, sinks, std).value, std)
  {
    SettingFacts(g, src, sinks);
    var b0 := Build(g, [], map[], map[]);
    assert StdStocked(b0, std);
    var b1 := IntakesFixed(b0, src, std, sinks);
    assert FormLateFixed(g, src, sinks, std) ==
      if Loop(b1, src, std).Err? then Err(Loop(b1, src, std).error) else Ok(Loop(b1, src, std).value.g);
    if FormLateFixed(g, src, sinks, std).Ok? {
      hide *;
      IntakesFixedStocked(b0, src, std, sinks);
      LoopStocked(b1, src, std);
      StdStockedUnique(Loop(b1, src, std).value, std);
    }
  }
}
