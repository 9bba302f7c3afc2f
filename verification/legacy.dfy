/** The older node model of wordmill/wordmill.py, which the generators import.
    Its nodes have the same shapes, `fully_connected` and discovery as the
    node_types.py model; what differs is that edges are appended without any
    check, `form_edge` checks only for a shared product, and `split_word`
    slices without a range check. */
module Legacy {
  import opened Outcomes
  import opened Words
  import opened Nodes

  /** form_outbound_edge: appends `b` to the outputs of `a`, whatever the pair. */
  function FormOutboundEdge(g: Graph, a: nat, b: nat): (g': Graph)
    requires a < |g| && b < |g|
    ensures |g'| == |g| && g'[a].outputNodes == g[a].outputNodes + [b]
    ensures g'[a].shape == g[a].shape && g'[a].inputNodes == g[a].inputNodes
    ensures forall i | 0 <= i < |g| && i != a :: g'[i] == g[i]
  {
    AppendOut(g, a, b)
  }

  /** form_inbound_edge: appends `a` to the inputs of `b`, whatever the pair. */
  function FormInboundEdge(g: Graph, b: nat, a: nat): (g': Graph)
    requires a < |g| && b < |g|
    ensures |g'| == |g| && g'[b].inputNodes == g[b].inputNodes + [a]
    ensures g'[b].shape == g[b].shape && g'[b].outputNodes == g[b].outputNodes
    ensures forall i | 0 <= i < |g| && i != b :: g'[i] == g[i]
  {
    AppendIn(g, b, a)
  }

  /** form_edge: asserts a shared product before touching either end; on
      failure nothing is recorded, on success both ends are. */
  function FormEdge(g: Graph, a: nat, b: nat): (r: Result<Graph>)
    requires a < |g| && b < |g|
    ensures r.Ok? <==> SharesProduct(g[a].shape, g[b].shape)
    ensures r.Err? ==> r.error == ProductMismatch
    ensures r.Ok? ==> r.value == FormInboundEdge(FormOutboundEdge(g, a, b), b, a)
    ensures r.Ok? ==> b in r.value[a].outputNodes && a in r.value[b].inputNodes
  {
    if SharesProduct(g[a].shape, g[b].shape) then Ok(Link(g, a, b)) else Err(ProductMismatch)
  }

  /** Where a Python slice bound `pos` lands in a string of length `n`. */
  function SliceIndex(pos: int, n: nat): (k: nat)
    ensures k <= n
    ensures 0 <= pos <= n ==> k == pos
  {
    if pos < 0 then (if n + pos < 0 then 0 else n + pos)
    else if pos > n then n
    else pos
  }

  /** split_word: `(w[:pos], w[pos:])` with Python slicing and no range check. */
  function SplitWord(w: Word, pos: int): (r: (Word, Word))
    ensures r.0 + r.1 == w
    ensures |r.0| == SliceIndex(pos, |w|)
  {
    var k := SliceIndex(pos, |w|);
    (w[..k], w[k..])
  }

  /** Inside the range node_types.py allows, the two splits agree. */
  lemma SplitWordsAgree(w: Word, pos: int)
    requires 1 <= pos <= |w| - 1
    ensures Nodes.SplitWord(w, pos) == Ok(SplitWord(w, pos))
  {
  }

  /** Outside that range one half is empty: position 0 and any position at or
      beyond the end are accepted here but rejected by the checked split. */
  lemma {:induction false} SplitWordMayBeEmpty(w: Word, pos: int)
    requires pos == 0 || pos >= |w|
    ensures SplitWord(w, pos).0 == [] || SplitWord(w, pos).1 == []
    ensures Nodes.SplitWord(w, pos).Err?
  {
    var r := SplitWord(w, pos);
    if pos == 0 {
      assert |r.0| == 0;
    } else {
      assert |r.0| == |w|;
      assert |r.1| == 0;
    }
  }

  /** On every pair the checked protocol admits, the unchecked one does the
      same thing. */
  lemma AgreesOnAdmissible(g: Graph, a: nat, b: nat)
    requires a < |g| && b < |g|
    requires Admissible(g[a].shape, g[b].shape)
    ensures FormEdge(g, a, b) == Nodes.FormEdge(g, a, b) == Ok(Link(g, a, b))
  {
  }

  /** Source -> Sink: rejected by node_types.py for its kinds, accepted here
      because both ends carry the same word. */
  lemma SourceToSinkAccepted()
    ensures var g := [Fresh(SourceOf("a")), Fresh(SinkOf("a"))];
      && FormEdge(g, 0, 1) == Ok([Node(SourceOf("a"), [], [1]), Node(SinkOf("a"), [0], [])])
      && Nodes.FormEdge(g, 0, 1) == Err(KindViolation)
  {
    var g := [Fresh(SourceOf("a")), Fresh(SinkOf("a"))];
    assert "a" in Outputs(g[0].shape) && "a" in Inputs(g[1].shape);
    var linked := Link(g, 0, 1);
    assert linked[0] == Node(SourceOf("a"), [], [1]);
    assert linked[1] == Node(SinkOf("a"), [0], []);
    assert linked == [Node(SourceOf("a"), [], [1]), Node(SinkOf("a"), [0], [])];
  }
}
