/** `AssemblySystem.generate` (wordmill/node_types.py; the same text in
    wordmill/wordmill.py): one Sink per distinct output word and one Source
    per distinct character, a generating algorithm of wordmill/algorithms.py
    run on them, then discovery from the Sources. */
module Generate {
  import opened Outcomes
  import opened Words
  import opened Nodes
  import opened Construction
  import opened Discovery
  import Linear
  import Component
  import Bio
  import Team
  import Late

  /** The generating functions; late differentiation takes the standard
      products as its extra argument. */
  datatype Algorithm =
    | LinearAssembly
    | ComponentAssembly
    | BioInspired
    | ProductTeam
    | LateDifferentiation(standard: seq<Word>)

  /** The elements of `xs` in order of first occurrence, each once: the keys
      of a dictionary built from `xs`. */
  function Distinct<T(==, !new)>(xs: seq<T>): (r: seq<T>)
    ensures forall x :: x in r <==> x in xs
    ensures forall a, b | 0 <= a < b < |r| :: r[a] != r[b]
    decreases |xs|
  {
    if xs == [] then []
    else
      var n := |xs| - 1;
      assert xs == xs[..n] + [xs[n]];
      var d := Distinct(xs[..n]);
      if xs[n] in d then d else d + [xs[n]]
  }

  /** The characters of all the words, one after the other
      (`itertools.chain(*words)`). */
  function Letters(words: seq<Word>): (r: seq<char>)
    ensures forall c :: c in r <==> exists j | 0 <= j < |words| :: c in words[j]
    decreases |words|
  {
    if words == [] then []
    else
      var n := |words| - 1;
      assert forall j | 0 <= j < n :: words[..n][j] == words[j];
      Letters(words[..n]) + words[n]
  }

  /** What `generate` hands to the generating function: the arena, the
      `sources` dictionary and the `sinks` dictionary. */
  datatype Arena = Arena(g: Graph, src: Sources, sinks: Sinks)

  /** The Sinks come first, in the order of the words, then the Sources;
      nothing is connected. The order of the Sources is that of first
      occurrence, where the source iterates a set. */
  function ArenaOf(words: seq<Word>): (a: Arena)
    ensures |a.sinks| == |Distinct(words)| && |a.g| == |a.sinks| + |Distinct(Letters(words))|
  {
    var ws := Distinct(words);
    var cs := Distinct(Letters(words));
    Arena(
      seq(|ws|, j requires 0 <= j < |ws| => Fresh(SinkOf(ws[j])))
        + seq(|cs|, k requires 0 <= k < |cs| => Fresh(SourceOf([cs[k]]))),
      map k | 0 <= k < |cs| :: [cs[k]] := |ws| + k,
      seq(|ws|, j requires 0 <= j < |ws| => (ws[j], j)))
  }

  /** The arena node by node. */
  lemma ArenaFacts(words: seq<Word>) returns (ws: seq<Word>, cs: seq<char>)
    ensures ws == Distinct(words) && cs == Distinct(Letters(words))
    ensures var a := ArenaOf(words);
      && |a.g| == |ws| + |cs| && |a.sinks| == |ws|
      && (forall j | 0 <= j < |ws| :: a.g[j] == Fresh(SinkOf(ws[j])) && a.sinks[j] == (ws[j], j))
      && (forall i | |ws| <= i < |a.g| :: a.g[i] == Fresh(SourceOf([cs[i - |ws|]])))
      && (forall k | 0 <= k < |cs| :: [cs[k]] in a.src && a.src[[cs[k]]] == |ws| + k)
      && (forall c | c in a.src :: exists k | 0 <= k < |cs| :: c == [cs[k]])
  {
    ws := Distinct(words);
    cs := Distinct(Letters(words));
  }

  /** Every node of the arena is a bare Source or Sink, and each Sink has its
      own entry. */
  lemma ArenaBare(words: seq<Word>)
    ensures var a := ArenaOf(words);
      && (forall i | 0 <= i < |a.g| :: a.g[i].inputNodes == [] && a.g[i].outputNodes == [])
      && (forall i | 0 <= i < |a.g| :: a.g[i].shape.SourceOf? || a.g[i].shape.SinkOf?)
      && (forall i | 0 <= i < |a.g| && a.g[i].shape.SinkOf? :: exists j | 0 <= j < |a.sinks| :: a.sinks[j].1 == i)
      && (forall j, j' | 0 <= j < j' < |a.sinks| :: a.sinks[j].0 != a.sinks[j'].0 && a.sinks[j].1 != a.sinks[j'].1)
      && SinksFit(a.g, a.sinks)
  {
    var ws, cs := ArenaFacts(words);
    var a := ArenaOf(words);
    hide ArenaOf;
    forall i | 0 <= i < |a.g| && a.g[i].shape.SinkOf?
      ensures exists j | 0 <= j < |a.sinks| :: a.sinks[j].1 == i
    {
      assert a.sinks[i].1 == i;
    }
  }

  /** A character of an output word has its Source in the arena. */
  lemma LetterSourced(words: seq<Word>, cs: seq<char>, i: nat, ch: char) returns (m: nat)
    requires cs == Distinct(Letters(words))
    requires i < |words| && ch in words[i]
    ensures m < |cs| && cs[m] == ch
  {
    assert ch in Letters(words);
    m :| 0 <= m < |cs| && cs[m] == ch;
  }

  /** Every Source of the arena is the one the source map names, and every
      sink word is spelled with source characters. */
  lemma ArenaSourced(words: seq<Word>)
    ensures var a := ArenaOf(words);
      && SourcesFit(a.g, a.src) && CharSources(a.g, a.src)
      && forall j | 0 <= j < |a.sinks| :: AllCharsIn(a.sinks[j].0, a.src.Keys)
  {
    ArenaSourcesFit(words);
    ArenaCharSources(words);
    ArenaSinksSpelled(words);
  }

  lemma ArenaSourcesFit(words: seq<Word>)
    ensures var a := ArenaOf(words); SourcesFit(a.g, a.src)
  {
    var ws, cs := ArenaFacts(words);
    var a := ArenaOf(words);
    hide ArenaOf, Distinct, Letters;
    forall c | c in a.src ensures IsSourceAt(a.g, a.src[c], c) {
      var k :| 0 <= k < |cs| && c == [cs[k]];
      assert a.g[|ws| + k] == Fresh(SourceOf([cs[|ws| + k - |ws|]]));
    }
  }

  lemma ArenaCharSources(words: seq<Word>)
    ensures var a := ArenaOf(words); CharSources(a.g, a.src)
  {
    var ws, cs := ArenaFacts(words);
    var a := ArenaOf(words);
    hide ArenaOf, Distinct, Letters;
    forall i | 0 <= i < |a.g| && a.g[i].shape.SourceOf?
      ensures a.g[i].shape.w in a.src && a.src[a.g[i].shape.w] == i
    {
      assert a.src[[cs[i - |ws|]]] == |ws| + (i - |ws|);
    }
  }

  lemma ArenaSinksSpelled(words: seq<Word>)
    ensures var a := ArenaOf(words); forall j | 0 <= j < |a.sinks| :: AllCharsIn(a.sinks[j].0, a.src.Keys)
  {
    var ws, cs := ArenaFacts(words);
    var a := ArenaOf(words);
    hide ArenaOf;
    forall j | 0 <= j < |a.sinks|
      ensures AllCharsIn(a.sinks[j].0, a.src.Keys)
    {
      forall k | 0 <= k < |ws[j]|
        ensures [ws[j][k]] in a.src
      {
        assert ws[j] in ws;
        var i :| 0 <= i < |words| && words[i] == ws[j];
        var m := LetterSourced(words, cs, i, ws[j][k]);
      }
    }
  }

  /** Every Source's character occurs in some Sink's word. */
  lemma ArenaDemanded(words: seq<Word>)
    ensures var a := ArenaOf(words); Demanded(a.g, a.src)
  {
    var ws, cs := ArenaFacts(words);
    var a := ArenaOf(words);
    hide ArenaOf;
    forall c | c in a.src
      ensures exists i, k | 0 <= i < |a.g| && a.g[i].shape.SinkOf? && 0 <= k < |a.g[i].shape.w| ::
        [a.g[i].shape.w[k]] == c
    {
      var m :| 0 <= m < |cs| && c == [cs[m]];
      assert cs[m] in Letters(words);
      var j :| 0 <= j < |words| && cs[m] in words[j];
      assert words[j] in ws;
      var i :| 0 <= i < |ws| && ws[i] == words[j];
      var k :| 0 <= k < |ws[i]| && ws[i][k] == cs[m];
      assert a.g[i].shape.SinkOf? && [a.g[i].shape.w[k]] == c;
    }
  }

  /** The arena is a generation setting: one Sink per distinct word, one
      Source per character of the words, no edges. */
  lemma ArenaSetting(words: seq<Word>)
    ensures var a := ArenaOf(words); Setting(a.g, a.src, a.sinks)
  {
    ArenaBare(words);
    ArenaSourced(words);
    ArenaDemanded(words);
  }

  /** The sink words are exactly the output words, and the source words
      exactly their characters. */
  lemma ArenaWords(words: seq<Word>)
    ensures var a := ArenaOf(words);
      forall w :: w in words <==> exists j | 0 <= j < |a.sinks| :: a.sinks[j].0 == w
    ensures var a := ArenaOf(words);
      forall c :: c in a.src <==> |c| == 1 && exists j | 0 <= j < |words| :: c[0] in words[j]
  {
    var ws, cs := ArenaFacts(words);
    var a := ArenaOf(words);
    hide ArenaOf;
    forall w | w in words
      ensures exists j | 0 <= j < |a.sinks| :: a.sinks[j].0 == w
    {
      var j :| 0 <= j < |ws| && ws[j] == w;
      assert a.sinks[j].0 == w;
    }
    forall j | 0 <= j < |a.sinks|
      ensures a.sinks[j].0 in words
    {
      assert ws[j] in ws;
    }
    forall c: Word | |c| == 1 && exists j | 0 <= j < |words| :: c[0] in words[j]
      ensures c in a.src
    {
      var j :| 0 <= j < |words| && c[0] in words[j];
      var k := LetterSourced(words, cs, j, c[0]);
      assert c == [cs[k]];
    }
    forall c | c in a.src
      ensures |c| == 1 && exists j | 0 <= j < |words| :: c[0] in words[j]
    {
      var k :| 0 <= k < |cs| && c == [cs[k]];
      assert cs[k] in Letters(words);
    }
  }

  /** `func(sources, sinks, **kwargs)`: the chosen algorithm on the arena. */
  function Run(alg: Algorithm, a: Arena): (r: Result<Graph>)
    requires SourcesFit(a.g, a.src) && SinksFit(a.g, a.sinks)
    ensures r.Ok? ==> Grows(a.g, r.value)
  {
    match alg
    case LinearAssembly => Linear.FormLinear(a.g, a.src, a.sinks)
    case ComponentAssembly => Component.FormComponent(a.g, a.src, a.sinks)
    case BioInspired => Ok(Bio.FormBio(a.g, a.src, a.sinks))
    case ProductTeam => Ok(Team.FormTeam(a.g, a.src, a.sinks))
    case LateDifferentiation(std) => Late.FormLate(a.g, a.src, a.sinks, std)
  }

  /** The dispatch, one algorithm at a time. */
  lemma RunCases(alg: Algorithm, a: Arena)
    requires SourcesFit(a.g, a.src) && SinksFit(a.g, a.sinks)
    ensures alg == LinearAssembly ==> Run(alg, a) == Linear.FormLinear(a.g, a.src, a.sinks)
    ensures alg == ComponentAssembly ==> Run(alg, a) == Component.FormComponent(a.g, a.src, a.sinks)
    ensures alg == BioInspired ==> Run(alg, a) == Ok(Bio.FormBio(a.g, a.src, a.sinks))
    ensures alg == ProductTeam ==> Run(alg, a) == Ok(Team.FormTeam(a.g, a.src, a.sinks))
    ensures alg.LateDifferentiation? ==> Run(alg, a) == Late.FormLate(a.g, a.src, a.sinks, alg.standard)
  {
    hide Linear.FormLinear, Component.FormComponent, Bio.FormBio, Team.FormTeam, Late.FormLate;
  }

  /** Whatever the algorithm, every edge it forms passes the node_types.py
      rules. */
  lemma RunWired(alg: Algorithm, a: Arena)
    requires Setting(a.g, a.src, a.sinks)
    requires Run(alg, a).Ok?
    ensures Wired(Run(alg, a).value)
  {
    SettingFacts(a.g, a.src, a.sinks);
    match alg
    case LinearAssembly => Linear.LinearWired(a.g, a.src, a.sinks);
    case ComponentAssembly => Component.ComponentWired(a.g, a.src, a.sinks);
    case BioInspired => Bio.BioWired(a.g, a.src, a.sinks);
    case ProductTeam =>
      SettingSettled(a.g, a.src, a.sinks);
      Team.TeamWired(a.g, a.src, a.sinks);
    case LateDifferentiation(std) => Late.LateWired(a.g, a.src, a.sinks, std);
  }

  /** The linear algorithm on the words succeeds exactly when every word has
      at least two characters, and then leaves every node fully connected. */
  lemma LinearGenerates(words: seq<Word>)
    ensures var a := ArenaOf(words);
      Run(LinearAssembly, a).Ok? <==> forall w | w in words :: |w| >= 2
    ensures var a := ArenaOf(words);
      Run(LinearAssembly, a).Ok? ==>
        forall i | 0 <= i < |Run(LinearAssembly, a).value| :: FullyConnected(Run(LinearAssembly, a).value, i)
  {
    hide *;
    var a := ArenaOf(words);
    ArenaSetting(words);
    ArenaWords(words);
    SettingFacts(a.g, a.src, a.sinks);
    RunCases(LinearAssembly, a);
    Linear.LinearOutcome(a.g, a.src, a.sinks);
    LongWords(words, a.sinks, 2);
    if Run(LinearAssembly, a).Ok? {
      Linear.LinearComplete(a.g, a.src, a.sinks);
    }
  }

  /** The component algorithm on the words succeeds exactly when no word is
      empty, and then leaves every node fully connected. */
  lemma ComponentGenerates(words: seq<Word>)
    ensures var a := ArenaOf(words);
      Run(ComponentAssembly, a).Ok? <==> forall w | w in words :: |w| >= 1
    ensures var a := ArenaOf(words);
      Run(ComponentAssembly, a).Ok? ==>
        forall i | 0 <= i < |Run(ComponentAssembly, a).value| :: FullyConnected(Run(ComponentAssembly, a).value, i)
  {
    hide *;
    var a := ArenaOf(words);
    ArenaSetting(words);
    ArenaWords(words);
    SettingFacts(a.g, a.src, a.sinks);
    RunCases(ComponentAssembly, a);
    Component.ComponentOutcome(a.g, a.src, a.sinks);
    LongWords(words, a.sinks, 1);
    if Run(ComponentAssembly, a).Ok? {
      Component.ComponentComplete(a.g, a.src, a.sinks);
    }
  }

  /** A length bound on every output word is one on every sink word. */
  lemma LongWords(words: seq<Word>, sinks: Sinks, n: nat)
    requires forall w :: w in words <==> exists j | 0 <= j < |sinks| :: sinks[j].0 == w
    ensures (forall w | w in words :: |w| >= n) <==> forall j | 0 <= j < |sinks| :: |sinks[j].0| >= n
  {
    if forall w | w in words :: |w| >= n {
      assert forall j | 0 <= j < |sinks| :: sinks[j].0 in words;
    }
  }

  /** Late differentiation on the words fails on a standard output word,
      and the error names one; its only other failure is a loop that would
      never end. */
  lemma LateRejects(words: seq<Word>, std: seq<Word>)
    ensures var a := ArenaOf(words);
      (exists w | w in words :: w in std) ==>
        && Run(LateDifferentiation(std), a).Err?
        && Run(LateDifferentiation(std), a).error.StandardSink?
        && Run(LateDifferentiation(std), a).error.sinkWord in words
        && Run(LateDifferentiation(std), a).error.sinkWord in std
    ensures var a := ArenaOf(words);
      Run(LateDifferentiation(std), a).Err? ==>
        Run(LateDifferentiation(std), a).error.StandardSink? || Run(LateDifferentiation(std), a).error.Diverges?
  {
    hide *;
    var a := ArenaOf(words);
    ArenaSetting(words);
    ArenaWords(words);
    SettingFacts(a.g, a.src, a.sinks);
    RunCases(LateDifferentiation(std), a);
    Late.LateErrors(a.g, a.src, a.sinks, std);
    if exists w | w in words :: w in std {
      var w :| w in words && w in std;
      var j :| 0 <= j < |a.sinks| && a.sinks[j].0 == w;
      var first := Late.FirstStandard(a.sinks, std);
      assert first.Some?;
      assert a.sinks[first.value].0 in words;
    }
  }

  /** With no empty standard product, late differentiation on the words
      succeeds exactly when no word is standard or empty. */
  lemma LateGenerates(words: seq<Word>, std: seq<Word>)
    requires [] !in std
    ensures var a := ArenaOf(words);
      Run(LateDifferentiation(std), a).Ok? <==> forall w | w in words :: w !in std && |w| >= 1
  {
    hide *;
    var a := ArenaOf(words);
    ArenaSetting(words);
    ArenaWords(words);
    SettingFacts(a.g, a.src, a.sinks);
    RunCases(LateDifferentiation(std), a);
    Late.LateOutcome(a.g, a.src, a.sinks, std);
    SameWords(words, a.sinks, std);
  }

  /** A property of every output word is one of every sink word. */
  lemma SameWords(words: seq<Word>, sinks: Sinks, std: seq<Word>)
    requires forall w :: w in words <==> exists j | 0 <= j < |sinks| :: sinks[j].0 == w
    ensures (forall w | w in words :: w !in std && |w| >= 1) <==>
      Late.FirstStandard(sinks, std).None? && forall j | 0 <= j < |sinks| :: |sinks[j].0| >= 1
  {
    var first := Late.FirstStandard(sinks, std);
    if first.Some? {
      assert sinks[first.value].0 in words;
    }
    if forall w | w in words :: w !in std && |w| >= 1 {
      assert forall j | 0 <= j < |sinks| :: sinks[j].0 in words;
    }
  }

  /** The algorithm run on the arena `generate` builds for `words`. */
  function RunOn(alg: Algorithm, words: seq<Word>): Result<Graph> {
    ArenaSetting(words);
    SettingFacts(ArenaOf(words).g, ArenaOf(words).src, ArenaOf(words).sinks);
    Run(alg, ArenaOf(words))
  }

  lemma RunOnArena(alg: Algorithm, words: seq<Word>)
    ensures var a := ArenaOf(words);
      Setting(a.g, a.src, a.sinks) && RunOn(alg, words) == Run(alg, a)
  {
    hide ArenaOf, Setting, Run;
    ArenaSetting(words);
  }

  /** `generate`: the arena, the algorithm, then discovery from the
      Sources. */
  method GenerateSystem(alg: Algorithm, words: seq<Word>) returns (r: Result<System>)
    ensures var run := RunOn(alg, words);
      r.Ok? ==> run.Ok? && r.value.g == run.value && IsClosure(run.value, ArenaOf(words).src.Values, r.value.nodes)
    ensures r.Ok? ==> forall i | i in r.value.nodes :: i < |r.value.g| && FullyConnected(r.value.g, i)
    ensures var run := RunOn(alg, words);
      r.Err? ==> (run.Err? && r.error == run.error) || (run.Ok? && r.error == IncompleteGraph)
    ensures alg == LinearAssembly ==> (r.Ok? <==> forall w | w in words :: |w| >= 2)
    ensures alg == ComponentAssembly ==> (r.Ok? <==> forall w | w in words :: |w| >= 1)
    ensures alg.LateDifferentiation? && (exists w | w in words :: w in alg.standard) ==>
      r.Err? && r.error.StandardSink? && r.error.sinkWord in words && r.error.sinkWord in alg.standard
    ensures alg.LateDifferentiation? && [] !in alg.standard ==>
      ((forall w | w in words :: w !in alg.standard && |w| >= 1) <==> r.Ok? || r.error == IncompleteGraph)
  {
    hide *;
    var a := ArenaOf(words);
    RunOnArena(alg, words);
    SettingFacts(a.g, a.src, a.sinks);
    var run := Run(alg, a);
    LinearGenerates(words);
    ComponentGenerates(words);
    if alg.LateDifferentiation? {
      LateRejects(words, alg.standard);
      if [] !in alg.standard {
        LateGenerates(words, alg.standard);
      }
    }
    if run.Err? {
      r := Err(run.error);
      return;
    }
    DiscoverReady(alg, a);
    r := Discover(run.value, a.src.Values);
  }

  /** What discovery asks of the generated arena: it is well formed and the
      Sources are in it. */
  lemma DiscoverReady(alg: Algorithm, a: Arena)
    requires Setting(a.g, a.src, a.sinks)
    requires Run(alg, a).Ok?
    ensures WF(Run(alg, a).value)
    ensures forall s | s in a.src.Values :: s < |Run(alg, a).value|
  {
    RunWired(alg, a);
    SettingFacts(a.g, a.src, a.sinks);
    hide *;
    ReadyFacts(a.g, Run(alg, a).value, a.src);
  }

  lemma ReadyFacts(g: Graph, g': Graph, src: Sources)
    requires Wired(g') && Grows(g, g') && SourcesFit(g, src)
    ensures WF(g') && forall s | s in src.Values :: s < |g'|
  {
    forall s | s in src.Values ensures s < |g'| {
      var c :| c in src && src[c] == s;
    }
  }
}
