# wordmill assembly networks in Dafny

wordmill builds *assembly networks* that produce words from characters.
There are four node kinds:

- a **Source** supplies one word;
- an **Inventory** holds one word;
- a **Machine** glues a left and a right word into their concatenation;
- a **Sink** consumes one word.

Edges run from producer to consumer. Two node models implement them:

- `wordmill/node_types.py`, which checks every edge against a shared product and a table of allowed kinds;
- `wordmill/wordmill.py`, an older model with unchecked edges, which the generators import.

`AssemblySystem.generate` builds one network per call:

1. It creates one Sink per distinct output word and one Source per distinct character.
2. It runs one of the five generating algorithms of `wordmill/algorithms.py` on them.
3. It discovers the network from the Sources and rejects it when some node is not `fully_connected`.

The five algorithms are:

- linear assembly;
- component assembly;
- bio-inspired assembly;
- product-focused team assembly;
- late product differentiation.

The model keeps every node in one arena, `Graph = seq<Node>`. A node is a `Shape` plus its input and output neighbour indices. Node identity is a position in the arena. Python's dictionaries from word to node become `map<Word, nat>`, and a worklist entry becomes `Pending(inv, word)`. Each generator is a pure function from a `Build` (arena, worklist, Inventory cache, Machine cache) to a new `Build`. Python's `list.pop()` takes the last element, and so does the model.

A generator call can end in one of three ways in Python:

- it raises `KeyError` or `AssertionError`;
- it loops forever;
- it returns a network.

The model turns these into `Result` values:

- `MissingSource(w)`: `sources[w]` with no such Source;
- `Diverges(w)`: the loop can never end, because it re-queues a word that cannot shrink;
- `StandardSink(w)`: the cache lookup in the sink loop of late differentiation;
- `IncompleteGraph`: the `ValueError` of `discover`.

Modules:

- `outcomes.dfy`: `Result`, `Option` and the error values.
- `words.dfy`: words and their characters.
- `nodes.dfy` (`Nodes`): the node_types.py model. It covers shapes, the kind tables, checked edges, checked `split_word`, `neighbors` and `fully_connected`. It also defines the well-formedness invariant `Wired`: indices in range, every edge admissible, and both ends record it.
- `legacy.dfy` (`Legacy`): the wordmill.py model. Its edges are appended unchecked, `form_edge` checks only for a shared product, and `split_word` uses Python slicing. The module states how these differ from the checked model.
- `discovery.dfy` (`Discovery`): `discover` as a worklist closure, and `get_nodes_of_type`.
- `construction.dfy` (`Construction`): the building blocks shared by the generators. It includes the sink loop and the completeness argument. `Settled` is the invariant "every node is `fully_connected` except the ones still queued or waiting".
- `expansion.dfy` (`Expansion`): one Machine with two new Inventories, as linear, component and late differentiation create them.
- `linear.dfy`, `component.dfy`, `bio.dfy`, `team.dfy`, `late.dfy`: the five generators.
- `generate.dfy` (`Generate`): `generate` end to end.
- `drawing.dfy` (`Drawing`): an arena written as its list of node shapes and its list of edges, the way the tests write their expected networks, with one lemma per building operation.
- `scenarios.dfy` (`Scenarios`) and `bio_scenarios.dfy` (`BioScenarios`): the networks of the algorithm tests in `wordmill/tests/test_algorithms.py`, computed in full.

Every edge a generator forms goes through `Construction.Connect`. Its precondition is the node_types.py admissibility check, and it holds at every call site. So every generated network is `Wired`: it passes the checked edge protocol, even though the generators use the unchecked one. `Legacy.AgreesOnAdmissible` shows that the two protocols do the same thing on such pairs.

The scenario lemmas give the exact network, with its nodes numbered in creation order: Sinks, then Sources, then what the generator adds. The tests compare networks only up to isomorphism, so any numbering would pass them. The scenarios fix the one the model produces.

## Model

| member | source | states |
|---|---|---|
| Nodes.WordOf | wordmill/node_types.py:140-142 | the `word` of a node is its single output; a Sink has no outputs and reports its single input instead (Sink override at lines 265-273) |
| Nodes.AdmissibleIffFeeds | wordmill/node_types.py:192-253 | the kind tables together with the shared-product check admit exactly four edge shapes: Source(w)→Inventory(w), Inventory(w)→Sink(w), Inventory(x)→Machine with input x, Machine(l, r)→Inventory(l + r) |
| Nodes.KindTablesAgree | wordmill/node_types.py:192-253 | a sanity check on two finite tables, proved by case analysis: a kind is in the allowed-output table of p exactly when p is in the allowed-input table of that kind |
| Nodes.KindAlternation | wordmill/node_types.py:192-253 | a sanity check on the kind tables, proved by case analysis: every allowed edge has exactly one Inventory end; Sources are never fed and Sinks never feed |
| Nodes.FormOutboundEdge | wordmill/node_types.py:82-109 | succeeds iff the nodes share a product and the consumer's kind is allowed; no shared product gives ProductMismatch, a wrong kind gives KindViolation; on success only the producer's output list grows by the consumer |
| Nodes.FormInboundEdge | wordmill/node_types.py:111-138 | the mirror image: succeeds iff a shared product and the producer's kind is allowed; the same two errors in the same order |
| Nodes.FormEdge | wordmill/node_types.py:433-445 | succeeds exactly on admissible pairs; the first failing check decides the error; on success both ends record the edge and become neighbours |
| Nodes.SplitWord | wordmill/node_types.py:167-189 | succeeds iff 1 <= pos <= len(word) - 1; then the halves are non-empty, the first has length pos and they concatenate to the word; otherwise InvalidSplitPosition |
| Nodes.SplitWordInvertsConcat | wordmill/node_types.py:167-189 | splitting l + r at len(l) gives back (l, r) for non-empty l and r |
| Nodes.LinkPreservesWiring | wordmill/node_types.py:433-445 | an admissible edge keeps the arena well formed, every edge admissible and every edge recorded at both ends |
| Nodes.FullyConnectedPersists | wordmill/node_types.py:144-165 | adding nodes and edges never makes a fully connected node incomplete |
| Nodes.Neighbors | wordmill/node_types.py:74-80 | j is a neighbour iff it is an input or an output neighbour; a node on both lists, or listed twice, counts once. Nodes.MachineCompletes gives the neighbour sets the test walks through |
| Nodes.FullyConnected | wordmill/node_types.py:144-165 | a fully connected node has at least one neighbour, since every shape needs an input or an output. Nodes.FreshNotFullyConnected, FullyConnectedPersists and the *Completes lemmas state its behaviour |
| Nodes.FreshNotFullyConnected | wordmill/tests/test_node_types.py:127-128 | a node with no neighbours is not fully connected, whatever its shape |
| Nodes.SourceCompletes | wordmill/tests/test_node_types.py:92-97 | a fresh Source("a") is not fully connected; after it feeds an Inventory("a") it is |
| Nodes.SinkCompletes | wordmill/tests/test_node_types.py:98-103 | a fresh Sink("a") is not fully connected; after an Inventory("a") feeds it, it is |
| Nodes.InventoryCompletes | wordmill/tests/test_node_types.py:104-110 | an Inventory("a") is not fully connected when fresh nor after a Source("a") feeds it; after it also feeds a Sink("a") it is |
| Nodes.MachineCompletes | wordmill/tests/test_node_types.py:111-140 | Machine("a", "b") gets input Inventory("a"), output Inventory("ab") and input Inventory("b"), one edge at a time at its own end; every edge is accepted, it then has 1, 2 and 3 neighbours, and it is fully connected after the third edge and not before |
| Legacy.FormOutboundEdge | wordmill/wordmill.py:77-84 | appends the consumer to the producer's outputs, whatever the pair; nothing else changes |
| Legacy.FormInboundEdge | wordmill/wordmill.py:86-93 | appends the producer to the consumer's inputs, whatever the pair; nothing else changes |
| Legacy.FormEdge | wordmill/wordmill.py:348-351 | succeeds iff the nodes share a product, then both ends record the edge; otherwise ProductMismatch and nothing is recorded |
| Legacy.SplitWord | wordmill/wordmill.py:354-355 | the halves concatenate to the word and the first has the length Python slicing gives for pos (negative positions count from the end, positions past the end clamp) |
| Legacy.SplitWordsAgree | wordmill/wordmill.py:354-355 | inside 1..len-1 the unchecked split equals the checked one |
| Legacy.SplitWordMayBeEmpty | wordmill/wordmill.py:354-355 | at position 0 or at or past the end the unchecked split yields an empty half where the checked one fails |
| Legacy.AgreesOnAdmissible | wordmill/wordmill.py:348-351 | on pairs the checked protocol admits, the unchecked `form_edge` has the same effect |
| Legacy.SourceToSinkAccepted | wordmill/wordmill.py:348-351 | a Source("a")→Sink("a") edge is accepted by the unchecked protocol and rejected by the checked one with KindViolation |
| Discovery.ClosureUnique | wordmill/node_types.py:345-350 | the neighbour closure of a seed set is unique, so the result does not depend on the order `set.pop` takes nodes in |
| Discovery.RediscoverSame | wordmill/node_types.py:320-353 | discovering again from a discovered set finds that same set |
| Discovery.Closure | wordmill/node_types.py:345-350 | the worklist loop returns the closure: the seeds, closed under neighbours, and nothing unreachable |
| Discovery.Discover | wordmill/node_types.py:320-353 | on success, the closure of the seeds with every member fully connected; IncompleteGraph iff some node of the closure is not; never fails when every node is fully connected |
| Discovery.NodesOfKind | wordmill/node_types.py:304-318 | lists exactly the system's nodes of the given kind, each once |
| Construction.Connect | wordmill/wordmill.py:348-351 | an edge a generator forms must be admissible under the node_types.py rules; only its two ends change, each gaining the other |
| Construction.SupplyOne | wordmill/algorithms.py:56-60 | one sink-loop iteration: a new Inventory of the sink word feeds the Sink, is queued and is recorded in the Inventory cache; all other nodes are unchanged. Linear, component and team (lines 8-11, 31-34, 95-97) share the iteration but never read the cache |
| Construction.SupplySinksQueues | wordmill/algorithms.py:7-11 | after the sink loop, the queue holds one Inventory per Sink, in sink order, each feeding its Sink |
| Construction.SupplySinksRecords | wordmill/algorithms.py:56-60 | after the sink loop, the Inventory cache holds exactly the sink words |
| Construction.SupplySinksSettles | wordmill/algorithms.py:7-11 | the sink loop turns "Sinks waiting" into "their Inventories queued" without breaking the completeness invariant |
| Construction.SettledComplete | wordmill/node_types.py:145-165 | a wired arena with nothing queued or waiting, whose Sources are all demanded, has every node fully connected |
| Construction.SettingSettled | wordmill/node_types.py:377-384 | the starting arena of `generate` (bare Sinks, one Source per character) is wired, and every node except the waiting Sinks is complete |
| Construction.SourcedIffAtom | wordmill/node_types.py:381-384 | with one Source per character, a word spelled with those characters has a Source iff it has length 1 |
| Expansion.Expand | wordmill/algorithms.py:41-47 | adds exactly three nodes (Machine, left and right Inventory) and records all of the new edges |
| Expansion.ExpandShapes | wordmill/algorithms.py:42-47 | the three new nodes are Machine(l, r), Inventory(l), Inventory(r), in that order |
| Expansion.NewEdgesAdmissible | wordmill/algorithms.py:42-47 | every edge the expansion forms passes the node_types.py rules |
| Expansion.ExpandKeepsWired | wordmill/algorithms.py:42-47 | an expansion keeps the arena wired |
| Linear.Step | wordmill/algorithms.py:14-26 | one iteration fails iff the first character has no Source (then MissingSource of it); otherwise it adds three nodes |
| Linear.StepShrinks | wordmill/algorithms.py:13-26 | an iteration strictly lowers the queued characters or keeps them and shortens the queue, so the loop ends |
| Linear.LoopOutcome | wordmill/algorithms.py:13-26 | with one Source per character, the loop succeeds iff every queued word has length >= 2, and otherwise fails with MissingSource("") |
| Linear.LinearOutcome | wordmill/algorithms.py:6-26 | the generator succeeds iff every sink word has at least two characters; otherwise `sources['']` fails |
| Linear.LinearWired | wordmill/algorithms.py:6-26 | every edge of the produced network passes the node_types.py rules |
| Linear.LinearComplete | wordmill/algorithms.py:6-26 | on success every node of the network is fully connected |
| Linear.FormLinear | wordmill/algorithms.py:6-26 | on success the arena only grows; Linear.LinearOutcome, LinearWired and LinearComplete say when it succeeds and what it builds |
| Component.HalvesFacts | wordmill/algorithms.py:41 | the floor(len/2) split concatenates back to the word; for words of length >= 2 both halves are non-empty and the checked split agrees |
| Component.Step | wordmill/algorithms.py:37-49 | an iteration fails iff the word has no Source and is shorter than 2, which would loop forever; otherwise it feeds or splits |
| Component.StepShrinks | wordmill/algorithms.py:36-49 | an iteration strictly lowers the queued characters or keeps them and shortens the queue |
| Component.LoopOutcome | wordmill/algorithms.py:36-49 | with one Source per character, the loop succeeds iff no queued word is empty, and otherwise never ends |
| Component.ComponentOutcome | wordmill/algorithms.py:29-49 | the generator succeeds iff every sink word is non-empty |
| Component.ComponentWired | wordmill/algorithms.py:29-49 | every edge of the produced network passes the node_types.py rules |
| Component.ComponentComplete | wordmill/algorithms.py:29-49 | on success every node of the network is fully connected |
| Component.FormComponent | wordmill/algorithms.py:29-49 | on success the arena only grows; Component.ComponentOutcome, ComponentWired and ComponentComplete say when it succeeds and what it builds |
| Bio.Hang | wordmill/algorithms.py:69-74 | the Machine for (l, r) (cached or new) feeds the Inventory of l + r |
| Bio.Attach | wordmill/algorithms.py:76-90 | the Inventory of one Machine input (cached or new and queued) feeds the Machine |
| Bio.CutFacts | wordmill/algorithms.py:67-68 | every split position 1..len-1 gives two non-empty, shorter halves that concatenate to the word |
| Bio.FactorsClosed | wordmill/algorithms.py:67-68 | the factors of the sink words contain them and are closed under splitting, which bounds the queue |
| Bio.StepShrinks | wordmill/algorithms.py:61-90 | an iteration strictly lowers the number of words without an Inventory, or keeps it and shortens the queue, so the loop ends |
| Bio.Loop | wordmill/algorithms.py:61-90 | the loop ends with an empty queue and the arena only grown; Bio.LoopWorked states what it builds |
| Bio.LoopWorked | wordmill/algorithms.py:61-90 | if every Inventory off the queue is worked on, the loop keeps it so. Worked on means a sourced word is fed by its Source, and any other word is served at every split position |
| Bio.BioWorked | wordmill/algorithms.py:52-90 | the generator's run ends with an empty queue and every Inventory of the network worked on |
| Bio.BioServes | wordmill/algorithms.py:52-90 | in the returned network, an Inventory of a word w with a Source is fed by that Source; any other w has, for every j in 1..len(w)-1, a Machine(w[..j], w[j..]) that feeds it and is fed by Inventories of both halves |
| Bio.JunctionServes | wordmill/algorithms.py:68-90 | after split position j, a Machine(w[..j], w[j..]) feeds the Inventory of w and is fed by the cached Inventories of both halves |
| Bio.StepServes | wordmill/algorithms.py:62-90 | a word with a Source is fed by it; any other word is served at every split position |
| Bio.LoopKeeps | wordmill/algorithms.py:61-90 | the loop never removes an edge and never changes a cached Inventory |
| Bio.BioWired | wordmill/algorithms.py:52-90 | every edge of the produced network passes the node_types.py rules |
| Bio.BioOneInventoryPerWord | wordmill/algorithms.py:52-90 | the network holds at most one Inventory per word |
| Bio.FormBio | wordmill/algorithms.py:52-90 | never fails and only grows the arena; Bio.BioServes, BioWired and BioOneInventoryPerWord say what it builds |
| Team.Head | wordmill/algorithms.py:99-106 | one split of the sink word adds a Machine and two fresh Inventories and returns them as a pair |
| Team.HeadsShape | wordmill/algorithms.py:98-106 | a sink word of length n yields n - 1 pairs, three new nodes each, laid out in split order |
| Team.FrontShape | wordmill/algorithms.py:95-106 | the sink's new Inventory feeds the Sink and heads all of its pairs |
| Team.KickoffFits | wordmill/algorithms.py:109-114 | a team starts with its two Inventories queued and cached, within the factors of its two words |
| Team.CrewFresh | wordmill/algorithms.py:108-144 | a team creates at most one Inventory per word, and none for its own two words |
| Team.TeamKeepsFronts | wordmill/algorithms.py:108-144 | running the teams changes no node of the first phase except the team's own two Inventories and the Sources |
| Team.TeamWired | wordmill/algorithms.py:93-144 | every edge of the produced network passes the node_types.py rules |
| Team.CrewServes | wordmill/algorithms.py:108-144 | after a team's run, its two Inventories and every Inventory it created are fed by the word's Source, or for a word without one, at every split position j, by a Machine(w[..j], w[j..]) fed by Inventories of both halves |
| Team.FormTeam | wordmill/algorithms.py:93-144 | never fails and only grows the arena; Team.FrontShape, CrewServes, CrewFresh, TeamKeepsFronts and TeamWired say what it builds |
| Late.FindFrom | wordmill/algorithms.py:192-193 | returns the first position at or after a where c occurs in w, or none |
| Late.Longest | wordmill/algorithms.py:158-163 | a result is a standard word other than w that occurs in w; no result means there is none. Late.LongestSpec adds that it is a longest one, the first in order among those of that length |
| Late.OccursIff | wordmill/algorithms.py:161 | `c in w` holds iff c occurs at some position, and `w.index(c)` is the first such position |
| Late.LongestSpec | wordmill/algorithms.py:158-163 | the helper returns none iff no standard word other than w occurs in w; otherwise a longest such word, the first one in order among those of that length |
| Late.Around | wordmill/algorithms.py:192-193 | head + c + tail == w, with c at its first occurrence |
| Late.ScenarioParts | wordmill/algorithms.py:158-193 | for "abcd" with standard ["bc"] the split is "a", "bc", "d" |
| Late.StandardInventory | wordmill/algorithms.py:150-156 | fails with NotStandard iff the word is not standard |
| Late.StandardOnce | wordmill/algorithms.py:150-156 | a standard word gets one cached Inventory, created and queued on first request, returned unchanged afterwards |
| Late.LoopKeepsCache | wordmill/algorithms.py:150-227 | over the whole `while` loop every cache entry survives with the same Inventory, and the cache gains only standard words: a standard word's Inventory, once created, is the one every later consumer gets |
| Late.IntermediateNotStandard | wordmill/algorithms.py:208-210 | with head and tail both non-empty, head + c is not a standard word: it occurs in w, is shorter than w, and is longer than the longest standard word c |
| Late.HalvesNotStandard | wordmill/algorithms.py:180-182 | when no standard word occurs in w, neither half of the split at 1 is standard |
| Late.StepStocked | wordmill/algorithms.py:150-227 | one iteration keeps every Inventory of a standard word the cached one: the new Inventories of standard words come only from the standard-inventory helper |
| Late.LoopStocked | wordmill/algorithms.py:150-227 | the whole `while` loop keeps every Inventory of a standard word the cached one |
| Late.IntakesStocked | wordmill/algorithms.py:167-173 | the sink loop as written creates no Inventory of a standard word |
| Late.IntakesFixedStocked | wordmill/algorithms.py:150-173 | the corrected sink loop creates a standard sink word's Inventory only through the helper, so it stays the cached one |
| Late.LateOneInventoryPerWord | wordmill/algorithms.py:147-227 | in the network the generator returns, no two Inventories hold the same standard word |
| Late.LateFixedOneInventoryPerWord | wordmill/algorithms.py:147-227 | the same for the corrected generator |
| Late.IntermediateCombines | wordmill/algorithms.py:209-213 | the intermediate Inventory of head + c is the first new node; a new Machine(head, c) feeds it and is fed by head's Inventory and the shared Inventory of c |
| Late.BothChains | wordmill/algorithms.py:208-217 | with head and tail both non-empty, Machine(head, c), fed by the Inventories of head and c, feeds an Inventory of head + c; that Inventory and tail's feed Machine(head + c, tail), which feeds the popped word's Inventory |
| Late.SingleCombines | wordmill/algorithms.py:218-227 | with only head (only tail) non-empty, one new Machine(head, c) (Machine(c, tail)) feeds the popped word's Inventory and is fed by that side's Inventory and the shared Inventory of c |
| Late.AssembleBuilds | wordmill/algorithms.py:195-227 | the three cases together, with the Inventories of head and tail as given; with both empty nothing changes |
| Late.DifferentiateRebuilds | wordmill/algorithms.py:191-227 | the popped word's Inventory is rebuilt around the first occurrence of the standard word c, as the cases above describe |
| Late.FallbackCombines | wordmill/algorithms.py:180-190 | with no standard word inside, Machine(w[..1], w[1..]) feeds the popped word's Inventory and is fed by the two new Inventories after it |
| Late.StepServes | wordmill/algorithms.py:175-227 | one turn on a successful step: a word with a Source is fed by it; with a longest standard word c it is rebuilt around c; otherwise it gets the split-at-1 Machine, and both halves are queued |
| Late.Step | wordmill/algorithms.py:175-227 | an iteration fails iff the word has no Source and either has no standard part and is shorter than 2, or has only the empty standard part and is not standard; this is the case that never ends |
| Late.StepShrinks | wordmill/algorithms.py:174-227 | an iteration never adds an uncreated standard word, and when it adds none it lowers the queued characters or shortens the queue |
| Late.LoopDiverges | wordmill/algorithms.py:174-227 | the only way the loop fails is a loop that never ends |
| Late.LoopOutcome | wordmill/algorithms.py:174-227 | with one Source per character and "" not standard, the loop succeeds iff no queued word is empty |
| Late.LoopKeepsWired | wordmill/algorithms.py:174-227 | the loop keeps the arena wired |
| Late.Intake | wordmill/algorithms.py:170-173 | a non-standard sink word gets a new queued Inventory that feeds its Sink |
| Late.FirstStandard | wordmill/algorithms.py:167-169 | finds the first sink whose word is standard, with no standard word before it |
| Late.IntakesOutcome | wordmill/algorithms.py:167-173 | the sink loop fails iff some sink word is standard, with StandardSink of the first; otherwise it queues one Inventory per sink in order |
| Late.LateErrors | wordmill/algorithms.py:147-227 | a standard sink word makes the generator fail with StandardSink of the first one; any other failure is a loop that never ends |
| Late.LateOutcome | wordmill/algorithms.py:147-227 | with "" not standard, the generator succeeds iff no sink word is standard and none is empty |
| Late.LateWired | wordmill/algorithms.py:147-227 | every edge of the produced network passes the node_types.py rules |
| Late.FormLate | wordmill/algorithms.py:147-227 | on success the arena only grows; Late.LateErrors, LateOutcome and LateWired say when it succeeds and what it builds |
| Late.StandardSinkExample | wordmill/algorithms.py:167-169 | with sink "ab" and standard ["ab"], the generator as written fails; the corrected sink loop feeds the Sink |
| Late.IntakesFixedFeeds | wordmill/algorithms.py:167-173 | with the lookup replaced by the standard-inventory helper, every Sink, standard or not, is fed by an Inventory of its word |
| Late.FormLateFixed | wordmill/algorithms.py:147-227 | the generator with the corrected sink loop; on success the arena only grows; Late.LateFixedOutcome says how it fails and what it builds |
| Late.LateFixedOutcome | wordmill/algorithms.py:147-227 | the corrected generator fails only by a loop that never ends; on success every Sink is fed and the arena stays wired |
| Generate.Distinct | wordmill/node_types.py:377-380 | the keys of the sink dictionary: every word, each once |
| Generate.Letters | wordmill/node_types.py:381-384 | a character is listed iff it occurs in some output word |
| Generate.ArenaOf | wordmill/node_types.py:377-384 | one sink entry per distinct output word, and one node per distinct output word plus one per distinct character; Generate.ArenaWords and ArenaSetting say which nodes are Sinks and Sources and of which words |
| Generate.ArenaSetting | wordmill/node_types.py:377-384 | the starting arena has bare Sinks, one Source per character and is wired |
| Generate.ArenaWords | wordmill/node_types.py:377-384 | w is an output word iff some Sink consumes w, and a Source word exists iff it is a single character of some output word |
| Generate.Run | wordmill/node_types.py:385 | running any algorithm only adds nodes and edges to the starting arena |
| Generate.RunWired | wordmill/node_types.py:385 | every algorithm's network passes the node_types.py edge rules |
| Generate.LinearGenerates | wordmill/node_types.py:355-386 | linear assembly succeeds iff every output word has two or more characters, and its network is then complete |
| Generate.ComponentGenerates | wordmill/node_types.py:355-386 | component assembly succeeds iff no output word is empty, and its network is then complete |
| Generate.LateRejects | wordmill/node_types.py:355-386 | late differentiation fails with StandardSink on an output word that is standard; it fails only that way or by not ending |
| Generate.LateGenerates | wordmill/node_types.py:355-386 | with "" not standard, late differentiation succeeds iff no output word is standard and none is empty |
| Drawing.NetworkNodes | wordmill/tests/test_algorithms.py:134-136 | node i of the network drawn from a shape list and an edge list has shape i, its producers as inputs and its consumers as outputs, in the order the edges were formed |
| Scenarios.LinearAb | wordmill/tests/test_algorithms.py:13-26 | linear assembly on "ab" builds exactly Sink ab, Sources a and b, Inventories ab, a and b and Machine a+b, with the six edges of the chain |
| Scenarios.LinearAbBa | wordmill/tests/test_algorithms.py:27-49 | on "ab" and "ba" it builds two chains that share only the Sources, each with its own Inventories of a and b: 12 nodes, 12 edges |
| Scenarios.ComponentAbcd | wordmill/tests/test_algorithms.py:50-71 | component assembly on "abcd" builds the balanced tree: Machine ab+cd below Inventory abcd, Machines a+b and c+d below Inventories ab and cd, each character fed by its Source; 15 nodes, 14 edges |
| BioScenarios.TeamAbc | wordmill/tests/test_algorithms.py:72-102 | team assembly on "abc" feeds Inventory abc from Machines a+bc and ab+c, each team with its own Inventories of a, b, c, ab and bc; 17 nodes, 19 edges |
| BioScenarios.BioAbc | wordmill/tests/test_algorithms.py:103-130 | bio-inspired assembly on "ABC" shares one Inventory each of A, B, C, AB and BC; Machines A+BC and AB+C both feed Inventory ABC; 14 nodes, 16 edges |
| Generate.GenerateSystem | wordmill/node_types.py:355-386 | on success, the system discovered from the Sources of the generated network, every member fully connected; a failure is the algorithm's own or IncompleteGraph; linear and component never give IncompleteGraph |

## Left out

- `to_digraph` and `to_graphviz`: output formatting for external tools.
- Class lookup through `sys.modules` and `isinstance`: replaced by the `Kind` of a shape.
- Object identity: replaced by arena positions.
- The generators mix two class hierarchies: wordmill.py Machines and Inventories (algorithms.py line 1) are joined to the node_types.py Sinks and Sources that `generate` creates. The model has one node type for both, and checks every edge against the node_types.py rules.
- Keyword arguments of `generate`: the one extra argument, late differentiation's standard words, is a field of `Algorithm`.
- Iteration order of sets and of `set(itertools.chain(*words))`: the model lists Sources in first-occurrence order. `discover`'s result does not depend on the order (`Discovery.ClosureUnique`). The generators' results may, and the model fixes one order.
- The node `set.pop` returns in `discover` is arbitrary; the model leaves the choice open and proves the result is the same closure for every choice.
- Python's `AssertionError` in the checked `split_word` and the `ValueError`s of the checked edge protocol are error values. The generators never reach them, because every edge they form is admissible.
- Team.Crew: team assembly looks Machines up in `created_machines` (algorithms.py lines 123-124), which it never writes, so it always builds a new Machine. The model does the same (the bio loop without Machine sharing) and so never shares a Machine inside a team. The new Machine is written into `created_inventories` under the key `(w_left, w_right)` (line 126); no word lookup can match a pair key, so the model leaves that entry out.
- Bio.BioWired: completeness of the bio-inspired network (every node fully connected) is not proved. Bio.BioServes proves, for the returned network, that every Inventory is fed by its Source or served at every split position. Well-formedness and one Inventory per word are proved too.
- Team.TeamWired: completeness of the team network is not proved. Well-formedness, the freshness of each team's nodes, and that each team serves every Inventory of its own (Team.CrewServes) are.
- Late.LateWired: completeness of the late-differentiation network is not proved. Proved instead: well-formedness, the exact success condition, and at most one Inventory per standard word (Late.LateOneInventoryPerWord).
- Late.LoopOutcome: the success condition assumes one Source per character (as `generate` builds them) and that "" is not standard.
- Late.LateOutcome: carries the same restriction as Late.LoopOutcome, because it requires that "" is not standard. Late.LateErrors covers every standard-word list: any failure is StandardSink or a loop that never ends.
- Generate.LateGenerates: states the exact success condition only when "" is not standard. Otherwise the model states that any failure is StandardSink or a loop that never ends.
- Non-termination: a Python loop that would never end is the error `Diverges`. The model does not run it.

## Findings

| source | as written | input that shows it | evidently intended | confidence | as-written member | corrected member |
|---|---|---|---|---|---|---|
| wordmill/algorithms.py:167-169 | a sink word in `w_standard` is looked up in `inventories_for_standard_products`, which is still empty, so it raises KeyError | sinks "ab", standard ["ab"] | take the Sink's Inventory from `get_inventory_for_standard_product(w_out)`, which creates, queues and caches it | not executed | Late.StandardSinkExample | Late.LateFixedOutcome |
