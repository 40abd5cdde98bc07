# Bender core, modelled in Dafny

Bender is a Swift framework that runs neural networks on Metal. This project models the sequential
logic that surrounds the GPU kernels, and proves properties of that model:

- the mutable dependency graph (`Node`): edge insertion, deletion, replacement, removal with
  rewiring, stripping and insertion of chains, over one table of incoming and outgoing lists;
- the dependency order built by `DependencyListBuilder` and `sortNodes`, with its count assertion;
- the `->>` operators that wire layer groups together;
- `Network` and `NetworkLayer`: execution-list handling, pre- and post-processing insertion,
  checkpoint changes, output images and their read counts;
- the layers' size, offset and parameter arithmetic (Convolution, ConvTranspose, Pooling, Concat,
  FullyConnected, BatchNorm, Crop, Start), the two parameter loaders, the Metal function-constant
  keys and the pipeline cache of `MetalShaderManager`;
- the legacy style-transfer pipeline (`NetworkPipeline`, `StyleNet`, `ConvolutionLayer`,
  `ConvTransposeLayer`) with its weight-file names;
- the TensorFlow importer: `TFGraph` construction, the name and op predicates and subgraph
  patterns, the protocol-buffer accessors, every optimizer (training-op stripping, subgraph and
  dropout deletion, ignored ops, variables, Dense substitution, Reshape removal, bias and neuron
  folding, dilations, instance norm), the weight selection, the mapper table and the conversion
  driver;
- shape and index arithmetic: `LayerSize`, `ConvSize`, `Shape.totalCount`, the thread grid, and the
  HWIO→OHWI / HWIO→OWHI weight permutations;
- the `Texture` helper's slice layout with its round trip, and `argmax`/`argsort`.

Nodes are indices (`Graph.Id`) into one `Graph.NodeTable`, whose `edgeIn` and `edgeOut` hold every
node's incoming and outgoing lists. Weak references become plain indices. Node equality is index
equality. Swift's `Int` is modelled as an unbounded `int`, with Swift's truncating `/` and `%`
written out in `SwiftInt`. A `fatalError` becomes a `Failure` result. A debug `assert` becomes a
returned flag. An array access that traps becomes a precondition.

## Model

| member | source | states |
|---|---|---|
| SwiftInt.Rem | Sources/Helpers/MTLTexture.swift:15 | Swift's remainder truncates toward zero: it has the sign of the dividend and a smaller magnitude than the divisor |
| SwiftInt.DivRemBounds | Sources/Helpers/MTLTexture.swift:15 | Swift's quotient times the divisor falls short of the dividend by less than the divisor, on the dividend's side of zero |
| SeqUtil.FirstIndex | Sources/Graph/Node.swift:55 | `firstIndex(of:)` gives the first position holding the element |
| SeqUtil.RemoveFirst | Sources/Graph/Node.swift:70-74 | removing the first occurrence leaves a list without the element unchanged and adds nothing |
| SeqUtil.RemoveFirstAt | Sources/Graph/Node.swift:70-74 | `remove(at: firstIndex(of:))` deletes exactly the first occurrence and keeps the rest in order |
| SeqUtil.RemoveFirstCount | Sources/Graph/Node.swift:70-74 | one removal lowers the element's count by one when present and leaves every other count alone |
| SeqUtil.RemoveFirstTimesCount | Sources/Graph/Node.swift:110-132 | k removals lower the element's count by k, never below zero, and no other count changes |
| SeqUtil.RemoveFirstNoDup | Sources/Graph/Node.swift:70-74 | removing an element from a duplicate-free list removes it entirely |
| Graph.NodeTable.constructor | Sources/Core/NetworkLayer.swift:51-52 | new nodes start lonely, in a well-formed table |
| Graph.NodeTable.AddNode | Sources/Core/NetworkLayer.swift:51-52 | a new node has empty lists; nothing else changes and well-formedness is kept |
| Graph.NodeTable.AddIncomingEdge | Sources/Graph/Node.swift:42-50 | adds `u` to `v`'s incoming list and `v` once to `u`'s outgoing list, and does nothing when `u` is already incoming; symmetry and duplicate-freedom are kept |
| Graph.NodeTable.DeleteIncomingEdge | Sources/Graph/Node.swift:70-74 | removes only the first occurrence of `u` from `v`'s incoming list; a no-op when absent |
| Graph.NodeTable.DeleteOutgoingEdge | Sources/Graph/Node.swift:82-86 | removes only the first occurrence of `u` from `v`'s outgoing list; a no-op when absent |
| Graph.NodeTable.Replace | Sources/Graph/Node.swift:54-62 | overwrites the first `old` entry in place (same length, other entries unchanged) and points `new` at `v`; a no-op when `old` is not incoming |
| Graph.NodeTable.AddIncomingEdgeToAll | Sources/Graph/Node.swift:99-101 | every target gains `u` as an incoming node, as by repeated `addIncomingEdge` |
| Graph.NodeTable.RemoveFromGraph | Sources/Graph/Node.swift:89-106 | the node ends lonely; every former predecessor becomes incoming to every former successor; other edges are kept and none is invented; in a well-formed graph no list mentions the node any more |
| Graph.NodeTable.RewireAll | Sources/Graph/Node.swift:97-102 | the second loop of `removeFromGraph`: each predecessor drops the node from its outgoing list and links to every successor |
| Graph.NodeTable.Clear | Sources/Graph/Node.swift:104-105 | both lists of the node are emptied and nothing else changes |
| Graph.NodeTable.Strip | Sources/Graph/Node.swift:110-132 | the node ends lonely; each neighbour loses as many references to it as it had edges, with no rewiring; lonely nodes stay lonely; well-formedness is kept |
| Graph.NodeTable.StripRecursive | Sources/Graph/Node.swift:110-132 | `strip(recursive: true)`: the node and (with depth left) its former neighbours end lonely; edges are only ever removed |
| Graph.NodeTable.StripAll | Sources/Graph/Node.swift:110-132 | stripping a list of nodes leaves each of them lonely and removes edges only |
| Graph.NodeTable.Insert | Sources/Graph/Node.swift:136-145 | `insert(outgoing: [])` changes nothing; otherwise each former successor sees `nodes.last` in place of the node, and the node's only successor is `nodes.first` |
| Graph.NodeTable.RedirectSuccessors | Sources/Graph/Node.swift:140-143 | every former successor has the node replaced by `last` once per edge, and the node's outgoing list is emptied |
| Graph.NodeTable.DeleteFromIncomingLists | Sources/Graph/Node.swift:113-115 | each outgoing node loses one reference to the stripped node per edge |
| Graph.NodeTable.DeleteFromOutgoingLists | Sources/Graph/Node.swift:116-118 | each incoming node loses one reference to the stripped node per edge |
| Graph.NodeTable.StripWellFormed | Sources/Graph/Node.swift:110-132 | stripping a node of a symmetric, duplicate-free graph leaves it symmetric and duplicate-free |
| Graph.NodeTable.StripUnreferences | Sources/Graph/Node.swift:110-132 | after stripping a node of a well-formed graph, no list mentions it |
| Graph.NodeTable.StripOutMirrored | Sources/Graph/Node.swift:110-132 | stripping keeps every outgoing edge mirrored by an incoming one |
| Graph.RedirectedAt | Sources/Graph/Node.swift:140-143 | each node's incoming list is rewritten once per edge from the inserted-before node |
| Dependency.TableLinked | Sources/Graph/DependencyListBuilder.swift:27-33 | a table whose outgoing edges are all mirrored gives the builder consistent adjacency |
| Dependency.BuildOne | Sources/Graph/DependencyListBuilder.swift:26-34 | `buildExecutionList` appends the node exactly when all its incoming nodes are listed, keeps everything listed before, and keeps every listed node after its predecessors and off every cycle |
| Dependency.BuildEach | Sources/Graph/DependencyListBuilder.swift:31-33 | the successors are visited in edge order and the list only grows, keeping dependency order |
| Dependency.BuildFrom | Sources/Graph/DependencyListBuilder.swift:19-24 | the inputs are processed in order; the result extends the old list and is in dependency order with no node of a cycle |
| Dependency.BuildFromSingle | Sources/Graph/DependencyListBuilder.swift:14-16 | `list(from: x)` equals `list(from: [x])` |
| Dependency.DependencyListBuilder.ListFrom | Sources/Graph/DependencyListBuilder.swift:19-24 | the builder's stored list grows to `BuildFrom` of its old list, so calls accumulate |
| Dependency.DependencyListBuilder.ListFromNode | Sources/Graph/DependencyListBuilder.swift:14-16 | the single-input form builds the same list |
| Dependency.DependencyListBuilder.BuildExecutionList | Sources/Graph/DependencyListBuilder.swift:26-34 | the recursive method computes `BuildOne` on the stored list |
| Dependency.DependencyListBuilder.VisitEach | Sources/Graph/DependencyListBuilder.swift:31-33 | the loop over outgoing nodes computes `BuildEach` |
| Dependency.Relisted | Sources/Graph/DependencyListBuilder.swift:27-30 | a node that is ready and already listed is appended a second time |
| Dependency.TriangleRelists | Sources/Graph/DependencyListBuilder.swift:27-30 | with edges 0→1, 0→2, 1→2, building from 0 lists 2 twice; the corrected builder lists it once |
| Dependency.ListedOnce | Sources/Graph/DependencyListBuilder.swift:27-30 | with the guard also skipping listed nodes, the list never holds a node twice |
| Dependency.VisitsFrom | Sources/Graph/DependencyListBuilder.swift:19-34 | `list(from:)` lists every input that is ready when it is reached, and every listed node has had its outgoing nodes visited |
| Dependency.BuildFromComplete | Sources/Graph/DependencyListBuilder.swift:19-34 | completeness: in an acyclic table whose edges are mirrored both ways, starting from inputs that hold every node without incoming nodes lists every node |
| Dependency.CycleNodesUnlisted | Sources/Graph/DependencyListBuilder.swift:26-34 | a node on a cycle is never listed, whatever the inputs |
| GraphProtocol.Roots | Sources/Graph/Graph.swift:28 | keeps exactly the listed nodes without incoming nodes |
| GraphProtocol.RootsOrdered | Sources/Graph/Graph.swift:28 | the filter keeps the relative order of the list |
| GraphProtocol.Connected | Sources/Graph/Graph.swift:22-24 | `removeLonely` keeps exactly the nodes with an incoming or outgoing edge |
| GraphProtocol.ConnectedIdempotent | Sources/Graph/Graph.swift:22-24 | removing lonely nodes twice is the same as once |
| GraphProtocol.SortNodes | Sources/Graph/Graph.swift:27-32 | the roots seed a fresh builder; the sorted list is in dependency order and holds no node of a cycle; when the table is acyclic, mirrored and wholly listed every node is sorted; the assertion compares only the counts of sorted and listed nodes |
| GraphProtocol.SortOnceDetectsCycles | Sources/Graph/Graph.swift:27-32 | with the builder that lists each node once, the count assertion over a duplicate-free list of every node of a mirrored table holds exactly when there is no cycle |
| GraphProtocol.TriangleSortLosesCycle | Sources/Graph/Graph.swift:27-32 | as written, sorting [0, 1, 2, 3] of the graph 0→1, 0→2, 1→2 with a self-loop on 3 gives [0, 1, 2, 2]: the counts agree although node 3 lies on a cycle and is lost |
| Sizes.AllAxesListsEachOnce | Sources/Helpers/LayerSize.swift:17 | `all` lists the three axes once each |
| Sizes.AxisFromTF | Sources/Helpers/LayerSize.swift:19-30 | indices 1, 2, 3 give an axis and every other index gives none |
| Sizes.AxisFromTFInverse | Sources/Helpers/LayerSize.swift:19-30 | 1→w, 2→h, 3→f is a bijection onto the axes |
| Sizes.SameSizeIsEquality | Sources/Helpers/LayerSize.swift:46-56 | `==` holds iff all three fields agree, iff every axis subscript agrees |
| Sizes.SquareConvSize | Sources/Helpers/LayerSize.swift:76-78 | the square initialiser sets equal kernel sides and equal strides |
| Sizes.SquareConvSizeOnto | Sources/Helpers/LayerSize.swift:76-78 | every conv size with equal sides and strides comes from the square initialiser |
| Sizes.PaddingFromTF | Sources/Core/PaddingType.swift:24-30 | `.same` exactly for `"SAME"`, `.valid` for every other string |
| Sizes.PaddingIsCaseSensitive | Sources/Core/PaddingType.swift:25-29 | `"VALID"`, `"same"` and `"Same"` all give `.valid` |
| Sizes.ReduceIsProduct | Sources/Helpers/Shape.swift:19 | `reduce(1, *)` is the product |
| Sizes.TotalCountIsProduct | Sources/Helpers/Shape.swift:18-20 | `totalCount` is width·height·inputChannels·outputChannels, and 0 when a dimension is 0 |
| Sizes.TotalCountOrderFree | Sources/Helpers/Shape.swift:19 | the product does not depend on the order of the dimensions |
| Sizes.ThreadGrid | Sources/Helpers/MTLTexture.swift:14-16 | the grid is at least 1 per side, covers the texture minimally, and its depth is the array length |
| Sizes.TextureSize | Sources/Helpers/MTLTexture.swift:18-20 | the size has four channels per array slice and the texture's width and height |
| Sizes.ToData | Sources/Helpers/Array.swift:12-14 | keeps the first `min(count, self.count)` elements, all of them without a count |
| Sizes.CleanMap | Sources/Helpers/Array.swift:16-22 | every result comes from an element whose block result was non-nil |
| Sizes.CleanMapAppend | Sources/Helpers/Array.swift:16-22 | `cleanMap` distributes over concatenation, so it keeps order |
| Sizes.CleanMapSingle | Sources/Helpers/Array.swift:16-22 | one element gives its unwrapped result or nothing |
| Images.DescriptorFor | Sources/Helpers/MPSImageDescriptor.swift:13-15 | the descriptor takes its width, height and channels from the size |
| Images.SizeOf | Sources/Helpers/MPSImageDescriptor.swift:20-22 | `size` is (height, width, featureChannels) |
| Images.DescriptorRoundTrip | Sources/Helpers/MPSImageDescriptor.swift:13-22 | size → descriptor → size and descriptor → size → descriptor are identities |
| Images.AfterRead | Sources/Helpers/MPSImageDescriptor.swift:24-28 | a temporary image's positive read count drops by exactly one; otherwise nothing changes |
| Images.ReadsExhaust | Sources/Helpers/MPSImageDescriptor.swift:24-28 | n reads never take the count below zero, and never change a permanent image |
| Images.Image.SetRead | Sources/Helpers/MPSImageDescriptor.swift:24-28 | `setRead` updates the read count as `AfterRead` |
| Strings.NatToString | Sources/Core/NetworkLayer.swift:58 | the decimal rendering is a non-empty string of digits |
| Strings.NatToStringInjective | Sources/Core/NetworkLayer.swift:58 | different counters render differently |
| NetworkLayers.AnonymousId | Sources/Core/NetworkLayer.swift:58 | anonymous ids start with `Anonymous_` |
| NetworkLayers.AnonymousIdsDistinct | Sources/Core/NetworkLayer.swift:54-62 | anonymous ids drawn at different counter values differ |
| NetworkLayers.IdCounter.NextId | Sources/Core/NetworkLayer.swift:54-62 | a given id is kept; otherwise `Anonymous_<counter>` is used and the counter increments |
| NetworkLayers.AnonymousLayersUnequal | Sources/Core/NetworkLayer.swift:190-194 | two anonymous layers made one after the other are never `==` |
| NetworkLayers.Layer.CreateOutputs | Sources/Core/NetworkLayer.swift:74-88 | temporary creation sets only the descriptor; otherwise exactly `maxConcurrentExecutions` images of the size are appended, or none without a network or with a count ≤ 0 |
| NetworkLayers.Layer.GetOutput | Sources/Core/NetworkLayer.swift:91-98 | the temporary image if any, else `outputs[index]` |
| NetworkLayers.Layer.GetOrCreateOutput | Sources/Core/NetworkLayer.swift:101-113 | a new temporary image only when none exists or its read count is 0, then read once per outgoing layer; `outputs[index]` without a descriptor |
| NetworkLayers.Layer.RewireIdentity | Sources/Core/NetworkLayer.swift:117-127 | a temporary image is adopted with one read per outgoing layer; a permanent one is written at `index`, creating the outputs first when there are none |
| NetworkLayers.Layer.Destroy | Sources/Core/NetworkLayer.swift:145-150 | the temporary output's read count ends at 0 and `outputs` is emptied |
| NetworkLayers.AsGroup | Sources/Core/NetworkLayer.swift:154-166 | a layer is the group running from itself to itself |
| Operators.AppendNewContents | Sources/Core/Operators.swift:29-31 | adding several incoming nodes keeps the old list as a prefix, adds exactly the new ones, and adds no duplicates |
| Operators.Link | Sources/Core/Operators.swift:20-24 | `left ->> right` adds the edge left.output→right.input and returns (left.input, right.output); well-formedness is kept |
| Operators.LinkAll | Sources/Core/Operators.swift:28-34 | every left output becomes incoming to right.input; the group runs from `left[0].input` |
| Operators.JoinAll | Sources/Core/Operators.swift:29-31 | the loop adds each source to the target's incoming list, once |
| Operators.Fan | Sources/Core/Operators.swift:39-46 | left.output becomes incoming to each right input; one group per right group, in order |
| Operators.ConnectAll | Sources/Core/Operators.swift:41-44 | the loop adds `u` as incoming to each target |
| Operators.Chain | Sources/Core/Operators.swift:11-24 | `a ->> b ->> c` adds a→b and then b→c and touches no other incoming list |
| Operators.Connect | Sources/Core/Operators.swift:21 | linking goes through `addIncomingEdge`, so a repeated link adds no duplicate edge |
| Operators.OutputsAt | Sources/Core/Operators.swift:29-30 | the outputs of the groups, in order |
| Operators.InputsAt | Sources/Core/Operators.swift:41-42 | the inputs of the groups, in order |
| Networks.StartId | Sources/Core/Network.swift:54-60 | a start node's id is `Start_` followed by its input name |
| Networks.FirstMatch | Sources/Core/Network.swift:40-42 | the first position whose element satisfies the test, or none |
| Networks.ContainsId | Sources/Core/Network.swift:144 | `contains` on layers compares ids |
| Networks.NonDummies | Sources/Core/Network.swift:149-150 | keeps exactly the nodes that are not `Dummy`, and never more than the list holds |
| Networks.NonDummiesNoDummy | Sources/Core/Network.swift:149-150 | a list without dummies is kept as it is |
| Networks.NonDummiesAppend | Sources/Core/Network.swift:149-150 | filtering a concatenation filters each part, so the kept layers stay in their order |
| Networks.NonDummiesSnoc | Sources/Core/Network.swift:149-150 | a layer appended at the end is kept at the end exactly when it is not a `Dummy` |
| Networks.WithOutput | Sources/Core/Network.swift:144-146 | the last node is added to the permanent outputs, at most once |
| Networks.WithOutputIdempotent | Sources/Core/Network.swift:144-146 | adding the output node twice is the same as once |
| Networks.AfterChange | Sources/Core/Network.swift:239-248 | the checkpoint becomes the new one; a no-op when unchanged, else every node is notified in order |
| Networks.ChangeIdempotent | Sources/Core/Network.swift:239-248 | a repeated `change(to:)` changes nothing more |
| Networks.PreInserted | Sources/Core/Network.swift:278-283 | the pre-processing layers go in after the first `at` nodes, which stay in front, with the rest following |
| Networks.PreInsertedContains | Sources/Core/Network.swift:278-283 | every pre-processing layer ends up in the list |
| Networks.LinkChain | Sources/Core/Network.swift:258-260 | consecutive layers are linked, no incoming edge is lost, and only the lists of the layers themselves change |
| Networks.ChainStep | Sources/Core/Network.swift:258-260 | one more link extends the chain |
| Networks.Network.constructor | Sources/Core/Network.swift:54-60 | one lonely `Start_<name>` node per input, an empty list, not initialised |
| Networks.Network.NodeFor | Sources/Core/Network.swift:40-42 | the first listed node with the id, or none when no listed node has it |
| Networks.Network.StartNodeFor | Sources/Core/Network.swift:304-306 | the first start node for the input name, or none |
| Networks.Network.Set | Sources/Core/Network.swift:117-122 | the node list is replaced, and the assertion holds exactly when the roots among the layers are as many as the start nodes |
| Networks.Network.Initialize | Sources/Core/Network.swift:132-166 | an empty list is built from the start nodes in dependency order; the last node becomes a permanent output at most once; dummies leave the list; every layer is told whether its image is temporary |
| Networks.Network.FillList | Sources/Core/Network.swift:140-142 | an empty list becomes the execution list built from the start nodes; a given list is kept |
| Networks.Network.RemoveDummies | Sources/Core/Network.swift:149-150 | the layers are handled in order, each on the graph the previous one left: a `Dummy` is removed from the graph, its predecessors linked to its successors (`RemovedFrom`), and left without edges; any other layer changes nothing; so a list without dummies leaves the graph unchanged |
| Networks.Network.MarkTemporary | Sources/Core/Network.swift:152-155 | a layer gets a temporary image exactly when it is not a permanent output |
| Networks.Network.Run | Sources/Core/Network.swift:184-236 | not initialised: calls back with nil and changes nothing; a wrong input count fails; otherwise each start node gets its input and the last node's output is returned |
| Networks.Network.Change | Sources/Core/Network.swift:239-248 | the loader state becomes `AfterChange` and nothing else changes |
| Networks.Network.AddPreProcessing | Sources/Core/Network.swift:252-265 | an empty list changes nothing; otherwise it fails after initialisation, and else chains the layers, inserts them at index 1 and places them after the first start node with `insert(outgoing:)`: its former successors outside the chain follow the last layer instead (once per edge), no other list outside the chain changes, and on a well-formed graph the start node's only successor is the first layer |
| Networks.Network.AddPreProcessingByInput | Sources/Core/Network.swift:270-284 | an empty dictionary or a call after initialisation (which fails) changes neither list nor edges; otherwise every entry's layers are inserted in turn at `startNodes.count`, and the returned trace of edge lists states each entry as `PreProcessed`: its chain is linked and, when its input has a start node, placed after it by `insert(outgoing:)` (former successors re-pointed to the last layer, other lists kept), else only the chain's lists change; every chain keeps its links and the last entry's chain follows its start node |
| Networks.Network.PreProcessEntries | Sources/Core/Network.swift:275-283 | the loop handles the entries in order: the list gets every entry's layers at `startNodes.count`, and the trace states each entry's edges as `PreProcessed`, from the lists before it to the lists after it |
| Networks.Network.PreProcessingStep | Sources/Core/Network.swift:277-283 | one entry inserts its layers at `startNodes.count`, and its edges change as `PreProcessed` states (the start node's former successors follow the last layer, the start node feeds the first); the chains of the entries before keep their links |
| Networks.Network.PreTraceSnoc | Sources/Core/Network.swift:275-283 | one more pass of the loop extends the trace: if every entry so far is `PreProcessed` between its trace states and the next entry is `PreProcessed` from the last state, the longer trace covers one more entry |
| Networks.PreProcessedFollows | Sources/Core/Network.swift:277-283 | when an entry has a start node, after its insertion the entry's first layer has that start node among its incoming edges |
| Networks.Network.InsertPreProcessing | Sources/Core/Network.swift:275-283 | one input's chain sits after the start nodes and its edges change as `PreProcessed` states: with a start node, `insert(outgoing:)` re-points the start node's former successors to the last layer; without one only the chain's own lists change; chains inserted before keep their links |
| Networks.Network.AddPostProcessing | Sources/Core/Network.swift:288-302 | chains the layers, links the first to the previous last node, and appends them; fails after initialisation |
| Networks.AppendChain | Sources/Core/Network.swift:294-300 | the chain is linked and, when there is one, follows the current output |
| Networks.InsertChain | Sources/Core/Network.swift:258-263 | the chain follows the start node; outside the chain every incoming `x` is overwritten by the last layer once per former edge from `x` (`InsertedAfter`), so `x`'s former successors follow the last layer and no longer `x` when its edges are mirrored, other outgoing lists are kept, and on a well-formed graph `x`'s only successor is the first layer; any other chain without `x` keeps its links |
| Networks.InsertedRepoints | Sources/Graph/Node.swift:136-145 | where `x`'s edges are mirrored and no list repeats a node, every former successor of `x` outside the chain follows the chain's last node and no longer `x` |
| Networks.InsertedAlone | Sources/Graph/Node.swift:140-144 | on a well-formed graph the overwriting leaves no `x` in the first chain node's list, so `addIncomingEdge` makes that node `x`'s only successor |
| Graph.ReplacedOnce | Sources/Graph/Node.swift:54-62 | in a list without repeats, overwriting the first `old` removes it entirely and brings in `new` exactly when `old` was there |
| Networks.InsertKeepsChain | Sources/Core/Network.swift:258-263 | inserting after a node keeps an existing chain intact |
| Networks.InsertKeepsChained | Sources/Core/Network.swift:258-263 | inserting after a node keeps the links of any chain that does not hold that node |
| Transpose.TransposeWeights | Sources/Helpers/Helpers.swift:24-59 | the loops write every in-range (o, h, w, i) target index from its HWIO source and give `totalCount` elements |
| Transpose.HWIOtoOHWI | Sources/Helpers/Helpers.swift:24-41 | `out[i + I·(w + W·(h + H·o))] = in[o + O·(i + I·(w + W·h))]` for every in-range index, with `totalCount` elements |
| Transpose.HWIOtoOWHI | Sources/Helpers/Helpers.swift:43-59 | `out[i + I·(h + H·(w + W·o))] = in[o + O·(i + I·(w + W·h))]` for every in-range index, with `totalCount` elements |
| Transpose.TargetBijective | Sources/Helpers/Helpers.swift:32-34 | both target index maps are bijections from the in-range tuples onto `[0, totalCount)`, so the result is a permutation |
| Transpose.SourceBijective | Sources/Helpers/Helpers.swift:33 | every source position is read by exactly one tuple |
| Transpose.RankBound | Sources/Helpers/Helpers.swift:32-33 | every index stays below `totalCount` |
| TFNames.OpPredicatesExact | Sources/Adapters/Tensorflow/String+TFParsing.swift:11-37 | the op predicates compare exactly, so `FusedBatchNormV3` and lower-case names do not match; variables are never neurons, additions or convolutions |
| TFNames.SuffixNames | Sources/Adapters/Tensorflow/String+TFParsing.swift:44-47 | the moving-mean, moving-variance, gamma and beta predicates are suffix tests |
| TFNames.DigitsEnd | Sources/Helpers/Regex.swift:24-33 | `\d+` consumes a maximal run of digits |
| TFNames.SlashAt | Sources/Adapters/Tensorflow/TFDeleteOptimizers.swift:48 | after the word comes `/` or `_<digits>/` |
| TFNames.MatchAt | Sources/Helpers/Regex.swift:30-33 | a match at a position is the word, optional `_<digits>`, `/` and the tail, case-insensitively |
| TFNames.FirstMatchFrom | Sources/Helpers/Regex.swift:30-33 | the leftmost match: no earlier position matches |
| TFNames.TestIsSomeMatch | Sources/Helpers/Regex.swift:24-27 | `test` holds iff the pattern matches somewhere |
| TFNames.FirstMatchEnd | Sources/Helpers/Regex.swift:30-33 | the first match ends after a `/` beyond the word |
| TFNames.IdFor | Sources/Adapters/Tensorflow/TFDeleteSubgraph.swift:36-39 | the id is the prefix of the name up to the end of the first match |
| TFNames.IdForIdempotent | Sources/Adapters/Tensorflow/TFDeleteSubgraph.swift:36-39 | the id itself is in the subgraph and is its own id |
| TFNames.DropoutMulInSubgraph | Sources/Adapters/Tensorflow/TFDeleteOptimizers.swift:66-86 | every dropout output name is in the dropout subgraph, at a match no later than its own |
| TFNames.ReadNames | Sources/Adapters/Tensorflow/TFVariableProcessor.swift:67-70 | names ending in `/read` are read names; `/read_1` is not |
| Layers.SameExtentStrides | Sources/Layers/Convolution.swift:55-56 | with SAME padding the output extent `prev / stride` counts the whole strides in the input: n strides fit and n + 1 do not |
| Layers.ValidExtentWindows | Sources/Layers/Convolution.swift:55-56 | with VALID padding and a kernel that fits, `(prev − k) / s + 1` is the number of windows that fit: the last ends inside the input and one more would not |
| Layers.ValidExtentOversizedKernel | Sources/Layers/Convolution.swift:55-56 | a kernel longer than the input by less than a stride still gives one VALID output, because Swift's division truncates the negative difference toward zero |
| Layers.ConvSameWindows | Sources/Layers/Convolution.swift:55-66 | with SAME padding the windows span the input plus the padding `(out−1)·s + k − prev`, and the offset puts the smaller half of the padding before the input, at most one less than the half after it |
| Layers.ConvValidWindows | Sources/Layers/Convolution.swift:55-68 | with VALID padding the offset `(kW/2, kH/2)` starts the first window at the input's first element, and the output has exactly the windows that fit |
| Layers.WeightsAreKernelTensor | Sources/Layers/Convolution.swift:88-90 | the convolution loads `prev.f·kH·kW·outputChannels` floats, the element count of its kernel tensor; a depthwise convolution loads `prev.f·kH·kW`, one kernel per input channel (Sources/Layers/DepthwiseConvolution.swift:19-21) |
| Layers.DescriptorFor | Sources/Layers/DepthwiseConvolution.swift:28-38 | the descriptor takes input channels from `prev.f`, output channels from the conv size, copies the strides unchanged, and describes exactly the weights the convolution loads |
| Layers.ParameterRequests | Sources/Layers/Convolution.swift:113-122 | the weights are requested exactly when not given, the bias exactly when the layer uses one and it was not given, weights first |
| Layers.ConvTransposeValid | Sources/Layers/ConvTranspose.swift:57-65 | validation requires one input; without the native kernel it also requires symmetric strides, a square kernel and `stride == kernelWidth − 1` (both directions) |
| Layers.ConvTransposeInvertsSame | Sources/Layers/ConvTranspose.swift:71-73 | the output `(prev.h·sY, prev.w·sX, outputChannels)` is undone by a SAME convolution with the same strides |
| Layers.ConvTransposeWeightsCount | Sources/Layers/ConvTranspose.swift:144-146 | `prev.f·kW·kH·outputChannels`, the same count as a convolution with the same kernel and channels |
| Layers.ConvTransposeStepsShrinkToOutput | Sources/Layers/ConvTranspose.swift:163-164 | the step-1 image `(out.h + prev.h, out.w + prev.w)` loses `prev.w` columns to become the step-2 image `(out.h + prev.h, out.w)`, which loses `prev.h` rows to become the output; all keep out.f channels |
| Layers.PoolingMatchesConvolution | Sources/Layers/Pooling.swift:71-79 | pooling gives the same spatial extents as a convolution with the same kernel, stride and padding, and keeps the input's channels |
| Layers.PoolSameShift | Sources/Layers/Pooling.swift:69-70 | the SAME shift is `((prev−1) % s)/2 + (k+1) % 2`: half the leftover positions plus one for an even kernel; it is never negative and at most half a stride plus one |
| Layers.Pooling.constructor | Sources/Layers/Pooling.swift:29-36 | defaults are a 2×2 kernel, 2×2 stride and SAME padding; no output size yet |
| Layers.Pooling.Initialize | Sources/Layers/Pooling.swift:44-80 | the kernel offset is shifted per axis by the padding rule (`k/2` for VALID) and the output size follows the padding with the channels unchanged |
| Layers.OtherAxes | Sources/Layers/Concat.swift:25 | `all.filter { $0 != axis }` holds exactly the other two axes |
| Layers.ConcatShader | Sources/Layers/Concat.swift:41-52 | `concat_y`, `concat_x` or `concat_z` for h, w or f, with `_3` exactly when the first input has at most 4 channels |
| Layers.ConcatShaderInjective | Sources/Layers/Concat.swift:41-52 | different axes, and inputs on different sides of 4 channels, get different kernels |
| Layers.ConcatInitialize | Sources/Layers/Concat.swift:29-54 | the output extent along the axis is the sum of the inputs' extents, the other axes come from the first input, and the kernel is `ConcatShader` |
| Layers.ConcatValidOutput | Sources/Layers/Concat.swift:79-107 | when the debug assertions hold, every input agrees with the output off the axis, a channel concatenation has a multiple of 4 channels, and all inputs fit in the 10 texture slots |
| Layers.SumMultipleOf4 | Sources/Layers/Concat.swift:85-86 | inputs whose channels are multiples of 4 concatenate along f to a multiple of 4 |
| Layers.SumAlongCovers | Sources/Layers/Concat.swift:35 | the summed extent is at least each input's extent |
| Layers.FullyConnectedWeightsAreTensor | Sources/Layers/FullyConnected.swift:50-60 | the weight count `prev.f·prev.w·prev.h·neurons` is the element count of the shape `(prev.w, prev.h, prev.f, neurons)` handed to the transpose |
| Layers.FullyConnected.constructor | Sources/Layers/FullyConnected.swift:31-40 | stores the neurons, bias flag, given weights, bias and transpose; no sizes yet |
| Layers.FullyConnected.Initialize | Sources/Layers/FullyConnected.swift:42-78 | the single-input assertion holds exactly for one input; the output is 1×1 with `neurons` channels; given weights are transposed once when a transpose exists; missing weights and (with `useBias`) a missing bias of `neurons` floats are requested |
| Layers.Fill | Sources/Layers/BatchNorm.swift:34-42 | `[Float](repeating: x, count: n)` has n copies of x |
| Layers.BatchNormKernel | Sources/Layers/BatchNorm.swift:66-68 | `batch_norm` exactly when f > 4, else `batch_norm_3` |
| Layers.BatchNorm.constructor | Sources/Layers/BatchNorm.swift:25-54 | with mean and variance the parameters are mean ++ variance ++ scale (ones when missing) ++ offset (zeros when missing) ++ [epsilon], all set; with only scale and offset they are scale ++ offset, not all set |
| Layers.BatchNorm.Initialize | Sources/Layers/BatchNorm.swift:61-92 | unless all parameters were set, mean and variance are loaded, then the stored scale and offset or loaded ones, then epsilon; the buffer is `max(4, f)·4 + 1` long when there are parameters |
| Layers.BatchNormBufferFit | Sources/Layers/BatchNorm.swift:86-90 | for f ≥ 4 the buffer length equals the parameter count `4f + 1`; for fewer channels it exceeds it |
| Layers.BatchNormLayout | Sources/Layers/BatchNorm.swift:27-46 | the full layout has `4n + 1` values: mean, variance, ones for a missing scale, zeros for a missing offset, and epsilon last |
| Layers.CropCentred | Sources/Layers/Crop.swift:26-36 | the origin `((in.w − out.w)/2, (in.h − out.h)/2)` keeps the copied region inside the input with margins that differ by at most one |
| Layers.StartPlanFor | Sources/Layers/Start.swift:34-82 | pass-through exactly when the input already has the output size; crop-then-scale exactly for a different input, a square output and `useCropScale`; otherwise scale-then-crop with the crop centred |
| Layers.StartCropSquareCentred | Sources/Layers/Start.swift:42-46 | the square cropped first has side `min(w, h)`, lies inside the input and is centred along the longer side |
| Legacy.RenameAll | Sources/Layers/ConvolutionLayer.swift:92-94 | the renaming loop keeps one name per file, each renamed by the anchored replacement |
| Legacy.RenamedCheckpoint | Sources/Layers/ConvolutionLayer.swift:93 | a name made of the old checkpoint and a suffix becomes the new checkpoint and the same suffix |
| Legacy.RenamedOther | Sources/Layers/ConvolutionLayer.swift:93 | anchored matching leaves a name that does not start with the old checkpoint unchanged |
| Legacy.RenamedBack | Sources/Layers/ConvolutionLayer.swift:93 | renaming to a non-empty checkpoint and back restores the name |
| Legacy.RenamedFromEmpty | Sources/Layers/ConvolutionLayer.swift:93 | an empty old checkpoint matches nothing, so no name changes |
| Legacy.RenameFiles | Sources/Layers/ConvolutionLayer.swift:92-94 | the loop computes `RenameAll` |
| Legacy.LayerFiles | Sources/Core/StyleNet.swift:26-28 | a layer has three files, each starting with `<checkpoint>-<name>`: weights, instance-norm scale and shift |
| Legacy.LayerFilesAreCheckpointPlusSuffix | Sources/Core/StyleNet.swift:26-28 | each file name is the checkpoint followed by a fixed per-layer suffix |
| Legacy.RenameLayerFiles | Sources/Core/StyleNet.swift:26-28 | renaming a layer's files from one non-empty checkpoint to another gives the files it would have been built with for the new one |
| Legacy.NeuronFor | Sources/Layers/ConvolutionLayer.swift:70-77 | ReLU(a: 0) for `.relu`, TanH(a: 1, b: 1) for `.tanh`, and no neuron otherwise |
| Legacy.OutputIndexIsLastImage | Sources/Layers/ConvolutionLayer.swift:126-139 | with instance norm on, `execute` returns image 2 with a neuron and image 1 without: the last image created |
| Legacy.OutputIndexInRange | Sources/Layers/ConvolutionLayer.swift:123-149 | the image returned always exists among the 2 or 3 created |
| Legacy.LegacyDescriptorIsSquareConvolution | Sources/Layers/ConvolutionLayer.swift:105-114 | the legacy descriptor (square kernel, equal strides, `prev.f` input channels) is the current Convolution descriptor for the square conv size |
| Legacy.ConvolutionLayer.constructor | Sources/Layers/ConvolutionLayer.swift:45-52 | stores the size, neuron type, files and padding flag; instance norm is always on; no images yet |
| Legacy.ConvolutionLayer.Initialize | Sources/Layers/ConvolutionLayer.swift:54-88 | loads the three files when given, builds the neuron by `NeuronFor`, and creates 2 images plus 1 with a neuron |
| Legacy.ConvolutionLayer.UpdateCheckpoint | Sources/Layers/ConvolutionLayer.swift:90-103 | every file is renamed by the anchored replacement and the three files are reloaded; nothing else changes |
| Legacy.ConvolutionLayer.ExecuteOutput | Sources/Layers/ConvolutionLayer.swift:123-149 | the image returned is `OutputIndex` and was created by `initialize` |
| Legacy.StyleTransposeCounts | Sources/Layers/ConvTransposeLayer.swift:18-19 | the widest transposed convolution of the style network fills `72·c²` floats exactly; the second needs a quarter |
| Legacy.LoadWeightsForFixedSize | Sources/Layers/ConvTransposeLayer.swift:183-194 | weights that fill the fixed size are used as loaded; otherwise the `count` loaded floats are copied to the front of a buffer of the fixed size |
| Legacy.LegacyStepsMatchConvTranspose | Sources/Layers/ConvTransposeLayer.swift:74-75 | for square images the legacy step images are those of the current ConvTranspose layer |
| Legacy.ConvTransposeLayer.constructor | Sources/Layers/ConvTransposeLayer.swift:19-48 | the fixed buffer holds `72·baseKernelCount²` floats; the files are stored |
| Legacy.ConvTransposeLayer.Initialize | Sources/Layers/ConvTransposeLayer.swift:71-96 | step-1 width `out.w + prev.w`, step-2 height `out.h + prev.h`; with files, the weights are loaded and the scale and shift buffers hold `max(4, f)` floats |
| Legacy.ConvTransposeLayer.UpdateCheckpoint | Sources/Layers/ConvTransposeLayer.swift:98-109 | the same anchored renaming of every file, then the three files are reloaded; sizes and buffers are unchanged |
| Legacy.RunAppend | Sources/Core/NetworkPipeline.swift:36-43 | running two pipelines one after the other is running their concatenation |
| Legacy.WalkVisitsEachOnce | Sources/Core/NetworkPipeline.swift:54-64 | stepping by `index(after:)` from i to end visits each index once, in order |
| Legacy.Pipeline.constructor | Sources/Core/NetworkPipeline.swift:17-19 | stores the layers; no output size yet |
| Legacy.Pipeline.Initialize | Sources/Core/NetworkPipeline.swift:21-28 | each layer is handed the previous layer's output size; the output size is the last layer's, or the input size when empty |
| Legacy.Pipeline.UpdateCheckpoint | Sources/Core/NetworkPipeline.swift:30-34 | every layer receives `(new, old)`, in order, and the count is unchanged |
| Legacy.Pipeline.Execute | Sources/Core/NetworkPipeline.swift:36-43 | the input passes through every layer in order; an empty pipeline returns it |
| Legacy.Pipeline.Positions | Sources/Core/NetworkPipeline.swift:54-64 | walking from `startIndex` 0 to `endIndex` visits every position once, in order |
| Legacy.Pipeline.Set | Sources/Core/NetworkPipeline.swift:49-52 | the subscript setter replaces only the given position |
| Legacy.StyleNetFiles | Sources/Core/StyleNet.swift:23-92 | eleven layers; the six convolution and transposed-convolution layers carry their three checkpoint files, and the crop and output layers none |
| Legacy.StyleNet.constructor | Sources/Core/StyleNet.swift:19-93 | the stored checkpoint is the given one and every file name is built from it |
| Legacy.StyleNet.ChangeToCheckpoint | Sources/Core/StyleNet.swift:106-114 | the current checkpoint changes nothing; otherwise every layer gets `(new, old)` before the checkpoint is stored, and the files stay consistent with it |
| Legacy.StyleFilesRenamed | Sources/Core/StyleNet.swift:106-114 | renaming every file from one non-empty checkpoint to another gives the network built for the new one |
| Legacy.ChangeTwice | Sources/Core/StyleNet.swift:106-114 | a second change to the same checkpoint leaves the layers as they are |
| Loaders.Place | Sources/Core/SingleBinaryLoader.swift:41-49 | an explicit offset for the key is returned and the counter is unchanged; otherwise the counter is returned and advances by `size` |
| Loaders.Positions | Sources/Core/SingleBinaryLoader.swift:41-49 | a sequence of calls returns one offset per call |
| Loaders.TotalAppend | Sources/Core/SingleBinaryLoader.swift:46 | the counter's running total grows by the size of each call |
| Loaders.ImplicitLayoutContiguous | Sources/Core/SingleBinaryLoader.swift:44-47 | calls without explicit offsets lay parameters back to back: the i-th starts where the earlier ones end |
| Loaders.ImplicitLayoutDisjoint | Sources/Core/SingleBinaryLoader.swift:44-47 | with non-negative sizes the ranges of implicit calls do not overlap and come in call order |
| Loaders.TotalGrows | Sources/Core/SingleBinaryLoader.swift:46 | with non-negative sizes, an earlier range ends no later than a later one starts |
| Loaders.SingleBinaryLoader.constructor | Sources/Core/SingleBinaryLoader.swift:16-31 | no file, counter 0, no explicit offsets, and keys `id + modifier` |
| Loaders.SingleBinaryLoader.LoadFile | Sources/Core/SingleBinaryLoader.swift:37-39 | the checkpoint file is loaded; the counter is unchanged |
| Loaders.SingleBinaryLoader.LoadWeights | Sources/Core/SingleBinaryLoader.swift:41-49 | requires a loaded file; points into it as `Place` says and updates the counter accordingly |
| Loaders.SingleBinaryLoader.Reset | Sources/Core/SingleBinaryLoader.swift:52-55 | the counter returns to 0 and the file is released; nothing else changes |
| Loaders.PerLayerFileName | Sources/Core/PerLayerBinaryLoader.swift:30 | the file name is the checkpoint, then the per-layer name, then the suffix |
| Loaders.PerLayerFileNameInjective | Sources/Core/PerLayerBinaryLoader.swift:30 | with a fixed checkpoint and suffix, different per-layer names give different files |
| Loaders.PerLayerBinaryLoader.constructor | Sources/Core/PerLayerBinaryLoader.swift:15-27 | the checkpoint defaults to `""`, the suffix is `""`, and the per-layer name is `id + modifier` |
| Loaders.PerLayerBinaryLoader.LoadWeights | Sources/Core/PerLayerBinaryLoader.swift:29-32 | reads exactly `size` floats from `checkpoint + filenameForLayer(id, modifier) + suffix` |
| Loaders.DefaultFileName | Sources/Core/PerLayerBinaryLoader.swift:15-30 | with the defaults the file of a parameter is `id + modifier` |
| Shaders.TypedIsEqualIsEquality | Sources/Core/PALFunctionConstant.swift:56-59 | typed constants are equal iff type, index and value are equal, so `==` is symmetric between them; a value of another type never matches |
| Shaders.BaseAgainstTyped | Sources/Core/PALFunctionConstant.swift:26-39 | `==` dispatches on the left operand: a base constant equals any typed one with its type and index, while the reverse comparison reaches the fatal `getValue` |
| Shaders.ConstantsEqualIsEquality | Sources/Core/ComputePipelineDef.swift:22-24 | between lists of typed constants, `==` is element-wise equality |
| Shaders.HashConsistent | Sources/Core/ComputePipelineDef.swift:12-24 | the hash depends on the function name only, so equal keys hash equally, and keys with the same name but different constants collide yet compare unequal |
| Shaders.DefEqualIsEquality | Sources/Core/ComputePipelineDef.swift:22-24 | keys are equal iff their names and constants are equal |
| Shaders.MetalShaderManager.constructor | Sources/Core/MetalShaderManager.swift:22-26 | an empty cache over the framework library and an optional main library |
| Shaders.MetalShaderManager.GetFunction | Sources/Core/MetalShaderManager.swift:35-64 | a cached key returns the cached pipeline without building; otherwise one pipeline is built from the main library for the main bundle, else from the framework's, and stored under the key (nil constants keyed as `[]`); a missing function is a failure |
| Shaders.GetFunctionTwice | Sources/Core/MetalShaderManager.swift:37-42 | asking twice for the same kernel and constants returns the first pipeline and builds at most once |
| Textures.PixelInRange | Example/Example/Tests/Helpers/Texture.swift:25-32 | the subscript's pixel index `y·width + x` stays below `h·w` |
| Textures.PixelSplit | Example/Example/Tests/Helpers/Texture.swift:25-32 | every pixel index below `h·w` is `y·width + x` for its row and column |
| Textures.DecodeInSlice | Example/Example/Tests/Helpers/Texture.swift:109-111 | within a slice, `y = r / (w·4)`, `x = (r % (w·4)) / 4` and lane `r % 4` undo the packing order |
| Textures.DecodeFlat | Example/Example/Tests/Helpers/Texture.swift:105-111 | decoding the flat index of slice s, pixel (x, y) and lane gives (x, y, lane + 4s) |
| Textures.EncodeDecode | Example/Example/Tests/Helpers/Texture.swift:105-111 | every flat index decodes to a pixel inside the image, and packing that channel gives the index back |
| Textures.DecodeEncode | Example/Example/Tests/Helpers/Texture.swift:131-144 | decoding the packed index of a channel of an in-image pixel gives it back |
| Textures.EncodeInPacked | Example/Example/Tests/Helpers/Texture.swift:127-144 | every channel of the image lies in one of the `(depth + 3) / 4` slices |
| Textures.Texture.constructor | Example/Example/Tests/Helpers/Texture.swift:20-23 | stores the data and size |
| Textures.Texture.TotalCount | Example/Example/Tests/Helpers/Texture.swift:60-62 | `f·w·h`, the number of values a valid texture holds |
| Textures.Texture.Set | Example/Example/Tests/Helpers/Texture.swift:29-31 | the setter changes only value z of pixel `y·width + x` |
| Textures.Texture.Pack | Example/Example/Tests/Helpers/Texture.swift:124-154 | `(depth + 3) / 4` slices laid end to end; slice i lists, row by row and column by column, channels 4i to 4i+3, with 0 for padding |
| Textures.EncodeOnlyDecoded | Example/Example/Tests/Helpers/Texture.swift:105-115 | the only pixel and channel packed at a flat index are the ones it decodes to |
| Textures.UnpackStep | Example/Example/Tests/Helpers/Texture.swift:106-115 | reading one more flat index writes its decoded channel, or skips it when that channel is padding |
| Textures.Unpack | Example/Example/Tests/Helpers/Texture.swift:80-116 | starting from zeros, every flat index whose decoded pixel and channel are inside the image writes its value there; padding is skipped |
| Textures.PackedAtEncode | Example/Example/Tests/Helpers/Texture.swift:131-144 | the packed value at a channel's index is that channel's value |
| Textures.RoundTrip | Example/Example/Tests/TextureConversionTest.swift:18-21 | unpacking the packed layout returns the original data |
| Textures.IsEqual | Example/Example/Tests/Helpers/Texture.swift:46-58 | textures of different sizes are never equal; otherwise equal iff every value is near its counterpart |
| Textures.Argmax | Example/MPSImage.swift:24-35 | the index holds the value, which is at least every element, and no earlier index holds it (the first maximum on ties) |
| Textures.Indices | Example/MPSImage.swift:38 | `indices` is 0 up to the count, in order |
| Textures.InsertSorted | Example/MPSImage.swift:37-39 | inserting an index after every element it is not less than keeps the order by the comparator |
| Textures.Argsort | Example/MPSImage.swift:37-39 | the result is a permutation of the indices, ordered by the comparator on their elements |
| Graph.RemovedAll | Sources/Graph/Node.swift:89-106 | the two loops of `removeFromGraph` together rewire every predecessor to every successor, keep all other edges, and in a well-formed graph leave no reference to the node |
| Dependency.DependencyListBuilder.constructor | Sources/Graph/DependencyListBuilder.swift:11 | a new builder's list is empty |
| Dependency.TriangleOrdered | Sources/Graph/DependencyListBuilder.swift:27-30 | in the example graph 0→1, 0→2, 1→2, the list [0, 1, 2] is in dependency order and 2 is ready once 0 and 1 are listed |
| Images.Image.constructor | Sources/Core/NetworkLayer.swift:101-113 | a new temporary image starts with read count 1, a permanent one with 0 |
| NetworkLayers.IdCounter.constructor | Sources/Core/NetworkLayer.swift:30 | the shared counter starts at 0 |
| NetworkLayers.Layer.constructor | Sources/Core/NetworkLayer.swift:54-62 | a new layer has its id, no outputs, no temporary image, no descriptor and no network |
| Networks.Network.AddLayer | Sources/Core/NetworkLayer.swift:51-62 | a new layer is a fresh lonely node with the given id and kind; no other node, list or state changes |
| Sizes.AxisToTF | Sources/Helpers/LayerSize.swift:19-30 | each axis has an NHWC index between 1 and 3 |
| Sizes.Groups | Sources/Helpers/MTLTexture.swift:14-16 | `max((extent + group − 1) / group, 1)` groups of size `group` cover the extent |
| TFProto.SameDefIsNameEquality | Sources/Adapters/Tensorflow/TFNode.swift:30-32 | definitions compare by name only: an equivalence blind to op, inputs and attributes |
| TFProto.ShapeOf | Sources/Adapters/Tensorflow/ProtoExtensions.swift:14-16 | the `shape` attribute first, then the value tensor's shape, and none exactly when neither exists |
| TFProto.XYIndices | Sources/Adapters/Tensorflow/ProtoExtensions.swift:24-31 | entries 1 and 2 without a format, 2 and 1 for `NHWC`, 3 and 2 for any other format |
| TFProto.PickXY | Sources/Adapters/Tensorflow/ProtoExtensions.swift:19-48 | none without the attribute; the x and y entries by `XYIndices` when the list is long enough; a trap otherwise |
| TFProto.Strides | Sources/Adapters/Tensorflow/ProtoExtensions.swift:19-32 | nil without a `strides` attribute |
| TFProto.Ksize | Sources/Adapters/Tensorflow/ProtoExtensions.swift:35-48 | nil without a `ksize` attribute |
| TFProto.StridesLayout | Sources/Adapters/Tensorflow/ProtoExtensions.swift:24-31 | `(s[1], s[2])` without `data_format`, `x = s[2]`, `y = s[1]` for NHWC, `x = s[3]`, `y = s[2]` for any other format |
| TFProto.StridesTrap | Sources/Adapters/Tensorflow/ProtoExtensions.swift:29-30 | a three-entry list with `NCHW` reads past its end and traps |
| TFProto.KsizeLikeStrides | Sources/Adapters/Tensorflow/ProtoExtensions.swift:35-48 | `ksize` follows the same index rules as `strides` |
| TFProto.ActivationNeuronOf | Sources/Adapters/Tensorflow/ProtoExtensions.swift:51-66 | each neuron exactly when the `neuron` attribute names Relu, Tanh or Sigmoid; none otherwise or without the attribute |
| TFProto.NeuronRoundTrip | Sources/Adapters/TFOptimizer.swift:27-29 | setting `neuron` to a neuron op, as neuron folding does, reads back as that neuron |
| TFProto.ValueData | Sources/Adapters/Tensorflow/ProtoExtensions.swift:68-73 | the tensor bytes, exactly for a Const node with a `value` attribute |
| TFProto.Int32At | Sources/Helpers/Data.swift:25-31 | four bytes read as an `Int32` lie in the 32-bit signed range |
| TFProto.Int32Bytes | Sources/Helpers/Data.swift:25-31 | a 32-bit value is stored in four bytes |
| TFProto.Int32RoundTrip | Sources/Helpers/Data.swift:25-31 | reading back the little-endian bytes of an `Int32` gives the integer |
| TFProto.Int32s | Sources/Helpers/Data.swift:25-31 | `toArray()` as `Int32` yields `count / 4` values, dropping a trailing partial value |
| TFProto.Int32sAt | Sources/Helpers/Data.swift:25-31 | value k comes from bytes 4k to 4k + 3 |
| TFProto.Int32sBytes | Sources/Helpers/Data.swift:25-31 | a list of integers takes four bytes each |
| TFProto.Int32sRoundTrip | Sources/Helpers/Data.swift:25-31 | decoding the bytes of a list of `Int32`s gives the list back |
| TFProto.ToShape | Sources/Adapters/Tensorflow/ProtoExtensions.swift:83-102 | `toShape` is (width dim 1, height dim 0, input channels dim 2, output channels dim 3) |
| TFProto.TensorTotalCountIsShapeCount | Sources/Adapters/Tensorflow/ProtoExtensions.swift:105-107 | the tensor-shape `totalCount` is the product of the four dims and equals `toShape.totalCount` (Sources/Helpers/Shape.swift:18-20) |
| TFProto.ConvSizeFromShape | Sources/Helpers/LayerSize.swift:80-83 | output channels from dim 3, kernel width from dim 1, kernel height from dim 0, with the given strides |
| TFGraphs.NameMap | Sources/Adapters/Tensorflow/TFGraph.swift:27-32 | every name in the map points to a node defined with that name |
| TFGraphs.NameMapLast | Sources/Adapters/Tensorflow/TFGraph.swift:30 | every defined name is in the map and points to the last definition with that name: when names repeat the later node wins |
| TFGraphs.ResolveMembers | Sources/Adapters/Tensorflow/TFGraph.swift:34-41 | a node's incoming list holds exactly the nodes named by its known input names, each once; unknown names are skipped |
| TFGraphs.ResolveStep | Sources/Adapters/Tensorflow/TFGraph.swift:35-40 | one more input name adds its node when known and not yet incoming, and nothing otherwise |
| TFGraphs.AllNodes | Sources/Adapters/Tensorflow/TFGraph.swift:28-32 | one node per definition, in definition order |
| TFGraphs.LinkInputs | Sources/Adapters/Tensorflow/TFGraph.swift:35-41 | the inner loop gives the node, in order, an incoming edge from each node its inputs name, keeping the table well formed |
| TFGraphs.BuildTable | Sources/Adapters/Tensorflow/TFGraph.swift:27-42 | a well-formed table with one node per definition, each node's incoming list resolved from its input names |
| TFGraphs.TFGraph.constructor | Sources/Adapters/Tensorflow/TFGraph.swift:20-24 | stores the definitions and runs `initNodes`: the edges are resolved and the node list is in dependency order, free of cycle nodes |
| TFGraphs.TFGraph.InitNodes | Sources/Adapters/Tensorflow/TFGraph.swift:26-47 | fresh nodes, one per definition, with edges from the named inputs (the later node on repeated names); the list is then sorted from the roots; the flag reports the sort's assertion |
| TFGraphs.TFGraph.RemoveLonely | Sources/Graph/Graph.swift:22-24 | the node list keeps exactly the nodes with an edge, in order |
| TFOptimizers.RemovedGains | Sources/Graph/Node.swift:89-106 | removing x gives another node only edges it had or ones that link a predecessor of x to a successor of x |
| TFOptimizers.LonelyStaysLonely | Sources/Graph/Node.swift:89-106 | removing a node from a well-formed graph gives a lonely node no edge |
| TFOptimizers.NeuronAfter | Sources/Adapters/TFOptimizer.swift:24-26 | the neuron exists exactly when the node has one outgoing node and its op is Relu, Tanh or Sigmoid, and is that node |
| TFOptimizers.AddNeuronIfThere | Sources/Adapters/TFOptimizer.swift:23-37 | without a neuron nothing changes; otherwise the node's `neuron` attribute is the neuron's op, every successor of the neuron gains the node as incoming, the neuron ends lonely, every edge away from the neuron is kept, and the only edges gained link the node to the neuron's successors |
| TFOptimizers.StripWhere | Sources/Adapters/Tensorflow/TFDeleteOptimizers.swift:15-21 | every picked listed node ends lonely, lonely nodes stay lonely, and edges are only removed |
| TFOptimizers.StripTrainingOps | Sources/Adapters/Tensorflow/TFDeleteOptimizers.swift:11-21 | every listed node whose name matches the save, regularizer or initializer pattern is stripped; no edge is added |
| TFOptimizers.IgnoredOpsDeleter | Sources/Adapters/Tensorflow/TFDeleteOptimizers.swift:25-36 | the listed nodes are visited in order, each on the lists the previous visit left: a node with an op in the fixed list is removed with its predecessors linked to its successors and left lonely, any other node changes nothing; edges between other nodes are kept; the flag says exactly that no removed node was its own predecessor, and then well-formedness is kept |
| TFOptimizers.IgnoredStep | Sources/Adapters/Tensorflow/TFDeleteOptimizers.swift:31-33 | one visit: a node with an ignored op is removed and left lonely, any other node changes nothing; edges away from ignored nodes are kept and, when the node is not its own predecessor, a well-formed graph stays well-formed and lonely nodes stay lonely |
| TFOptimizers.FirstPick | Sources/Adapters/Tensorflow/TFReshapeOptimizer.swift:16 | the position of the first node passing the test, every earlier node failing it |
| TFOptimizers.FirstWhere | Sources/Adapters/Tensorflow/TFReshapeOptimizer.swift:16 | `filter(...).first`: none exactly when no listed node passes, otherwise a listed node that passes |
| TFOptimizers.RemoveReshape | Sources/Adapters/Tensorflow/TFReshapeOptimizer.swift:15-19 | without a Const input nothing changes; otherwise the Reshape ends lonely, its predecessors other than the first Const are linked to its successors, edges away from those two nodes are kept, and the only edges gained link its predecessors to its successors; the flag says exactly that the Reshape was not its own predecessor |
| TFOptimizers.ReshapeOptimizer | Sources/Adapters/Tensorflow/TFReshapeOptimizer.swift:14-21 | the listed nodes are visited in order, each on the lists the previous visit left, every Reshape as `RemoveReshape` states and any other node changing nothing; edges between nodes that are neither Reshape nor Const are kept; the flag says exactly that no removed Reshape was its own predecessor |
| TFOptimizers.ReshapeStep | Sources/Adapters/Tensorflow/TFReshapeOptimizer.swift:15-19 | one visit: a Reshape is handled as `RemoveReshape` states, any other node changes nothing; edges away from Reshape and Const nodes are kept |
| TFSubgraphs.SubgraphId | Sources/Adapters/Tensorflow/TFDeleteSubgraph.swift:36-39 | the id is a prefix of the node's name that itself matches the pattern and is its own id |
| TFSubgraphs.RoleOf | Sources/Adapters/Tensorflow/TFDeleteSubgraph.swift:55-76 | a node is outside exactly when the pattern misses its name; a subgraph node is an input node when it passes `isInputNode`, else an output node when it passes `isOutputNode`; its id is `id(for:)` |
| TFSubgraphs.DefaultsNeverRewire | Sources/Adapters/Tensorflow/TFDeleteSubgraph.swift:42-51 | the default `isInputNode` and `isOutputNode` give no input or output node |
| TFSubgraphs.DropoutOutputsAreMembers | Sources/Adapters/Tensorflow/TFDeleteOptimizers.swift:66-83 | every name matching `dropout(_\d+)?/mul` also matches `dropout(_\d+)?/`, so a dropout output node is a subgraph node |
| TFSubgraphs.Roles | Sources/Adapters/Tensorflow/TFDeleteSubgraph.swift:55 | one role per definition, in order |
| TFSubgraphs.OutsideOf | Sources/Adapters/Tensorflow/TFDeleteSubgraph.swift:57 | keeps exactly the listed nodes outside the subgraph |
| TFSubgraphs.Extend | Sources/Adapters/Tensorflow/TFDeleteSubgraph.swift:59-63 | the list is present afterwards and holds the old entries plus the new ones |
| TFSubgraphs.RecordInput | Sources/Adapters/Tensorflow/TFDeleteSubgraph.swift:56-65 | recording an input node keeps every record an outside predecessor of its id's input nodes, and records all of this node's |
| TFSubgraphs.RecordOutput | Sources/Adapters/Tensorflow/TFDeleteSubgraph.swift:66-75 | recording an output node keeps every record an outside successor of its id's output nodes, and records all of this node's |
| TFSubgraphs.Record | Sources/Adapters/Tensorflow/TFDeleteSubgraph.swift:56-76 | after a node's turn the records stay sound and are complete for every node visited so far |
| TFSubgraphs.Visit | Sources/Adapters/Tensorflow/TFDeleteSubgraph.swift:56-77 | records the node's outside neighbours as `Record` does and strips the node, leaving the rows of outside nodes not yet visited with their outside entries |
| TFSubgraphs.VisitKept | Sources/Adapters/Tensorflow/TFDeleteSubgraph.swift:56-77 | one turn as `Visit` states, keeping every edge between two nodes that are not listed subgraph nodes |
| TFSubgraphs.CollectAndStrip | Sources/Adapters/Tensorflow/TFDeleteSubgraph.swift:54-78 | every listed subgraph node ends lonely, edges are only removed, edges between nodes that are not listed subgraph nodes are kept, and the records hold exactly the outside predecessors of input nodes and outside successors of output nodes, per id |
| TFSubgraphs.AddIncomingEdges | Sources/Adapters/Tensorflow/TFDeleteSubgraph.swift:84-86 | the output gains every input as incoming; nothing is removed and only those pairs are added |
| TFSubgraphs.LinkAll | Sources/Adapters/Tensorflow/TFDeleteSubgraph.swift:83-87 | every output gains every input as incoming; nothing is removed and only such pairs are added |
| TFSubgraphs.WireStep | Sources/Adapters/Tensorflow/TFDeleteSubgraph.swift:81-88 | one id's bridge adds only pairs wired by that id and links them all |
| TFSubgraphs.WireGroups | Sources/Adapters/Tensorflow/TFDeleteSubgraph.swift:80-89 | for every id with both lists every output gains every input; nothing is removed and nothing else is added |
| TFSubgraphs.BridgesLinked | Sources/Adapters/Tensorflow/TFDeleteSubgraph.swift:54-89 | with complete records all linked, every outside predecessor feeding an id reaches every outside successor fed by the same id |
| TFSubgraphs.WiredIsBridged | Sources/Adapters/Tensorflow/TFDeleteSubgraph.swift:54-89 | with sound records, a pair wired by an id is an outside predecessor and an outside successor of that id |
| TFSubgraphs.StripThenWire | Sources/Adapters/Tensorflow/TFDeleteSubgraph.swift:53-90 | the two loops together give the stripped lists, grown only by bridged pairs of outside nodes |
| TFSubgraphs.DeleteGroups | Sources/Adapters/Tensorflow/TFDeleteSubgraph.swift:53-90 | listed subgraph nodes end lonely; outside predecessors of an id's input nodes are linked to the outside successors of its output nodes; every other edge after is one of the old edges; every edge between nodes that are not listed subgraph nodes is kept |
| TFSubgraphs.NoInputsNoBridges | Sources/Adapters/Tensorflow/TFDeleteSubgraph.swift:42-51 | without input nodes nothing is bridged, so the default deleters only remove edges |
| TFSubgraphs.DeleteSubgraph | Sources/Adapters/Tensorflow/TFDeleteSubgraph.swift:53-90 | every node whose name the pattern matches is stripped; bridged pairs are linked; every new edge is bridged; every edge between two nodes outside the subgraph is kept; the deleters other than dropout only remove edges |
| TFRewrites.ReplacedTimesMembers | Sources/Graph/Node.swift:54-62 | replacing the first `old` in a list keeps every other entry, brings in only `new`, and leaves `new` in a list that held `old` |
| TFRewrites.ReplaceIncoming | Sources/Graph/Node.swift:54-62 | each listed node's first incoming `old` becomes `new`; only `new`'s outgoing list changes, losing at most `old` and gaining only listed nodes |
| TFRewrites.RedirectedMembers | Sources/Adapters/Tensorflow/TFConvOptimizer.swift:29-31 | after the replacement loop a node keeps its other inputs, gains only `new`, and has `new` whenever it was listed and had `old` |
| TFRewrites.AddEdge | Sources/Graph/Node.swift:42-50 | `u` becomes an incoming node of `v`; only the lists of `v` and `u` grow, and only by each other; a well-formed table stays well formed |
| TFRewrites.BiasOf | Sources/Adapters/Tensorflow/TFConvOptimizer.swift:24-27 | present exactly when the convolution has one successor, a BiasAdd or Add, with a Variable or Const input; then it is that successor and its first such input |
| TFRewrites.FoldBias | Sources/Adapters/Tensorflow/TFConvOptimizer.swift:26-33 | without a bias nothing changes; otherwise the convolution gains the bias variable, the BiasAdd's successors take the convolution in its place, the BiasAdd is lonely and other edges are kept |
| TFRewrites.NeuronFoldedTrans | Sources/Adapters/TFOptimizer.swift:23-37 | folding a neuron twice is folding one, the later |
| TFRewrites.ConvOptimizer | Sources/Adapters/Tensorflow/TFConvOptimizer.swift:21-39 | the listed nodes are visited in order, each on the graph the previous visit left: a convolution with one successor has its bias folded as `FoldBias` states and then its neuron added as `AddNeuronIfThere` states; any other node changes nothing; only convolutions change definition, and only in `neuron` |
| TFRewrites.DilationOf | Sources/Adapters/Tensorflow/TFConvOptimizer.swift:57-61 | present exactly when a SpaceToBatch feeds the convolution and its one successor is a BatchToSpace; then those two |
| TFRewrites.DropWithConsts | Sources/Adapters/Tensorflow/TFConvOptimizer.swift:62-65 | the node's Const inputs are stripped and the node removed: it ends lonely, edges between other nodes are kept, the only edges gained link its predecessors to its successors, and the flag says exactly that it was not its own predecessor, in which case a well-formed table stays well formed |
| TFRewrites.RedilatedTrans | Sources/Adapters/Tensorflow/TFConvOptimizer.swift:70-71 | setting the dilations twice is setting them once, with the later values |
| TFRewrites.WithDilations | Sources/Adapters/Tensorflow/TFConvOptimizer.swift:70-71 | without `dilations` the definition is unchanged; a list shorter than three traps; otherwise entries 1 and 2 become the block shape and nothing else changes |
| TFRewrites.BlockShape | Sources/Adapters/Tensorflow/TFConvOptimizer.swift:68-69 | present exactly when the first `/block_shape` Const holds exactly two 32-bit integers, and then those two |
| TFRewrites.BlockShapeOfEncoding | Sources/Adapters/Tensorflow/TFConvOptimizer.swift:68-69 | a block shape stored as the bytes of two 32-bit integers is read back as those integers |
| TFRewrites.FoldDilation | Sources/Adapters/Tensorflow/TFConvOptimizer.swift:57-76 | without the pair nothing changes; a short dilation list traps; otherwise the BatchToSpace and the SpaceToBatch are dissolved with the Consts: edges between other nodes are kept, the convolution feeds the BatchToSpace's successors and is fed by the SpaceToBatch's predecessors, the SpaceToBatch ends lonely, and the convolution takes the new dilations |
| TFRewrites.AllRedilatedStep | Sources/Adapters/Tensorflow/TFConvOptimizer.swift:56-78 | one more convolution with new dilations keeps every definition a redilated copy of the original |
| TFRewrites.DilationPartsGone | Sources/Adapters/Tensorflow/TFConvOptimizer.swift:62-75 | what one step dissolves is among the SpaceToBatch, BatchToSpace and Const nodes of the original definitions |
| TFRewrites.DilationStep | Sources/Adapters/Tensorflow/TFConvOptimizer.swift:56-78 | one visit either traps on a short dilation list or handles a convolution as `FoldDilation` states and leaves any other node alone; only dilations change, and edges away from SpaceToBatch, BatchToSpace and Const nodes are kept |
| TFRewrites.AllRedilatedTrans | Sources/Adapters/Tensorflow/TFConvOptimizer.swift:56-78 | new dilations after new dilations are new dilations of the original |
| TFRewrites.ConvDilationOptimizer | Sources/Adapters/Tensorflow/TFConvOptimizer.swift:55-79 | the listed nodes are visited in order, each on the graph the previous visit left, as `DilationStep` states, until one traps; unless one trapped, only convolutions change and only in their dilations, edges not touching SpaceToBatch, BatchToSpace or Const nodes are kept, and well-formedness is kept when, as the flag says, no removed node was its own predecessor |
| TFRewrites.DenseOf | Sources/Adapters/Tensorflow/TFDenseSubstitution.swift:27-31 | absent exactly when the MatMul lacks a BiasAdd or Add successor, a weight input or a data input; otherwise the first of each |
| TFRewrites.DataSource | Sources/Adapters/Tensorflow/TFDenseSubstitution.swift:35-41 | the Reshape is bypassed exactly when the data input is a Reshape with a non-Const input, and then the source is that input; else it is the data input |
| TFRewrites.LinkDense | Sources/Adapters/Tensorflow/TFDenseSubstitution.swift:34-42 | the add gains the weights and the data source; the MatMul and a bypassed Reshape end lonely; other edges are kept; well-formedness is kept |
| TFRewrites.SubstituteDense | Sources/Adapters/Tensorflow/TFDenseSubstitution.swift:26-42 | without the three parts nothing changes; otherwise the add becomes a Dense node fed by the weights and the data source, and the MatMul (and the Reshape) are stripped |
| TFRewrites.DenseStep | Sources/Adapters/Tensorflow/TFDenseSubstitution.swift:26-46 | one visit: a MatMul with its three parts is substituted as `SubstituteDense` states and the neuron after the new Dense node is added as `AddNeuronIfThere` states; any other node changes nothing; only additions change definition |
| TFRewrites.DenseSubstitution | Sources/Adapters/Tensorflow/TFDenseSubstitution.swift:25-48 | the listed nodes are visited in order, each on the graph the previous visit left, as `DenseStep` states; only BiasAdd and Add nodes change definition, to Dense with a folded neuron; a well-formed table stays well formed |
| TFRewrites.AddWeightEdge | Sources/Adapters/Tensorflow/TFVariableProcessor.swift:33-34 | linking a Variable or Const adds only edges from a weight and keeps well-formedness |
| TFRewrites.VariableGroupOf | Sources/Adapters/Tensorflow/TFVariableProcessor.swift:26-28 | present exactly when the variable has an Assign successor and a `/read` successor with a successor; then the first of each |
| TFRewrites.LinkConstVariable | Sources/Adapters/Tensorflow/TFVariableProcessor.swift:30-34 | the Assign ends lonely, the output is fed by the variable and the variable by the Const; only weight edges are added |
| TFRewrites.LinkUnsetVariable | Sources/Adapters/Tensorflow/TFVariableProcessor.swift:35-40 | the Assign forgets the variable and is stripped recursively; the output is fed by the variable; only weight edges are added |
| TFRewrites.CollapseVariable | Sources/Adapters/Tensorflow/TFVariableProcessor.swift:29-40 | the read node is stripped and the output fed by the variable; with a Const initial value the Assign is stripped and the variable fed by it |
| TFRewrites.ProcessVariable | Sources/Adapters/Tensorflow/TFVariableProcessor.swift:25-41 | without the group nothing changes; otherwise the group is collapsed into Const, variable, output |
| TFRewrites.FrozenReadOf | Sources/Adapters/Tensorflow/TFVariableProcessor.swift:42-45 | present exactly when the read node's only input is a Const without inputs and it has one successor |
| TFRewrites.ProcessFrozenRead | Sources/Adapters/Tensorflow/TFVariableProcessor.swift:42-50 | otherwise nothing changes; the read node is stripped and its successor fed by the Const; well-formedness is kept |
| TFRewrites.VariableProcessor | Sources/Adapters/Tensorflow/TFVariableProcessor.swift:23-52 | every edge the pass adds comes from a Variable or a Const |
| TFRewrites.WeightGainsTrans | Sources/Adapters/Tensorflow/TFVariableProcessor.swift:24-51 | two steps that each add only weight edges add only weight edges |
| TFRewrites.ShrunkThenWeightGains | Sources/Adapters/Tensorflow/TFVariableProcessor.swift:29-40 | stripping and then adding only weight edges adds only weight edges |
| TFNormScopes.OutsideOf | Sources/Adapters/Tensorflow/TFInstanceNormOptimizer.swift:44 | keeps exactly the listed nodes outside every `moments` scope, in order |
| TFNormScopes.ChainFrom | Sources/Adapters/Tensorflow/TFInstanceNormOptimizer.swift:52-61 | finds a chain from the Add exactly when one exists: Add, Pow, RealDiv with a Sub input, Mul and a final Add, each the only successor of the previous |
| TFNormScopes.RenamePair | Sources/Adapters/Tensorflow/TFInstanceNormOptimizer.swift:65-66 | renaming an unrenamed Add to InstanceNormAdd and Mul to InstanceNormMul keeps the definitions a renaming of the originals |
| TFNormScopes.FirstPickRenamed | Sources/Adapters/Tensorflow/TFInstanceNormOptimizer.swift:58 | renaming does not change which input is the first Sub |
| TFNormScopes.ChainRenamed | Sources/Adapters/Tensorflow/TFInstanceNormOptimizer.swift:52-66 | a chain seen on renamed definitions was a chain of the original ones |
| TFNormScopes.ChainUntouched | Sources/Adapters/Tensorflow/TFInstanceNormOptimizer.swift:52-66 | a chain whose Adds and Mul have not been renamed is still found |
| TFNormScopes.ChainUnique | Sources/Adapters/Tensorflow/TFInstanceNormOptimizer.swift:52-61 | a chain is fixed by its first Add |
| TFNormScopes.RenameChain | Sources/Adapters/Tensorflow/TFInstanceNormOptimizer.swift:50-68 | the chain test on current definitions finds the node's chain exactly when its Adds and Mul are not yet renamed, and then renames them |
| TFNormScopes.ChainFromRenamed | Sources/Adapters/Tensorflow/TFInstanceNormOptimizer.swift:52-61 | the chain test on renamed definitions finds the original chain, and finds it whenever its parts are unrenamed |
| TFNormScopes.VisitMember | Sources/Adapters/Tensorflow/TFInstanceNormOptimizer.swift:43-71 | one outside predecessor sets the input when none is recorded and otherwise the debug assertion compares them; else one outside successor heading a chain queues Sub, Add, Pow and RealDiv and sets the output; the node itself is queued |
| TFNormScopes.ScopeOf | Sources/Adapters/Tensorflow/TFInstanceNormOptimizer.swift:36-39 | a node has a scope exactly when its name matches `moments(_\d+)?/`, and the scope is the name up to the match's end |
| TFNormScopes.Scopes | Sources/Adapters/Tensorflow/TFInstanceNormOptimizer.swift:42 | the scope of every node, in order |
| TFNormScopes.SinglesAt | Sources/Adapters/Tensorflow/TFInstanceNormOptimizer.swift:44 | entry v of the outside-predecessor table is the outside predecessors of v |
| TFNormScopes.ChainsAt | Sources/Adapters/Tensorflow/TFInstanceNormOptimizer.swift:50-61 | entry v of the chain table is the chain node v leads to |
| TFNormScopes.VisitedAll | Sources/Adapters/Tensorflow/TFInstanceNormOptimizer.swift:42 | the visited nodes are exactly the listed scope nodes |
| TFNormScopes.InputsStep | Sources/Adapters/Tensorflow/TFInstanceNormOptimizer.swift:44-49 | after one more scope node every recorded input is the single outside predecessor of a visited node of that scope |
| TFNormScopes.AgreeStep | Sources/Adapters/Tensorflow/TFInstanceNormOptimizer.swift:48 | the debug assertion has held so far exactly when the visited nodes of each scope with one outside predecessor agreed on it |
| TFNormScopes.RecordedStep | Sources/Adapters/Tensorflow/TFInstanceNormOptimizer.swift:44-49 | while the assertion holds, every scope with a visited single-predecessor node has its input recorded |
| TFNormScopes.OutputsStep | Sources/Adapters/Tensorflow/TFInstanceNormOptimizer.swift:50-68 | every recorded output is the final Add of a chain reached from a visited node of that scope, and is renamed |
| TFNormScopes.StripsStep | Sources/Adapters/Tensorflow/TFInstanceNormOptimizer.swift:63-70 | every queued node is a visited scope node or a part of a chain reached from one |
| TFNormScopes.CollectStep | Sources/Adapters/Tensorflow/TFInstanceNormOptimizer.swift:42-72 | one scope node keeps every part of the loop's account of the records |
| TFNormScopes.CollectedInit | Sources/Adapters/Tensorflow/TFInstanceNormOptimizer.swift:41 | before the loop no scope is recorded and the assertion holds |
| TFInstanceNorm.CollectOne | Sources/Adapters/Tensorflow/TFInstanceNormOptimizer.swift:43-71 | the record is stored back under the node's scope, a new scope is appended once, and the loop's account is kept |
| TFInstanceNorm.CollectAt | Sources/Adapters/Tensorflow/TFInstanceNormOptimizer.swift:42-72 | a scope node is visited as `CollectOne` says; any other node changes nothing |
| TFInstanceNorm.CollectNorms | Sources/Adapters/Tensorflow/TFInstanceNormOptimizer.swift:41-72 | every listed scope node updates its scope's record; the records are exactly the inputs, outputs and queued nodes the pass intends, and only chain Adds and Muls are renamed |
| TFInstanceNorm.ScopeNodesQueued | Sources/Adapters/Tensorflow/TFInstanceNormOptimizer.swift:70-71 | every listed scope node is queued under its own scope |
| TFInstanceNorm.LinkedIsNorm | Sources/Adapters/Tensorflow/TFInstanceNormOptimizer.swift:76-77 | a pair the second loop links is an input and a final Add recorded for the same scope |
| TFInstanceNorm.InstanceNormOptimizer | Sources/Adapters/Tensorflow/TFInstanceNormOptimizer.swift:40-83 | every scope node is queued; queued nodes that are no scope's input or output end lonely; every edge added links a scope's input to its output, and that link survives unless one of them is queued; every edge between nodes no scope queued is kept; well-formedness is kept |
| TFNormWiring.StripEach | Sources/Adapters/Tensorflow/TFInstanceNormOptimizer.swift:78-80 | every listed node ends lonely, lonely nodes stay lonely, no edge is added and edges away from the stripped nodes are kept |
| TFNormWiring.WireGroup | Sources/Adapters/Tensorflow/TFInstanceNormOptimizer.swift:76-80 | the output gains the input, then the queued nodes end lonely; the only edge added is input to output |
| TFNormWiring.AloneStep | Sources/Adapters/Tensorflow/TFInstanceNormOptimizer.swift:75-82 | one more bridged scope keeps every queued node of the scopes so far lonely, unless it is an input or output |
| TFNormWiring.GainsStep | Sources/Adapters/Tensorflow/TFInstanceNormOptimizer.swift:75-82 | one more bridged scope adds only input-to-output edges of the scopes so far |
| TFNormWiring.LinksStep | Sources/Adapters/Tensorflow/TFInstanceNormOptimizer.swift:75-82 | the links of the scopes so far survive one more scope unless an end is stripped |
| TFNormWiring.SkipStep | Sources/Adapters/Tensorflow/TFInstanceNormOptimizer.swift:76 | a scope without both an input and an output changes nothing |
| TFNormWiring.WireAt | Sources/Adapters/Tensorflow/TFInstanceNormOptimizer.swift:75-82 | one scope of the second loop keeps the loop's account |
| TFNormWiring.WireNorms | Sources/Adapters/Tensorflow/TFInstanceNormOptimizer.swift:74-82 | queued nodes that are no input or output end lonely, lonely nodes stay lonely, every new edge links a scope's input to its output, the links survive unless an end is stripped, and edges between nodes never queued are kept |
| TFConverter.WeightInputs | Sources/Adapters/Tensorflow/TFWeightData.swift:20 | keeps exactly the inputs that are Variables or Consts, in order |
| TFConverter.WeightInputsAppend | Sources/Adapters/Tensorflow/TFWeightData.swift:20 | filtering a concatenation is concatenating the filtered parts |
| TFConverter.FedDataIsHeldData | Sources/Adapters/Tensorflow/TFWeightData.swift:47-57 | the bias rule, which does not check that the feeding node is a Const, reads the same bytes as the weights rule |
| TFConverter.HeldDataIsConstContent | Sources/Adapters/Tensorflow/TFWeightData.swift:47-51 | data that is found is the tensor content of a Const: the holder itself or the first node feeding it |
| TFConverter.PickHolders | Sources/Adapters/Tensorflow/TFWeightData.swift:24-38 | succeeds exactly with one holder, or with two of which one has a one-dimensional shape; one holder is the weights; of two, the first bias-shaped one is the bias and the other the weights |
| TFConverter.GetWeightData | Sources/Adapters/Tensorflow/TFWeightData.swift:19-60 | fails when the holders cannot be picked or the weights have no shape; `useBias` holds exactly when there are two holders; weights and bias are read from the holders or their first inputs |
| TFConverter.SingleHolderIsWeights | Sources/Adapters/Tensorflow/TFWeightData.swift:24-25 | a single holder is the weights whatever its shape, and no bias is used |
| TFConverter.FirstBiasWins | Sources/Adapters/Tensorflow/TFWeightData.swift:27-29 | with two one-dimensional holders the first is the bias and the second the weights |
| TFConverter.NeuronMappers | Sources/Adapters/Tensorflow/TFConverter+Mappers.swift:21-30 | Relu and QuantizedRelu map to a relu neuron, Tanh and Sigmoid to theirs, and no other op maps to a neuron |
| TFConverter.SharedMappers | Sources/Adapters/Tensorflow/TFConverter+Mappers.swift:84-171 | exactly Conv2D and QuantizedConv2D share the convolution mapper, and exactly ConcatV2 and Concat the concat mapper |
| TFConverter.UnmappedOps | Sources/Adapters/Tensorflow/TFConverter+Mappers.swift:13-218 | Variables, Consts, BiasAdd, MatMul, Reshape, the fused batch norm and the depthwise convolution have no mapper |
| TFConverter.MapPooling | Sources/Adapters/Tensorflow/TFConverter+Mappers.swift:33-47 | succeeds exactly when padding, strides and kernel size are present, giving a pooling layer of the requested type named after the node |
| TFConverter.PoolingFromNHWC | Sources/Adapters/Tensorflow/TFConverter+Mappers.swift:41-45 | the kernel is `ksize[2]` wide and `ksize[1]` high, the strides `strides[2]` and `strides[1]`, and only "SAME" gives SAME padding |
| TFConverter.MapConv | Sources/Adapters/Tensorflow/TFConverter+Mappers.swift:59-85 | succeeds exactly when padding, strides, weight data and a four-dimensional weight shape exist; the size comes from the shape, and the neuron, bias flag and bias from the node and the weight data |
| TFConverter.MapConvTranspose | Sources/Adapters/Tensorflow/TFConverter+Mappers.swift:88-107 | succeeds exactly when strides and weight data with a shape of at least three dimensions exist; the output channels are dimension 2 |
| TFConverter.MapDense | Sources/Adapters/Tensorflow/TFConverter+Mappers.swift:110-127 | succeeds exactly when weight data with a shape of at least two dimensions exists; the neuron count is dimension 1 |
| TFConverter.MapInstanceNorm | Sources/Adapters/Tensorflow/TFConverter+Mappers.swift:130-155 | the shift is the first weight holder input, the scale the first input of the first InstanceNormMul input; it fails when either is missing |
| TFConverter.AxisNode | Sources/Adapters/Tensorflow/TFConverter+Mappers.swift:159-162 | the input named `<name>/axis`, else the one named `<name>/concat_dim`; none exactly when neither exists |
| TFConverter.MapConcat | Sources/Adapters/Tensorflow/TFConverter+Mappers.swift:158-171 | fails without an axis node or a first integer that is an NHWC axis index; otherwise a concat layer along the matching axis named after the node |
| TFConverter.Epsilon | Sources/Adapters/Tensorflow/TFConverter+Mappers.swift:214 | the `variance_epsilon` attribute, or 0.001 without it |
| TFConverter.MapBatchNorm | Sources/Adapters/Tensorflow/TFConverter+Mappers.swift:174-218 | the first moving mean, moving variance, gamma and beta holders are required; the scale is read only when explicitly not applied after normalisation; the epsilon is `Epsilon` |
| TFConverter.MapNode | Sources/Adapters/Tensorflow/TFConverter+Mappers.swift:13-218 | every layer takes the node's name as its id; Add, the neurons and Softmax never fail |
| TFConverter.LayerInputs | Sources/Adapters/Tensorflow/TFConverter.swift:97-104 | exactly the layers recorded for the names of the node's inputs |
| TFConverter.Translation | Sources/Adapters/Tensorflow/TFConverter.swift:86-114 | one layer per mapped node; every recorded name points to the last mapped node of that name; every layer's inputs are layers built no later than itself |
| TFConverter.TranslationInOrder | Sources/Adapters/Tensorflow/TFConverter.swift:90-94 | the layer of the i-th node sits after the layers of the mapped nodes before it, and is what its mapper builds |
| TFConverter.TranslationLast | Sources/Adapters/Tensorflow/TFConverter.swift:90-92 | the last node makes the conversion fail only through its own mapper |
| TFConverter.TranslationFails | Sources/Adapters/Tensorflow/TFConverter.swift:90-92 | the conversion fails exactly when the mapper of some mapped node fails |
| TFConverter.FailureSticks | Sources/Adapters/Tensorflow/TFConverter.swift:90-92 | a failure on a prefix of the nodes is the failure of the whole list |
| TFConverter.LinkLayer | Sources/Adapters/Tensorflow/TFConverter.swift:93-102 | the new layer is the next node and has exactly the listed inputs; the network graph stays well formed |
| TFConverter.Optimize | Sources/Adapters/Tensorflow/TFConverter.swift:67 | every optimizer keeps the graph valid with the same node count; only the dilation optimizer can trap |
| TFConverter.Converter.constructor | Sources/Adapters/Tensorflow/TFConverter.swift:26-28 | stores the optimizers with no mapper |
| TFConverter.Converter.SetupMappers | Sources/Adapters/Tensorflow/TFConverter+Mappers.swift:13-218 | the default mappers are installed over any already registered for the same op |
| TFConverter.Converter.Default | Sources/Adapters/Tensorflow/TFConverter.swift:31-40 | the six default optimizers in order, with the default mappers |
| TFConverter.Converter.RunOptimizers | Sources/Adapters/Tensorflow/TFConverter.swift:64-79 | the list only loses nodes; with at least one optimizer and no trap no lonely node is left |
| TFConverter.Converter.TranslateOperators | Sources/Adapters/Tensorflow/TFConverter.swift:86-114 | the result is `Translation`, and the network graph's node k has exactly the recorded inputs of layer k |
| TFConverter.Converter.TranslateStep | Sources/Adapters/Tensorflow/TFConverter.swift:90-111 | one node extends the translation of the nodes before it to `Translation` of one more node; a mapped node's layer is linked from exactly the layers of its recorded inputs |
| TFConverter.Converter.ConvertGraph | Sources/Adapters/Tensorflow/TFConverter.swift:47-60 | runs the optimizers and translates the remaining nodes, so a success is `Translation` of the optimized graph with no lonely node left |

Definitions that have no contract of their own are stated through the rows of the lemmas about them:

- Graph.NodeTable.IsLonely is `isLonely` (Sources/Graph/Node.swift:31-33). Graph.NodeTable.Strip,
  Graph.NodeTable.RemoveFromGraph, Graph.NodeTable.Clear and TFOptimizers.LonelyStaysLonely state it.
- Layers.Extent, Layers.ConvOutputSize, Layers.SamePadding and Layers.ConvOffset are the output size
  and kernel offset of `Convolution.initialize` (Sources/Layers/Convolution.swift:55-69).
  Layers.SameExtentStrides, Layers.ValidExtentWindows, Layers.ValidExtentOversizedKernel,
  Layers.ConvSameWindows and Layers.ConvValidWindows state them.
- Layers.ConvWeightsCount and Layers.DepthwiseWeightsCount are `getWeightsSize`
  (Sources/Layers/Convolution.swift:88-90, Sources/Layers/DepthwiseConvolution.swift:19-21).
  Layers.WeightsAreKernelTensor states them.
- Layers.PoolOutputSize is the output size of `Pooling.initialize` (Sources/Layers/Pooling.swift:71-79).
  Layers.PoolingMatchesConvolution and Layers.Pooling.Initialize state it.
- Layers.SingleInput is the one-input assertion of `validate` (Sources/Layers/Convolution.swift:46-49
  and the other single-input layers). Layers.ConvTransposeValid and the `Initialize` rows state it.
- Layers.CropOrigin is the source origin of `Crop.execute` (Sources/Layers/Crop.swift:30-31).
  Layers.CropCentred states it.
- Layers.BatchNormBufferLength is the parameter buffer length (Sources/Layers/BatchNorm.swift:88).
  Layers.BatchNormBufferFit and Layers.BatchNorm.Initialize state it.
- Shaders.IsEqual is `isEqual(to:)` (Sources/Core/PALFunctionConstant.swift:30-32 and 56-59).
  Shaders.TypedIsEqualIsEquality, Shaders.BaseAgainstTyped and Shaders.ConstantsEqualIsEquality
  state it.
- Shaders.Hash is `hash(into:)` (Sources/Core/ComputePipelineDef.swift:12-14).
  Shaders.HashConsistent states it.
- NetworkLayers.SameId is `==` on layers (Sources/Core/NetworkLayer.swift:191-193).
  NetworkLayers.AnonymousLayersUnequal states it.
- Legacy.Renamed is the anchored `replacingOccurrences` (Sources/Layers/ConvolutionLayer.swift:93).
  Legacy.RenamedCheckpoint, Legacy.RenamedOther, Legacy.RenamedBack and Legacy.RenamedFromEmpty
  state it.
- Legacy.Run is the loop of `NetworkPipeline.execute` (Sources/Core/NetworkPipeline.swift:36-43).
  Legacy.RunAppend and Legacy.Pipeline.Execute state it.
- Legacy.LegacyDescriptor is the descriptor of `makeConv` (Sources/Layers/ConvolutionLayer.swift:105-113).
  Legacy.LegacyDescriptorIsSquareConvolution states it.
- Legacy.OutputIndex is the image `ConvolutionLayer.execute` returns
  (Sources/Layers/ConvolutionLayer.swift:123-147). Legacy.OutputIndexIsLastImage,
  Legacy.OutputIndexInRange and Legacy.ConvolutionLayer.ExecuteOutput state it.
- Legacy.LegacySteps gives the step image sizes (Sources/Layers/ConvTransposeLayer.swift:74-75).
  Legacy.LegacyStepsMatchConvTranspose and Legacy.ConvTransposeLayer.Initialize state it.
- Legacy.Pipeline.Get, Legacy.Pipeline.StartIndex, Legacy.Pipeline.EndIndex and
  Legacy.Pipeline.IndexAfter are the `Collection` members (Sources/Core/NetworkPipeline.swift:49-64).
  Legacy.WalkVisitsEachOnce, Legacy.Pipeline.Positions and Legacy.Pipeline.Set state them.
- TFProto.AttrString, TFProto.AttrInts, TFProto.AttrShape, TFProto.AttrTensor, TFProto.AttrBool
  and TFProto.AttrFloat are the protocol-buffer field reads with their defaults
  (Sources/Adapters/Tensorflow/ProtoExtensions.swift:14-72). TFProto.ShapeOf, TFProto.StridesLayout,
  TFProto.ActivationNeuronOf and TFProto.ValueData state them.
- TFNames.IsConvolution, TFNames.IsAddition, TFNames.IsNeuron and TFNames.IsVariableOrConst combine
  the op tests of Sources/Adapters/Tensorflow/String+TFParsing.swift:11-37.
  TFNames.OpPredicatesExact states them.
- TFNames.IsReadName is `isTFVariableReadName` (Sources/Adapters/Tensorflow/TFVariableProcessor.swift:68-71).
  TFNames.ReadNames states it.
- TFNames.Test is `Regex.test` (Sources/Helpers/Regex.swift:24-27). TFNames.TestIsSomeMatch states it.

## Left out

- GPU work: kernel encoding, MPS kernels, textures and buffers are not modelled; images are values
  with a descriptor, a temporary flag and a read count.
- Concurrency: the dispatch-queue path of `Network.run`, `runningCount` and the busy-wait in
  `destroy`.
- Graph.NodeTable.StripRecursive: the recursion of `strip(recursive: true)` is bounded by a `fuel`
  depth, because the source's recursion need not terminate on asymmetric lists; with fuel 0 only the
  node itself is stripped.
- Graph.NodeTable.RemoveFromGraph: well-formedness is not preserved in general (a predecessor that
  is also a successor gains a self-edge), so the contract states the rewiring, not well-formedness.
- Networks.Network.Initialize: the graph after the dummies are removed is stated by
  Networks.Network.RemoveDummies and not repeated in this contract, which states the lists.
- Networks.Network.AddPreProcessing: requires that the first start node is not one of the layers;
  the source accepts such a list and would give the start node an edge from itself, which is not
  modelled. Networks.Network.AddPreProcessingByInput and Networks.Network.InsertPreProcessing
  require the same of every start node; they also require every preprocessing list to be non-empty
  and the node list to hold at least as many layers as there are start nodes, the cases where the
  source's ranges trap.
- Networks.Network.AddPreProcessingByInput: the dictionary's iteration order is a parameter (a
  sequence of entries).
- TF node identity is by index, while `TFNode` compares names; the two agree when names are unique.
- Regular expressions are modelled for the patterns the importer uses (`word(_\d+)?/tail` and
  `.*/read$`) with ASCII case folding; Unicode case folding and line terminators are not modelled.

- File and protocol-buffer I/O: loading a graph file, `ParameterLoader.load`, memory-mapped weight
  files and texture loading are not modelled; a loaded file is a path and a float count, a graph is
  given as its list of `NodeDef`s.
- Floating point: the half-precision conversion, the vImage conversions of `Texture` and the CPU
  reference implementations of the tests are not modelled; a float attribute such as
  `variance_epsilon` is a `real`; byte tensors are read as little-endian 32-bit integers.
- Layers.StartPlanFor: the Double aspect-ratio computation of `Start` is a parameter (`Aspect`):
  the model states which plan follows from it, not the floating-point comparison.
- Textures.IsEqual: the float tolerance is a parameter (`near`).
- Textures.Argsort: the library sort is stood in for by an insertion sort; the contract states a
  permutation of the indices sorted by `less`, which is all the library sort promises, and does not
  fix the order of ties.
- Legacy.StyleNetFiles: the five `ResidualLayer` blocks of `StyleNet` are not listed; they are
  `->>` compositions the Operators model covers.
- Thin kernel wrappers (Add, Neuron, Softmax, Identity, Dummy, Scale and the other single-kernel
  layers) are not modelled: apart from GPU work they only check for one input and keep the input
  size.
- Dictionary iteration order: `mappings.keys` in the subgraph deleters follows first insertion;
  in `TFInstanceNormOptimizer` the order is a parameter (`order`), and every property is proved for
  any order.
- TFOptimizers.IgnoredOpsDeleter: well-formedness afterwards is conditional on the ghost `loopFree`
  flag (no removed node was its own input), as `removeFromGraph` adds a self-edge otherwise; the
  same holds for TFOptimizers.RemoveReshape, TFOptimizers.ReshapeOptimizer,
  TFRewrites.DropWithConsts, TFRewrites.FoldDilation and TFRewrites.ConvDilationOptimizer.
- TFRewrites.ConvOptimizer: well-formedness is not claimed, because `replace(incomingEdge:with:)`
  can leave duplicate or unmirrored entries; the edges are stated visit by visit (`BiasFolded`,
  `NeuronAdded`).
- TFRewrites.VariableProcessor: the contract states only that every added edge comes from a Variable
  or Const; the recursive strip of an Assign without a Const initial value is bounded by `fuel`.
- TFInstanceNorm.InstanceNormOptimizer: modelled on the graph's table, node list and definitions,
  with the renamed definitions returned (TFConverter.NormPass stores them back); the debug
  assertion that a scope's inputs agree is a returned flag.
- TFConverter.Converter.ConvertGraph: starts from an already loaded graph; the verbose printing is
  left out.
- TFConverter.MapConv: the HWIO→OHWI reorder of embedded weights is recorded in the layer value
  (`OHWI`) rather than applied; the reorder itself is proved in the Transpose module. The Dense
  layer's `HWIOtoOWHI` transpose function is not recorded in its layer value.
- TFConverter.DefaultMappers: the batch-norm mapper is registered only under
  `BatchNormWithGlobalNormalization`; the registration under `Constants.Ops.BatchNorm` is left out,
  as that constant is not declared in Sources/Helpers/Constants.swift.
- Custom mappers a user registers after `setupMappers` are not modelled; `Mapper` lists the
  default closures.
- Sources/Adapters/Tensorflow/TFDeleteOpOptimizer.swift does nothing and is not part of this model;
  Sources/Adapters/Optimizer.swift and the `TensorflowGraph` of
  Sources/Adapters/Tensorflow/GraphLoader.swift duplicate modelled code and are not part of this
  model either.
- Images.Image: pixel storage is not modelled.
- Legacy.LoadWeightsForFixedSize: requires at most `fixed` loaded floats. With more,
  Sources/Layers/ConvTransposeLayer.swift:183-193 copies `count` floats into the smaller fixed-size
  buffer and writes past its end; that overrun is not modelled. Legacy.StyleTransposeCounts shows
  that StyleNet's two transposed convolutions fit.
- Networks.Network.constructor: the convenience initialiser `init(inputSize:parameterLoader:)`
  (Sources/Core/Network.swift:62-65) has no member of its own; it is this constructor called with the
  single input name `""`, the default input name of `Start`.
- Invalid UTF-8: the string attributes `neuron`, `data_format` and `padding` are bytes that the source
  decodes as UTF-8 (Sources/Adapters/Tensorflow/ProtoExtensions.swift:25, 41 and 53,
  Sources/Adapters/Tensorflow/TFConverter+Mappers.swift:35 and 61). The model holds them as text
  already decoded, so a failed decode is not modelled. In the source it gives no neuron, the
  strides and kernel size for no data format, and a failed pooling or convolution mapping.

## Findings

| source | as written | input that shows it | evidently intended | confidence | as-written member | corrected member |
|---|---|---|---|---|---|---|
| Sources/Graph/DependencyListBuilder.swift:27-30 | a node is appended whenever all its incoming nodes are listed, even when it is already in the list | edges 0→1, 0→2, 1→2 built from node 0: node 2 is appended when reached through 1 and again when reached directly from 0 | every node is listed once, so that `sortNodes`' count check compares like with like | not executed | Dependency.TriangleRelists | Dependency.ListedOnce |
