# Verification of the ATT-1 model compiler and the fabric control plane

Two compilers of the repository, each with the programs that consume its output, are modelled in Dafny
and their cross-stage promises proved. `dafny verify dfyconfig.toml` checks everything.

**Artifact compiler, reader and reference forward pass.** The converter transposes the tensors of a LLaMA
model, repeats grouped key/value heads, quantises to per-row int8 or nibble-packed int4, assigns layers to
tiles and prints one binary file; the reader parses and dequantises it; the comparison harness runs a
forward pass with a KV cache. Proved: the expansion of grouped heads preserves the logits and caches of
every run; the cached pass equals a cacheless recurrence; quantised storage stays within its error bound,
element by element, through the matrix product and through the written bytes; a built file reads back; the
sections tile the file; the metadata agrees with the descriptors and with the closed form of the greedy
layer schedule; planned tensors are never rejected; and the forward pass over the weights of a built f32 file
returns the logits of the source model it was made from.

**Control plane.** A placement report becomes a command plan, the plan becomes fabric routes, the routes
are validated, replayed and weighed by a bandwidth model; beside it an execution planner emits fenced
commands which a mapper checks and translates. Proved: what each producer emits its consumers accept, under
an exact condition; counters kept independently on both sides agree, or exactly when they do; bytes are
conserved; ids and fences are well ordered; every accepted execution plan is live, and planner plans run
each layer in program order.

**Two smaller programs.** The safetensors scan, where comparing neighbours is shown to decide pairwise
disjointness up to the placing of empty tensors, and bf16 rounding, shown to be round-to-nearest-even in value.

Beside these theorems every main operation is stated apart from its own definition: the converter by the names in
source and artifact (`SourceNames`), the file and its reader byte by byte (`FileMap`, `ReaderMap`), the quantised
formats nibble by nibble (`QuantLayout`), the forward pass as sums of products (`ForwardMeaning`), the two planners
by the position and content of each command (`PlacementLayout`, `PlanLayout`, `MappedPlans`), the mapper by wire
names (`WireNames`, `MappingMeaning`), routes by the command they answer (`EmittedRoutes`), checks by conditions on
the document (`PlanChecks`, `ReportRules`, `ScanMeaning`), replay and bandwidth as sums over routes (`TrafficMeaning`).

Code that loops over mutable lists, dictionaries or objects is a method or class here (`RouteBuilder`,
`ValidationResult`, `TileReplayCounters`, `Planner`, and the loops of converter, reader, harness and
simulator). Each such method is proved equal to a specification function, and the theorems are lemmas about
those functions. Floating point is `real`; bit patterns are used for bf16 only. Softmax, the normalisation
root, the exponential inside SiLU, and the RoPE sine and cosine are arbitrary functions (`Maths`), so the
forward-pass theorems hold for every choice of them. Packing to and from f32 is an arbitrary codec (`F32`) with four-byte
images, so the quantisation theorems carry the error of storing a scale explicitly. JSON documents are
datatypes with an `Option` where a program accepts a missing field; diagnostics are records of rule and
position instead of message text.

## Where the code departs from its description

- The forward pass documents a `(logits, kv_cache)` result and returns the logits only
  (compiler/compare_att1_to_source.py:436-437, 530). `ForwardRun.Run` returns the cache as well, to be able
  to state what it holds.
- The writer puts `flags` at descriptor byte 124 (compiler/convert_llama_to_att1.py:446-465); the reader
  takes it from byte 120, the always-zero shard word (compiler/read_att1.py:404). A q4 group size other
  than the default is therefore lost: exactly when by `Att1RoundTrip.GroupSizeSurvivesIff`, on a file by
  `GroupSize.GroupSizeIsLost`.
- The harness gives a source projection the shape of the file's without expanding it
  (compiler/compare_att1_to_source.py:548-574), so its reference pass never runs on a grouped model:
  `FileForward.SourceLoadsIff`. `FileForward.FileRunsTheSource` states what the comparison is for.
- Asked for metadata with zero tiles, the writer fails with an index error at the first tensor of a layer:
  `ShardMetadata.UnscheduledIff`.
- A placement plan carries header status "ok"; the replay tool in strict mode accepts only "pass"
  (compiler/replay_aimu_command_plan.py:124-129): `PlacementTheorems.PlacementPlanIsSound`.
- The strict execution mapper refuses every plan the planner makes, since each ends in EXEC operations:
  `PlannerAcceptance.PlannerToMapper`.
- The planner checks owners against the tile count from above only (compiler/plan_tensor_execution.py:136-167),
  and the mapper does not read the planner's status: `PlannerAcceptance.TilesIff`
  says which owners break a plan, `PlannerAcceptance.StatusIsNotAcceptance`
  shows a passed plan that is refused and a failed one that is accepted.
- The planner lets a layer depend on `feed_forward.w1`, `w2` and `w3` and the head on `norm.weight` and
  `lm_head.weight` (compiler/plan_tensor_execution.py:506-546, 612-626), names which the converter's own plan
  (compiler/convert_llama_to_att1.py:1132-1155) does not give to any tensor: `PlanLayout.LayerSpecMeans`,
  `PlanLayout.HeadSpecMeans`.
- The route mapper does not check the sign of a byte count, the validator does:
  `RouteTheorems.MapperReportValidates`, on a plan `GeneratedReports.NegativeSendIsRefused`.
- Builder and replay credit barriers and completed reductions to different tiles: exactly when by
  `ReplayTheorems.BarriersAgreeIff` and `ReplayTheorems.ReductionsAgreeIff`, on plans by
  `GeneratedReports.BarrierParts` and `GeneratedReports.ReductionParts`.
- Planner fences order commands inside a layer only; nothing makes a layer wait for the loads, the setup
  barrier or the layer before it: `PlannerOrder.LayersStartUnfenced`.
- The overlap check of the safetensors scan misjudges some tensors without bytes, depending on listing order:
  `Safetensors.OverlapCheckIsExact` gives the exact condition, `Safetensors.EmptyTensorOrderMatters` two headers.
  Negative begin offsets are not checked: `Safetensors.CleanScanIsSound`, `Safetensors.NegativeBeginIsClean`.
- A route that lists a destination twice loads its tile twice and the aggregate once:
  `Bandwidth.RepeatedDestinationOverloads`.

## Model

| member | source | states |
|---|---|---|
| `Layout.TransposeAt` | compiler/convert_llama_to_att1.py:284-285 | element (c, r) of the transposed list is element (r, c) of the source |
| `Layout.TransposeInvolution` | compiler/convert_llama_to_att1.py:284-285 | transposing back restores the matrix |
| `Layout.TransposeByLoops` | compiler/compare_att1_to_source.py:254-259 | the nested-loop copy in the harness, which fills an array column by column, returns the same list as the converter's comprehension |
| `Layout.ExpandGqaByLoops` | compiler/convert_llama_to_att1.py:288-326 | the triple loop, with its five rejections, fills the target array with exactly the repeated columns; the harness copy (compare_att1_to_source.py:262-291) is the same loop |
| `Layout.FillRow` | compiler/convert_llama_to_att1.py:319-325 | one row of the expansion: everything up to the row is kept, the row becomes the specified one |
| `Layout.FillHead` | compiler/convert_llama_to_att1.py:320-325 | one query head of one row, read from its key/value head |
| `Layout.ExpandedAt` | compiler/convert_llama_to_att1.py:317-326 | element (in, out) of the expansion is element (source row of out, in) of the grouped weight |
| `Layout.ExpandedColumn` | compiler/convert_llama_to_att1.py:288-326 | every column of the expansion is the column of the transposed grouped weight that its head shares |
| `Layout.ExpandedByHead` | compiler/convert_llama_to_att1.py:317-326 | element i of query head q in row in is element (q / (n_heads / n_kv_heads)) * head_dim + i of column in of the source, with the division written out |
| `Layout.ExpansionMeans` | compiler/convert_llama_to_att1.py:288-326 | the expansion is accepted exactly when the head counts are equal, or positive with the query heads a multiple of the others, the rows a multiple of the key/value heads and the columns n_heads times the head width; equal counts give the transpose |
| `LinearAlgebra.RopeByLoop` | compiler/compare_att1_to_source.py:400-414 | rotating a copy pair by pair gives the slice-wise rotation |
| `ForwardRun.RopeHeadsByLoop` | compiler/compare_att1_to_source.py:484-489 | overwriting the head slices one after another rotates each slice on its own |
| `ForwardRun.AccumulateValues` | compiler/compare_att1_to_source.py:508-509 | the accumulation over cached positions is the probability-weighted sum of values, coordinate by coordinate |
| `ForwardRun.AttendHead` | compiler/compare_att1_to_source.py:500-509 | scores, softmax and accumulation of one head over the cached keys and values |
| `ForwardRun.Attend` | compiler/compare_att1_to_source.py:495-509 | the head loop writes each head's context at its place and leaves what no head reaches at zero |
| `ForwardRun.RunLayer` | compiler/compare_att1_to_source.py:464-524 | one layer at one position appends exactly one entry to its cache and returns the block's output |
| `ForwardRun.Run` | compiler/compare_att1_to_source.py:426-530 | the whole imperative pass, for every width and number of heads: it fails exactly when the head counts do not divide or, once there is a token and a layer, a K/V projection has another width or a head has an odd number of elements or none; otherwise it returns the logits of the cacheless recurrence, and every layer's cache holds one entry per token, entry t being the K/V that position t determines |
| `ForwardRun.RunPosition` | compiler/compare_att1_to_source.py:460-528 | one token through all layers keeps the cache invariant and yields the logits of the prefix ending in it |
| `ForwardRun.RunLayers` | compiler/compare_att1_to_source.py:463-524 | the layer loop turns hidden state 0 into the last hidden state and stops at the first layer it cannot run |
| `ForwardRun.Advance` | compiler/compare_att1_to_source.py:463-524 | one step of the layer loop changes one layer's cache and no other |
| `ForwardPass.HiddenPrefix` | compiler/compare_att1_to_source.py:456-530 | causality: the hidden states of a prefix of the prompt are a prefix of the hidden states |
| `ForwardPass.CachePrefix` | compiler/compare_att1_to_source.py:456-492 | running on a prefix leaves a prefix of every cache |
| `ForwardMeaning.GroupAttends` | compiler/compare_att1_to_source.py:495-509 | the n_heads / n_kv_heads query heads of group g all attend over elements g * head_dim up to (g + 1) * head_dim of every cached key and value |
| `ForwardMeaning.EmbeddingMeans` | compiler/compare_att1_to_source.py:461 | coordinate i of the first hidden state is element token * d_model + i of the embedding |
| `ForwardMeaning.HiddenMeans` | compiler/compare_att1_to_source.py:463-524 | every coordinate of every hidden state as nested sums of products: normed projections, rotated pairs, scores over the shared key head, shares, values, output projection and residual, then the gated feed-forward part and its residual |
| `ForwardMeaning.LayerAdds` | compiler/compare_att1_to_source.py:511-524 | over a layer a coordinate changes by exactly the wo image of the attended values plus the w_down image of silu(gate) * up |
| `ForwardMeaning.LogitsMean` | compiler/compare_att1_to_source.py:526-528 | a logit is the output projection of the root-mean-square-normed last hidden state, as a sum |
| `ForwardMeaning.ResidualPath` | compiler/compare_att1_to_source.py:511-528 | when wo and w_down are zero in every layer, the logits are the final norm and output projection of the last token's embedding row |
| `ForwardMeaning.SharesOfOne` | compiler/compare_att1_to_source.py:417-419 | the attention weights of a head over the positions so far are positive and sum to one |
| `ForwardMeaning.ShareRatio` | compiler/compare_att1_to_source.py:417-419 | two attention weights stand to each other as the exponentials of their scores |
| `ForwardMeaning.EqualValues` | compiler/compare_att1_to_source.py:500-509 | when all positions so far hold the same value, a head returns it unchanged |
| `GqaTheorem.ExpansionAccepted` | compiler/convert_llama_to_att1.py:298-315 | the expansion never rejects the projections of a usable model whose heads divide its width |
| `GqaTheorem.ExpandedValid` | compiler/convert_llama_to_att1.py:288-326 | the expanded weights form a model of full key/value width, which runs exactly when the grouped one does |
| `GqaTheorem.ProjectionRepeats` | compiler/convert_llama_to_att1.py:288-326 | head h of a projection by the expanded weight equals its key/value head of the grouped projection |
| `GqaTheorem.GqaExpansionPreservesMeaning` | compiler/convert_llama_to_att1.py:288-326 | for every configuration, weights and prompt, the expanded model with as many K/V heads as query heads runs exactly when the grouped model does, and then returns its logits, with the grouped caches repeated per query head |
| `Quant.TieRules` | compiler/convert_llama_to_att1.py:329-332 | on ties the q4 rounding takes the even integer and the q8 rounding the one further from zero |
| `Quant.ClampIdle` | compiler/convert_llama_to_att1.py:374-377 | rounding a ratio that is at most the level count never leaves the code range, so the clamp does nothing |
| `Quant.ElementBound` | compiler/convert_llama_to_att1.py:374-377 | a code is the unclamped rounding and decodes to within half a scale |
| `Quant.QuantizationBound` | compiler/convert_llama_to_att1.py:349-384 | for every buffer of whole groups and any stored scales: the clamp never fires, a decoded element is within half its scale (largest magnitude over 14 for q4, over 254 for q8) plus what storing the scale lost, and a group of zeros is exact |
| `QuantCodec.QuantizeQ4` | compiler/convert_llama_to_att1.py:349-384 | for every row length and group size: it fails exactly when a group size is zero or an odd one has a group to pair; otherwise byte by byte the buffer holds the code pairs of the groups at their row strides and zero where no group reaches, and the scales come row by row |
| `QuantCodec.WholeGroups` | compiler/convert_llama_to_att1.py:339-405 | for tensors that pass the eligibility test (the group size divides the row length) that buffer is the plain packing of all codes in order, and the scales are those of the consecutive groups |
| `QuantCodec.QuantizeRow` | compiler/convert_llama_to_att1.py:365-381 | the group loop of one row fills exactly that row of the buffer, remainder included, and yields the scales of its groups |
| `QuantCodec.QuantizeOneGroup` | compiler/convert_llama_to_att1.py:366-381 | one group: its scale, then its codes two to a byte |
| `QuantCodec.StorePairs` | compiler/convert_llama_to_att1.py:378-381 | the innermost loop writes the pairs of one group and leaves all other bytes alone; with an odd group size it fails |
| `QuantCodec.QuantizeQ8` | compiler/convert_llama_to_att1.py:414-443 | transpose, one scale and one run of signed bytes per row |
| `QuantCodec.QuantizeRowQ8` | compiler/convert_llama_to_att1.py:423-438 | codes and scale of one row |
| `QuantCodec.GroupPosition` | compiler/convert_llama_to_att1.py:366-376 | the writer's row-and-group start is the flat group index times the group size |
| `QuantCodec.ScalePosition` | compiler/read_att1.py:265-266 | the reader's scale index is the flat element index divided by the group size, and in range |
| `QuantCodec.Unpack4Inverts` | compiler/read_att1.py:255-263 | reading nibbles back returns every code |
| `QuantCodec.Unpack8Inverts` | compiler/read_att1.py:146-155 | reading signed bytes back returns every code |
| `QuantCodec.DequantizeQ4` | compiler/read_att1.py:218-268 | the row and column loops decode element for element; they fail exactly when the group size does not divide the row length, the payload is shorter than its layout, or the number of elements is odd |
| `QuantCodec.DequantizeCellQ4` | compiler/read_att1.py:255-267 | byte, parity and scale index of one element address the flat element |
| `QuantCodec.DequantizeQ8` | compiler/read_att1.py:182-193 | the row loop decodes element for element, and fails exactly when the payload is shorter than its layout |
| `QuantCodec.Q4StorageRoundTrip` | compiler/read_att1.py:218-268 | decoding a written q4 payload gives the writer's codes times the scales as stored |
| `QuantCodec.Q8StorageRoundTrip` | compiler/read_att1.py:158-193 | decoding a written q8 payload gives the writer's codes times the scales as stored |
| `QuantLayout.Q4Stored` | compiler/convert_llama_to_att1.py:387-411 | weight (i, o) of an eligible tensor is the nibble e = o * d_model + i of the payload, low for even e, with its scale as f32 number e / 32 behind the nibbles; the scale is the largest magnitude of its 32 weights over 7 and the code a nearest integer to weight over scale, the even one on ties |
| `QuantLayout.Q8Stored` | compiler/convert_llama_to_att1.py:414-443 | weight (i, o) is byte e in two's complement, with the scale of output o behind the bytes; the scale is the largest magnitude of the output's weights over 127 and the code a nearest integer to weight over scale, the outer one on ties |
| `QuantLayout.Q4Record` | compiler/convert_llama_to_att1.py:387-411 | a q4 tensor keeps its name, has its two dimensions exchanged, dtype 3 and its group size in the flags |
| `QuantLayout.Q8Record` | compiler/convert_llama_to_att1.py:414-443 | a q8 tensor keeps its name, has its two dimensions exchanged, dtype 2 and no flags |
| `QuantLayout.OthersStay` | compiler/convert_llama_to_att1.py:335-346 | f32 output, the embedding, tensors that are not matrices, and for q4 matrices whose first dimension is not a positive multiple of 32 stay as they are |
| `QuantMatmul.DotBound` | compiler/convert_llama_to_att1.py:414-443 | element errors accumulate to at most the input-weighted sum of the element bounds |
| `QuantMatmul.MatmulBound` | compiler/convert_llama_to_att1.py:387-443 | row i of the transposed quantised storage, dotted with the input, differs from (x @ W)[i] by at most the sum of |x_j| times the bound covering element j |
| `QuantMatmul.Q4ProductBound` | compiler/convert_llama_to_att1.py:387-411 | the same from f32 weights through written and re-read q4 bytes |
| `QuantMatmul.Q8ProductBound` | compiler/convert_llama_to_att1.py:414-443 | the same through written and re-read q8 bytes |
| `QuantMatmul.Q8ExactRowBound` | compiler/convert_llama_to_att1.py:423-438 | when f32 stores the scales exactly, the q8 bound of row i is its largest magnitude over 254 for every unit of input |
| `Schedule.LayerTileAssignment` | compiler/convert_llama_to_att1.py:472-486 | the greedy loop returns the greedy list |
| `Schedule.GreedyStep` | compiler/convert_llama_to_att1.py:480-485 | ceiling division of what is left hands tile t exactly floor(L/T) layers, one more if t < L mod T |
| `Schedule.GreedyCovers` | compiler/convert_llama_to_att1.py:478-486 | what has been handed out after k tiles is the first k blocks, in layer order |
| `Schedule.ScheduleIsBalanced` | compiler/convert_llama_to_att1.py:472-486 | all layers are scheduled, blocks are contiguous, in tile order and never grow, tile t gets exactly floor(L/T) layers plus one for t < L mod T, and with fewer layers than tiles the last tiles get none |
| `Att1Writer.MakeShardRecord` | compiler/convert_llama_to_att1.py:489-514 | the 120 record bytes; an index error exactly when the layer has no tile, otherwise a struct error exactly when an integer does not fit |
| `Att1Writer.BuildShardMeta` | compiler/convert_llama_to_att1.py:517-547 | one record per tensor at the running data offset, with the tile looked up from the tensor's name; the first record that fails decides how it fails |
| `Att1Writer.BuildSections` | compiler/convert_llama_to_att1.py:783-789 | descriptors and data from one loop with a running offset |
| `Att1Writer.CheckTensors` | compiler/convert_llama_to_att1.py:738-777 | the consistency loop passes exactly when every tensor matches its plan entry in name, shape, dtype and byte size |
| `Att1Writer.BuildAtt1` | compiler/convert_llama_to_att1.py:729-821 | the file builder as a whole, for any number of tiles: rejected, unpackable, without a tile for a layer, or the assembled file |
| `Att1RoundTrip.DescriptorBytes` | compiler/convert_llama_to_att1.py:446-465 | a written descriptor shows its name, dtype, dimension count, data offset and data size at the reader's positions, the zero shard word at byte 120 and the flags at byte 124 |
| `Att1Writer.DescriptorOffsets` | compiler/convert_llama_to_att1.py:446-465 | field positions inside a descriptor, flags at 124 |
| `Att1Writer.ShardOffsets` | compiler/convert_llama_to_att1.py:489-514 | field positions inside a shard record |
| `Att1Writer.TileOfLayerName` | compiler/convert_llama_to_att1.py:535-544 | a tensor named layers.N.* is looked up at N, because parsing inverts decimal printing |
| `Decimal.ParseInvertsDigits` | compiler/convert_llama_to_att1.py:535-544 | parsing a printed layer number returns it |
| `Decimal.DigitsInjective` | compiler/convert_llama_to_att1.py:1132-1155 | different layer numbers print differently |
| `Att1Reader.ReadAtt1` | compiler/read_att1.py:310-409 | the reader's checks in order, then configuration and descriptors |
| `Att1Reader.ReadTensors` | compiler/read_att1.py:382-407 | the descriptor loop; the first bad record stops it |
| `Att1RoundTrip.SectionsTile` | compiler/convert_llama_to_att1.py:779-821 | header, configuration, descriptors, data and metadata each start where the one before ends and fill the file |
| `Att1RoundTrip.PayloadAt` | compiler/convert_llama_to_att1.py:783-789 | a tensor's payload lies in the data section at its running offset |
| `Att1RoundTrip.NameRoundTrip` | compiler/read_att1.py:385 | stripping the padding returns every plan name |
| `Att1RoundTrip.DescriptorParses` | compiler/read_att1.py:383-407 | a written descriptor and its payload parse back to name, dtype, dimensions, shape and bytes |
| `Att1RoundTrip.HeaderReads` | compiler/read_att1.py:330-355 | the header fields the reader takes are those the writer put |
| `Att1RoundTrip.FileRoundTrip` | compiler/read_att1.py:310-409 | for every configuration and tensor list the builder accepts, with or without metadata, reading the file returns the nine configuration fields and every tensor |
| `Att1RoundTrip.GroupSizeSurvivesIff` | compiler/read_att1.py:197-204 | the reader takes flags from the shard_id word, so a group size survives exactly when it was the default |
| `FileMap.FileHeaderMap` | compiler/convert_llama_to_att1.py:779-821 | magic, version, header size, the offsets and sizes of all sections, and the nine configuration words of a built file at their byte positions |
| `FileMap.TensorMap` | compiler/convert_llama_to_att1.py:446-465 | descriptor i starts at byte 116 + 128 i and shows name, dtype, dimensions, offset and size at literal positions; its payload lies behind the descriptors, after those of the tensors before it |
| `FileMap.BuiltIff` | compiler/convert_llama_to_att1.py:729-821 | without metadata a file is built exactly when there are 3 + 9 n_layers tensors, each agrees with its plan entry, and every number fits its field |
| `ReaderMap.ReaderMeans` | compiler/read_att1.py:310-409 | the reader accepts exactly the files with the magic, a known version with its header size, sections inside the file and descriptors of one to four dimensions inside the data section; it then returns the configuration and every tensor from literal byte positions |
| `ReaderMap.TensorMeans` | compiler/read_att1.py:382-407 | a descriptor is accepted exactly when it has one to four dimensions and its payload ends inside the data section, and gives the name without its padding, dtype, shape and payload |
| `GroupSize.GroupSizeIsLost` | compiler/read_att1.py:404-404 | a file the writer builds whose q4 tensor has group size 64 in its flags and reads back as flags 0, that is with the default 32 |
| `ShardMetadata.HeaderNamesSection` | compiler/convert_llama_to_att1.py:791-808 | header offset and size of the metadata section |
| `ShardMetadata.RecordReads` | compiler/convert_llama_to_att1.py:489-514 | tensor index, tile, offset and dtype read back from a record |
| `ShardMetadata.TileOfPlanned` | compiler/convert_llama_to_att1.py:517-547 | the name lookup finds a tile for a planned tensor exactly when there are tiles or it lies outside the layers, and then it is the tile scheduled for its layer, tile 0 outside the layers |
| `ShardMetadata.ShardMetadataAgrees` | compiler/convert_llama_to_att1.py:783-793 | record i carries the offset of descriptor i and the scheduled tile; the section is 120 bytes per tensor and ends the file |
| `FileMap.ShardMap` | compiler/convert_llama_to_att1.py:489-514 | all thirty words of metadata record i at literal positions: index, scheduled tile, shape, whole-tensor slice, offset and size |
| `ShardMetadata.UnscheduledIff` | compiler/convert_llama_to_att1.py:472-547 | a well-formed tensor list fails for want of a tile exactly when metadata is asked for, there is a layer and there are no tiles |
| `TensorPlan.AcceptedIff` | compiler/convert_llama_to_att1.py:185-214 | configuration validation accepts exactly the configurations whose heads divide up the model |
| `TensorPlan.EntryOfLayer` | compiler/convert_llama_to_att1.py:1132-1155 | nine entries per layer, in order |
| `TensorPlan.BuildRealF32` | compiler/convert_llama_to_att1.py:973-1020 | the conversion loop over the source plan, with its error cases |
| `PlannedTensors.PlansAgree` | compiler/convert_llama_to_att1.py:866-970 | item for item the source plan produces what the name plan (1132-1155) demands, GQA expansion and tied lm_head included |
| `SourceNames.LoadableIffComplete` | compiler/convert_llama_to_att1.py:866-970 | the source plan can be loaded exactly when the source holds every tensor of a LLaMA model under its literal name in its shape, with the embedding in place of a missing lm_head |
| `SourceNames.ConvertedByName` | compiler/convert_llama_to_att1.py:866-1020 | for an accepted configuration: the converted list holds, at the place and under the literal name of each of the nine layer tensors, the embedding, the norm and the head, the codec image of the source tensor of the matching literal name, kept, turned over or spread as due; gate_proj becomes w_gate and up_proj w_up |
| `PlannedTensors.ArrangeSucceeds` | compiler/convert_llama_to_att1.py:1004-1018 | arranging source values yields exactly as many values as the target shape holds |
| `PlannedTensors.ConversionIffLoadable` | compiler/convert_llama_to_att1.py:973-1020 | for an accepted configuration conversion succeeds exactly when every source tensor is present with its planned shape |
| `PlannedTensors.MakeQ4` | compiler/convert_llama_to_att1.py:387-411 | transpose, quantise, and reversed shape |
| `PlannedTensors.QuantizeTensor` | compiler/convert_llama_to_att1.py:1023-1060 | one tensor of the q8 or q4 loop, f32 where it is not eligible |
| `PlannedTensors.QuantizeTensors` | compiler/convert_llama_to_att1.py:1023-1060 | the q8 and q4 loops |
| `PlannedTensors.QuantizedMatches` | compiler/convert_llama_to_att1.py:738-777 | quantised or not, the tensor passes the consistency check of its entry |
| `PlannedTensors.SuffixedNamesFit` | compiler/convert_llama_to_att1.py:446-452 | the nine names of a layer fit the 64-byte field exactly when its number has at most 34 digits |
| `PlannedTensors.PlannedNeverRejected` | compiler/convert_llama_to_att1.py:732-777 | a converted list in any of the three formats is rejected in exactly one case: the last layer's number has more than 34 digits |
| `EndToEnd.ElementIsClose` | compiler/convert_llama_to_att1.py:349-384 | a decoded element of a re-read payload is within its bound of the f32 value |
| `EndToEnd.TensorSurvives` | compiler/read_att1.py:169-268 | one tensor through quantising, writing, reading and dequantising |
| `EndToEnd.ConversionSurvivesTheFile` | compiler/convert_llama_to_att1.py:1063-1092 | converting, quantising, writing, reading and dequantising returns every tensor under its planned name, exactly or within its quantisation bound |
| `HarnessWeights.LoadFile` | compiler/compare_att1_to_source.py:533-545 | the dictionary of arrays made from the tensors of a file, decoded by dtype and shaped, or the first failure |
| `HarnessWeights.LoadSource` | compiler/compare_att1_to_source.py:548-574 | the dictionary made from the source tensors, transposed where the plan says so and given the target shape, or the first failure |
| `FileForward.NamesDistinct` | compiler/convert_llama_to_att1.py:1132-1154 | no two tensors of the plan share a name, so the dictionary keeps all of them |
| `FileForward.SourceLoadsIff` | compiler/compare_att1_to_source.py:548-574 | the harness loads an accepted source model exactly when it has one key/value head per query head, and then finds the arrays of the file |
| `FileForward.SourceLoads` | compiler/compare_att1_to_source.py:548-574 | given the shapes of unexpanded projections instead, it loads every accepted model, and what it loads are the weights of the source model used below |
| `FileForward.FileExpandsSource` | compiler/convert_llama_to_att1.py:288-326 | the model in a built f32 file is the expansion of the source model as stored |
| `FileForward.LoadedIsSource` | compiler/compare_att1_to_source.py:533-574 | the dictionary of arrays made from a source describes the model whose weights are looked up in the source by their literal names |
| `FileForward.FileRunsTheSource` | compiler/compare_att1_to_source.py:426-545 | convert to f32, write, read, take the weights out: for every prompt the forward pass over them runs exactly when the pass over the grouped source weights as stored does, and then returns the same logits |
| `PlacementPlan.ScreenTensors` | compiler/map_placement_to_commands.py:171-251 | the validation loop: which records are placed, warned about and rejected |
| `PlacementPlan.EmitBlock` | compiler/map_placement_to_commands.py:460-481 | loads, validates and barrier of one tile, with ids and fences |
| `PlacementPlan.BuildCommands` | compiler/map_placement_to_commands.py:428-490 | the whole command list, tiles in increasing order, or the errors |
| `PlacementPlan.BuildSummary` | compiler/map_placement_to_commands.py:497-540 | the dictionaries of command types and tiles count the commands of each, and the byte, dtype, capacity and bandwidth counters are sums over commands and tile records |
| `PlacementTheorems.LoadedAndValidatedOnce` | compiler/map_placement_to_commands.py:454-481 | every placed tensor is loaded and validated on its owner tile exactly as often as the report places it |
| `PlacementTheorems.BytesConserved` | compiler/map_placement_to_commands.py:497-540 | the summary's bytes and dtype counts are those of the report |
| `PlacementTheorems.TypesCounted` | compiler/map_placement_to_commands.py:497-540 | the summary's dictionary of command types: p loads, p validates, one barrier per used tile, one counter query, one snapshot, and no other key |
| `PlacementTheorems.PlanGood` | compiler/map_placement_to_commands.py:428-490 | ids count from one, every fence points backwards, each validate waits for its own load and for no other's, each barrier for the validate before it |
| `PlacementLayout.ScreeningMeans` | compiler/map_placement_to_commands.py:171-251 | which records are placed, which are passed over with a warning and which are errors, record by record |
| `PlacementLayout.PlanMeans` | compiler/map_placement_to_commands.py:428-490 | a plan is made exactly when every record is usable, or passed over |
| `PlacementLayout.PlacedCommands` | compiler/map_placement_to_commands.py:454-474 | the exact position of the load and the validation of every placed tensor: on its tile, in order of id and slice start, all loads before all validations, with name, size, id, fence and dependency |
| `PlacementLayout.TileBarriers` | compiler/map_placement_to_commands.py:476-481 | behind the validations of each tile in use a barrier that waits for the last of them |
| `PlacementLayout.TileCountersMean` | compiler/map_placement_to_commands.py:497-540 | the summary counts the tiles of the report whose capacity is FAIL and those whose bandwidth is WARN or FAIL |
| `PlacementLayout.ClosingCommands` | compiler/map_placement_to_commands.py:483-488 | at the end a counter query and a trace on tile 0, both waiting for the last barrier |
| `PlacementTheorems.PlacementPlanIsSound` | compiler/replay_aimu_command_plan.py:91-201 | p tensors on u tiles give 2p + u + 2 commands which the replay tool accepts without warnings, unless it is strict: then the header status "ok" is refused |
| `PlacementTheorems.PlacementRoutes` | compiler/map_commands_to_fabric_routes.py:518-541 | on two or more tiles the plan maps to exactly p + u + 2 routes, on one tile to its barriers |
| `PlacementTheorems.PlacementReport` | compiler/map_commands_to_fabric_routes.py:614-663 | a strict mapper makes a report of a placement plan exactly when there are two tiles or more, and the strict validator finds no error in it |
| `CommandPlan.ValidatePlan` | compiler/replay_aimu_command_plan.py:91-201 | the replay tool's checks in order, with its warnings |
| `CommandPlan.MapperValidatePlan` | compiler/map_commands_to_fabric_routes.py:172-228 | the route mapper's checks in order |
| `CommandPlan.MapperAccepts` | compiler/map_commands_to_fabric_routes.py:203-226 | the command checks pass exactly when every command sits on a tile of the plan |
| `PlanChecks.ReplayTakes` | compiler/replay_aimu_command_plan.py:91-201 | the plans the replay tool takes, as conditions on the plan, and exactly which warnings it gives |
| `PlanChecks.MapperTakes` | compiler/map_commands_to_fabric_routes.py:172-228 | the plans the route mapper takes, and exactly which warnings it gives |
| `RouteBuilding.RouteBuilder.constructor` | compiler/map_commands_to_fabric_routes.py:267-279 | no routes, all counters zero |
| `RouteBuilding.RouteBuilder.Add` | compiler/map_commands_to_fabric_routes.py:286-332 | the next id, one more route, and traffic counters that equal the sums over the routes |
| `RouteBuilding.RouteBuilder.AddControlAck` | compiler/map_commands_to_fabric_routes.py:334-359 | one route to all other tiles, or a warning when there are none |
| `RouteBuilding.RouteBuilder.AddTraceEvent` | compiler/map_commands_to_fabric_routes.py:361-386 | one trace route, or a warning |
| `RouteBuilding.RouteBuilder.AddTileBarrier` | compiler/map_commands_to_fabric_routes.py:388-408 | one route to every tile, each of which starts and completes the barrier |
| `RouteBuilding.RouteBuilder.AddActivationSend` | compiler/map_commands_to_fabric_routes.py:410-429 | one data route |
| `RouteBuilding.RouteBuilder.AddPartialReduce` | compiler/map_commands_to_fabric_routes.py:431-457 | one reduction route, started at its source and completed at its destinations |
| `RouteBuilding.RouteBuilder.TileSummaries` | compiler/map_commands_to_fabric_routes.py:459-475 | the eight incrementally kept counters equal the sums over the routes |
| `RouteBuilding.MapPlanToRoutes` | compiler/map_commands_to_fabric_routes.py:498-607 | the command loop: routes, warnings and the reduction counter, with the builder's counters intact |
| `RouteBuilding.MapPlanToReport` | compiler/map_commands_to_fabric_routes.py:614-663 | check, map and assemble |
| `EmittedRoutes.EmissionMeans` | compiler/map_commands_to_fabric_routes.py:519-607 | the route a command is answered with, kind by kind in literals: VALIDATE_TENSOR and QUERY_COUNTERS a CONTROL_ACK of 64 bytes, TRACE_SNAPSHOT a TRACE_EVENT of 64 bytes with the command id as trace id, TILE_BARRIER a barrier without payload, sends and reduces a data route of the stated size; each with the command's id, fence and tile, its destinations and ordering |
| `EmittedRoutes.PayloadMeans` | compiler/map_commands_to_fabric_routes.py:545-551 | a send carries its own byte count when that is not zero, else the size found by tensor id, then by name, then 1024 |
| `EmittedRoutes.MapEmits` | compiler/map_commands_to_fabric_routes.py:498-607 | every command that has somewhere to send is answered, in order, by the route of the next id, and nothing else is emitted |
| `EmittedRoutes.ReportMeans` | compiler/map_commands_to_fabric_routes.py:614-663 | the header counts the answered commands and sums their bytes and packets |
| `EmittedRoutes.StatusMeans` | compiler/map_commands_to_fabric_routes.py:614-663 | a report is marked as passed exactly when no command repeats an id, has an unknown type, no other tile to go to or no known size; a strict run makes a report exactly when besides a non-strict one does and the plan's status is "ok" |
| `TrafficMeaning.SummaryMeans` | compiler/map_commands_to_fabric_routes.py:459-475 | the record of a tile: packets, bytes and reductions summed over the routes that start at it or list it, and one barrier for every barrier route |
| `RouteValidation.ValidationResult.Warn` | compiler/validate_fabric_routes.py:107-113 | a warning, and in strict mode an error as well |
| `RouteValidation.ValidateHeader` | compiler/validate_fabric_routes.py:139-217 | the findings on the header and the tile count later phases use |
| `RouteValidation.CheckRoute` | compiler/validate_fabric_routes.py:242-417 | the findings on one route, and the route_ok flag as one condition on the route |
| `RouteValidation.ValidateRoutes` | compiler/validate_fabric_routes.py:224-419 | all findings in order, and the routes that stay |
| `RouteValidation.ValidateTiles` | compiler/validate_fabric_routes.py:426-500 | all findings in order, and the tile records that stay |
| `RouteValidation.Recompute` | compiler/validate_fabric_routes.py:527-543 | the dictionaries of recomputed packets are the sums over the routes |
| `RouteValidation.ValidateConsistency` | compiler/validate_fabric_routes.py:507-582 | count mismatch as error, packet mismatches per tile as warnings |
| `RouteValidation.ValidateReport` | compiler/validate_fabric_routes.py:634-689 | the four phases in sequence |
| `ReportRules.ReportIsSoundIff` | compiler/validate_fabric_routes.py:139-582 | for every report, generated or not: the validator finds no error exactly when header, routes and tile records meet the rules spelled out as conditions, and a sound report draws no warning exactly when its packets add up |
| `RouteTheorems.RouteErrorsIff` | compiler/validate_fabric_routes.py:242-417 | a route draws no finding exactly when it stays |
| `RouteTheorems.DroppedCarryNothing` | compiler/validate_fabric_routes.py:527-543 | routes of a generated report that the validator drops carry no packets, so its recomputation misses nothing |
| `RouteTheorems.MapperReportValidates` | compiler/map_commands_to_fabric_routes.py:614-663 | for every plan and mode, a generated report draws no warning, and no error exactly when no emitted send or reduce has a negative size and, for a strict validator, every command of the plan is one the mapper has nothing to warn about |
| `RouteTheorems.ReportPassesIff` | compiler/map_commands_to_fabric_routes.py:614-663 | a report is marked as passed exactly when every command has a new id, a known type, another tile if it needs one and a known size if it sends or reduces; a strict run makes a report exactly when besides a non-strict one does and the plan's status is "ok" |
| `GeneratedReports.NegativeSendIsRefused` | compiler/map_commands_to_fabric_routes.py:498-607 | a two-tile plan with one send of size -1 that the mapper accepts and the validator refuses |
| `RouteReplay.TileReplayCounters.Send` | compiler/replay_fabric_routes.py:232-254 | the source's share of a route |
| `RouteReplay.ReplayRoute` | compiler/replay_fabric_routes.py:213-266 | one route moves the counters of its source and destinations and no others |
| `RouteReplay.TrackReduction` | compiler/replay_fabric_routes.py:268-270 | reduction groups in order of first appearance |
| `RouteReplay.CloseReductions` | compiler/replay_fabric_routes.py:276-293 | complete groups are credited to the sources of their routes |
| `RouteReplay.ReplayRoutes` | compiler/replay_fabric_routes.py:185-312 | the replay loop as a whole: the final counters are sums over the routes, and the ids of the routes that fail are noted |
| `TrafficMeaning.CountersMean` | compiler/replay_fabric_routes.py:213-293 | the ten counters of a tile as sums over the routes that start at it or list it, with the effective packet count, the failing states and the combined reductions spelled out |
| `TrafficMeaning.ReplayMeans` | compiler/replay_fabric_routes.py:197-266 | every route is replayed exactly once, by increasing id, and the ids of the failing ones are noted in that order |
| `ReplayTheorems.ReplayOrderIndependent` | compiler/replay_fabric_routes.py:197-295 | the counters never depend on listing order, and with distinct ids nothing in the result does |
| `ReplayTheorems.Conservation` | compiler/replay_fabric_routes.py:242-246 | every route is sent by exactly one tile, so the tiles together send everything |
| `ReplayTheorems.BytesAgree` | compiler/replay_fabric_routes.py:242-261 | on generated routes replayed bytes, reductions started and failures equal the builder's on every tile |
| `ReplayTheorems.PacketsAgreeIff` | compiler/replay_fabric_routes.py:224-230 | packets agree on every tile exactly when no route has a negative size |
| `ReplayTheorems.BarriersAgreeIff` | compiler/replay_fabric_routes.py:248-266 | barrier counters agree exactly with one tile or no barrier, since the builder (map_commands_to_fabric_routes.py:406-408) credits all tiles |
| `ReplayTheorems.ReductionsAgreeIff` | compiler/replay_fabric_routes.py:287-293 | completed reductions agree exactly when nothing is reduced, or when two tiles start equally many |
| `GeneratedReports.MappedKinds` | compiler/map_commands_to_fabric_routes.py:498-607 | barrier routes, reduction routes and their sources are counted off by the commands of the plan |
| `GeneratedReports.ReportAgainstReplay` | compiler/replay_fabric_routes.py:185-312 | for every accepted plan, the tile summaries of its own report against the counters of replaying it: bytes agree; packets exactly without negative sizes; barriers exactly with one tile or no barrier command; completed reductions exactly without reductions or with two tiles that start equally many |
| `GeneratedReports.BarrierParts` | compiler/replay_fabric_routes.py:248-266 | one barrier on two tiles: report and replay count differently |
| `GeneratedReports.ReductionParts` | compiler/replay_fabric_routes.py:287-293 | one reduction on three tiles: report and replay count differently |
| `Bandwidth.SimulateTiles` | compiler/simulate_fabric_bandwidth.py:223-259 | the four running arrays end up as the per-tile sums |
| `Bandwidth.AccumulateTiles` | compiler/simulate_fabric_bandwidth.py:233-241 | the accumulation loop over the routes |
| `Bandwidth.WireIsConserved` | compiler/simulate_fabric_bandwidth.py:266-304 | outbound wire bytes over tiles sum to the aggregate, which equals replayed payload plus overhead times replayed packets |
| `Bandwidth.StatusMonotone` | compiler/simulate_fabric_bandwidth.py:152-162 | more required bandwidth never earns a better status |
| `TrafficMeaning.StatusMeans` | compiler/simulate_fabric_bandwidth.py:152-162 | the status thresholds in plain numbers: without a target unknown, else by 80 and 100 per cent of it |
| `TrafficMeaning.RouteEstimate` | compiler/simulate_fabric_bandwidth.py:173-220 | packets, overhead, wire bytes, bandwidth, latency and status of one route |
| `TrafficMeaning.TileEstimate` | compiler/simulate_fabric_bandwidth.py:223-263 | bytes in and out of a tile as sums over the routes, and its status by the larger direction |
| `TrafficMeaning.FabricEstimate` | compiler/simulate_fabric_bandwidth.py:266-304 | the aggregate: total payload and wire bytes, required bandwidth, status and utilisation |
| `TrafficMeaning.BottlenecksMean` | compiler/simulate_fabric_bandwidth.py:278-290 | the bottlenecks are the first route and the first tile of the largest load, if any load is positive |
| `Bandwidth.AggregateDominates` | compiler/simulate_fabric_bandwidth.py:173-304 | when no route repeats a destination, no route and no tile is in worse standing than the aggregate |
| `Bandwidth.MapperRoutesAreSensible` | compiler/map_commands_to_fabric_routes.py:498-607 | the routes of any plan never repeat a destination and start on a tile of the plan, and none is negative exactly when no send or reduce with somewhere to go has a negative size |
| `GeneratedReports.ReportAgainstBandwidth` | compiler/simulate_fabric_bandwidth.py:173-310 | for every accepted plan: the tiles' wire bytes sum to the aggregate, which is the payload estimate of the report's header plus overhead per replayed packet; without negative sizes those are the header's packets, and no route and no tile stands worse than the aggregate |
| `Bandwidth.TileDominatedIff` | compiler/simulate_fabric_bandwidth.py:223-304 | a tile is dominated under every target exactly when its wire bytes are at most the aggregate's |
| `Bandwidth.RepeatedDestinationOverloads` | compiler/simulate_fabric_bandwidth.py:233-241 | one route that lists a tile twice already breaks domination |
| `ExecutionPlan.GroupByOwner` | compiler/plan_tensor_execution.py:224-228 | tensors grouped by owner, owners in order of first appearance |
| `ExecutionPlan.Planner.MakeCmd` | compiler/plan_tensor_execution.py:177-212 | one command with the next id |
| `ExecutionPlan.Planner.GenerateLoadPhase` | compiler/plan_tensor_execution.py:226-258 | loads and validates per owner in increasing order, every command under its own new fence and waiting for none |
| `ExecutionPlan.Planner.GenerateBroadcast` | compiler/plan_tensor_execution.py:262-292 | one command on every tile under a shared fence |
| `ExecutionPlan.Planner.GenerateLayerPlan` | compiler/plan_tensor_execution.py:295-577 | eighteen commands, each depending on the fence of the one before |
| `ExecutionPlan.Planner.GenerateLmHeadPlan` | compiler/plan_tensor_execution.py:580-647 | the closing chain of three |
| `ExecutionPlan.Planner.Plan` | compiler/plan_tensor_execution.py:707-755 | the phases in sequence |
| `PlannerInvariant.ChainGood` | compiler/plan_tensor_execution.py:328-577 | a chain keeps: ids are positions, fences are new, dependencies lie behind, and inside a chain the dependency is the command just before |
| `PlannerInvariant.PlannedGood` | compiler/plan_tensor_execution.py:707-755 | the same of every planner plan |
| `PlannerCounts.PlanCounts` | compiler/plan_tensor_execution.py:707-755 | 2n + 3T + 18L + T ceil(L/4) + 3 commands, of which 15L + 3 are EXEC operations |
| `PlanLayout.TensorCommands` | compiler/plan_tensor_execution.py:219-259 | the exact position of the load and the validation of every tensor in a plan |
| `PlanLayout.PositionsFollow` | compiler/plan_tensor_execution.py:224-259 | positions go by owner, then tensor id, then listing; on a tile every load precedes every validation |
| `PlanLayout.EveryPosition` | compiler/plan_tensor_execution.py:219-259 | each of the first 2n commands is the load or the validation of some tensor |
| `PlanLayout.RestIsNoTensor` | compiler/plan_tensor_execution.py:718-755 | no later command loads or validates |
| `PlanLayout.SetupCommands` | compiler/plan_tensor_execution.py:262-292 | then a barrier on every tile and a trace on every tile that waits for its fence |
| `PlanLayout.LayerCommandAt` | compiler/plan_tensor_execution.py:295-577 | operation k of layer l stands behind the layers and traces before it, on the layer's tile, and waits for the fence of the operation before it in the layer |
| `PlanLayout.LayerTraceAt` | compiler/plan_tensor_execution.py:728-738 | after every fourth layer and after the last, a trace on every tile |
| `PlanLayout.ClosingCommands` | compiler/plan_tensor_execution.py:741-755 | at the end the three operations of the head and the counter query on every tile, and nothing behind them |
| `PlanLayout.LayerSpecMeans` | compiler/plan_tensor_execution.py:328-577 | the eighteen operations of a layer in literals: wire name, phase, weight, buffers, routes and reductions of each |
| `PlanLayout.HeadSpecMeans` | compiler/plan_tensor_execution.py:580-647 | the three operations of the head in literals |
| `PlanLayout.LayerTileMeans` | compiler/plan_tensor_execution.py:313-321 | a layer runs on the owner of its attention norm, tile 0 if that has none, and round robin without such a tensor |
| `PlanLayout.HeadTileMeans` | compiler/plan_tensor_execution.py:600-602 | the head runs on the owner of norm.weight, else of output_norm.weight, else on tile 0 |
| `PlannerAcceptance.MappedCounts` | compiler/map_execution_plan_to_commands.py:539-560 | of every planner plan the non-strict mapper accepts it makes 2n + 3T + 18L + T ceil(L/4) + 3 commands, of which it reports exactly 15L + 3 as unsupported |
| `PlannerCounts.LayerExecCount` | compiler/plan_tensor_execution.py:295-577 | nine of the eleven attention operations and six of the seven feed-forward ones are EXEC operations |
| `ExecutionMapper.CheckCommands` | compiler/map_execution_plan_to_commands.py:181-261 | all findings of the command checks in order, with the seen ids and the fence map |
| `ExecutionMapper.CheckCommand` | compiler/map_execution_plan_to_commands.py:181-261 | the findings on one command |
| `ExecutionMapper.MapExecutionPlan` | compiler/map_execution_plan_to_commands.py:476-518 | header checks with the plan's own ids, overrides, command checks, then the mapped list or the first failure; the warnings counted are those of the checks and one per unsupported command |
| `ExecutionMapper.Summarize` | compiler/map_execution_plan_to_commands.py:519-560 | the dictionaries of types and tiles count the mapped commands of each, the warnings are those observed, and the other counters are sums over the commands |
| `ExecutionMapper.MapPlanIff` | compiler/map_execution_plan_to_commands.py:476-564 | mapping succeeds exactly on the plans that pass the checks, and then maps command for command, in order, keeping tile, fence and dependency |
| `MappingMeaning.AcceptedMeans` | compiler/map_execution_plan_to_commands.py:149-261 | the plans the mapper takes, as conditions on header and commands |
| `MappingMeaning.MappedPlanMeans` | compiler/map_execution_plan_to_commands.py:315-470 | command for command, the mapped wire name is the operation's wire name, with advisory and reset commands replaced as stated, and tile, fence, tensor name, dtype and byte counts are those of the operation; names are compared by two independent tables |
| `MappedPlans.TensorsMapped` | compiler/map_execution_plan_to_commands.py:315-470 | every tensor of a planner plan is mapped to a LOAD_TENSOR_TILE and, behind it, a VALIDATE_TENSOR that carry its name and bytes on its owner |
| `MappedPlans.OnlyTensorsMapped` | compiler/map_execution_plan_to_commands.py:315-470 | every mapped LOAD_TENSOR_TILE or VALIDATE_TENSOR is that of a tensor |
| `PlannerAcceptance.TilesIff` | compiler/plan_tensor_execution.py:136-167 | every command of a plan with a tile sits on a tile of the plan exactly when every owner does |
| `PlannerAcceptance.PlannerToMapper` | compiler/map_execution_plan_to_commands.py:149-261 | every planner plan is accepted by the non-strict mapper exactly when there is a tile, both ids are given and every owner is a tile of the plan; the strict mapper never accepts one |
| `PlannerAcceptance.PassesIff` | compiler/plan_tensor_execution.py:757-763 | a plan is marked as passed exactly when placement found no error, the policy is known, every tensor is placed, and a head-wise plan with layers lists partial routes |
| `PlanLayout.StatusMeans` | compiler/plan_tensor_execution.py:757-763 | the status of a plan in either mode, from conditions on tensors, policy and routes |
| `PlannerAcceptance.StatusAndMapper` | compiler/plan_tensor_execution.py:757-763 | a plan that did not fail is accepted by the mapper exactly when there is a tile, both ids are given and no owner is negative |
| `PlannerAcceptance.StatusIsNotAcceptance` | compiler/plan_tensor_execution.py:136-167 | a passed plan whose tensor has owner -1 is refused by the mapper, and a failed plan with an unknown reduction is accepted |
| `PlannerAcceptance.MappedPlanIsUsable` | compiler/replay_aimu_command_plan.py:91-201 | what the mapper makes of any planner plan it accepts passes the replay tool's non-strict check and the route mapper's check |
| `Liveness.RunConsistent` | compiler/map_execution_plan_to_commands.py:238-252 | in every run nothing completes unstarted and nothing starts before a completed command carries its fence |
| `Liveness.NeverStuck` | compiler/map_execution_plan_to_commands.py:238-252 | as long as something is unfinished some step is enabled |
| `Liveness.RunsFinish` | compiler/map_execution_plan_to_commands.py:238-252 | a run has at most two events per command, can be continued until then, and is over exactly when everything has completed |
| `Liveness.AcceptedPlansAreLive` | compiler/map_execution_plan_to_commands.py:238-252 | the same for every plan the mapper accepts, in either mode |
| `Liveness.ListOrderRuns` | compiler/map_execution_plan_to_commands.py:238-252 | list order is a topological order: starting and completing commands in list order is a run |
| `PlannerOrder.ChainOrder` | compiler/plan_tensor_execution.py:328-577 | in every run a chain command starts only after the command just before it has completed |
| `PlannerOrder.LayerCommand` | compiler/plan_tensor_execution.py:295-577 | where the k-th command of layer l stands, and that it is the layer's k-th operation |
| `PlannerOrder.LayersRunInProgramOrder` | compiler/plan_tensor_execution.py:328-577 | in every run the eighteen commands of a layer complete in program order |
| `PlannerOrder.LayersStartUnfenced` | compiler/plan_tensor_execution.py:328-342 | the first command of every layer may start before any load, barrier or other layer |
| `Safetensors.ScanSafetensors` | compiler/scan_safetensors.py:175-261 | the scan loop, its fatal and collected errors, and the neighbour comparison of the sorted list |
| `Safetensors.EndsBefore` | compiler/scan_safetensors.py:251-261 | in a sorted list without overlapping neighbours everything earlier ends before anything later begins |
| `Safetensors.CleanScanIsSound` | compiler/scan_safetensors.py:175-261 | a scan without errors has pairwise disjoint tensors, inside the data region exactly when no begin is negative, and then their sizes sum to at most its length |
| `ScanMeaning.CleanIff` | compiler/scan_safetensors.py:175-261 | a header scans without complaint exactly when every entry has a type, a shape and offsets in order that end inside the data region, and as many bytes as its shape needs where the type is known and the shape is not empty, and all entries lie apart |
| `ScanMeaning.ScanMeans` | compiler/scan_safetensors.py:175-249 | a scan fails exactly when an entry ends behind the data region; otherwise it keeps one record per entry, and reports exactly the justified complaints |
| `ScanMeaning.InfoMeans` | compiler/scan_safetensors.py:175-230 | the record of an entry, with the twelve element widths in a table |
| `Safetensors.NegativeBeginIsClean` | compiler/scan_safetensors.py:205-261 | a header with one tensor at offsets (-4, 0) scans clean although it lies outside the data region |
| `Safetensors.OverlapCheckIsExact` | compiler/scan_safetensors.py:251-261 | for every header, nothing is reported exactly when all pairs are disjoint and no empty tensor begins inside another one, where of two tensors that begin together the one listed first counts as outside |
| `Safetensors.EmptyTensorOrderMatters` | compiler/scan_safetensors.py:251-261 | two headers that differ in the order of an empty and a full tensor, one reported and one clean |
| `Bf16.RoundsToNearestGrid` | compiler/validate_m174_activation_precision.py:62-67 | the result is the nearest multiple of 2^16, the even one on ties, and at most the first point of the next binade |
| `Bf16.RoundKeepsSign` | compiler/validate_m174_activation_precision.py:62-67 | rounding acts on the magnitude and keeps the sign |
| `Bf16.OverflowsIff` | compiler/validate_m174_activation_precision.py:62-67 | exactly the magnitudes from 0x7F7F8000 on round to infinity |
| `Bf16.RoundInvertsWidening` | compiler/load_safetensors.py:83-102 | rounding a widened bf16 value returns it |
| `Bf16.RoundIdempotent` | compiler/validate_m174_activation_precision.py:62-67 | rounding twice is rounding once |
| `Bf16.CoerceBf16` | compiler/load_safetensors.py:83-102 | one pattern per two bytes, its high half the little-endian value, its low half zero |
| `Bf16.RoundingIsMonotone` | compiler/validate_m174_activation_precision.py:62-67 | a larger sample never rounds to a smaller value |
| `Bf16.RoundingIsNearest` | compiler/validate_m174_activation_precision.py:62-67 | round to nearest in value (section 4.3.1 of IEEE 754-2019): same sign, within 2^-8 of the magnitude, and no finite normal bf16 number is nearer |
| `Bf16.NumericStudy` | compiler/validate_m174_activation_precision.py:89-107 | the error list, maximum, mean, root mean square and largest relative error, errors and denominators taken from the double samples |
| `Bf16.StudyIsBounded` | compiler/validate_m174_activation_precision.py:89-107 | over every non-empty list of samples the mean is at most the root mean square and that at most the maximum; if the samples pack into f32 within a relative delta, no relative error exceeds (1 + delta) / 256 + delta |

## Left out

- ForwardRun.Run: sums, products and scales are exact reals; IEEE rounding of the matrix products, softmax and norms is not modelled, and neither is a model of width zero.
- QuantCodec.QuantizeQ4: the check for non-finite values, which reals do not have, is not modelled; a value list shorter than rows times columns is not either.
- QuantCodec.QuantizeQ8: the same; and the rounding of a double scale to f32 is whatever the arbitrary codec does.
- Att1Reader.ReadAtt1: version 2 files are accepted as the code does, but no version 2 writer is modelled; names that are not ASCII decode to a replacement value.
- Att1Writer.BuildAtt1: when several things are wrong at once, a name that is not ASCII or too long is reported before an integer that does not fit, whichever comes first in the list.
- Att1Writer.TileOfLayerName: `int()` also accepts signs, blanks and underscores; only digit strings are modelled, which is all the name plan prints.
- PlannedTensors.ConversionIffLoadable: a source is a map from names to shape and values; dtype checks and byte decoding of the loader are not part of it.
- PlacementPlan.BuildCommands: source and destination descriptors and the notes text of commands are left out; records that are not JSON objects or carry fields of another type are not modelled.
- RouteBuilding.RouteBuilder.Add: the loop over destinations runs once for packets and once for bytes instead of once for both.
- RouteBuilding.MapPlanToReport: file names, timestamps and the text of warnings are left out; the report keeps whether there were warnings.
- RouteValidation.ValidateReport: missing keys and values of another JSON type are not modelled, since reports are typed; each modelled rule keeps its branch and order.
- RouteReplay.ReplayRoutes: the fallback for route ids that cannot be compared is left out; the result keeps the ids of the routes that fail instead of the text of notes.
- Bandwidth.SimulateTiles: recommendations and printed tables are left out.
- ExecutionPlan.Planner.Plan: buffers, required routes and reductions, and the notes of a command are reduced to what the mapper and the fences depend on.
- ExecutionMapper.MapExecutionPlan: header fields of another JSON type and descriptors and notes of mapped commands are left out.
- Bf16.NumericStudy: the route and traffic part of the study is left out; the square root is an arbitrary function, of which the bound needs only that it returns the root.
- Bf16.RoundingIsNearest: subnormal samples and results are given no real value; the bit-level lemmas cover them.
- Safetensors.ScanSafetensors: reading the header bytes, the metadata entry and entries of another JSON type are left out.
- Reading and writing files, argument parsing, text and JSON output, exit codes.
- HarnessWeights.LoadSource: reading the bytes of the source tensors, and negative shapes, which no accepted configuration has.
- f16 widening, the tokenizer scan, the static weight comparison, the C runtime with its simulators, and the fixture generators.
- The shard planning report and the placement advisor, which are text and heuristics over the same schedule.
