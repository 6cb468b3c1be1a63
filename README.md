# DQN: a dueling Q-network agent with prioritised replay

This project models the core of the DQN repository in Dafny. That core has three layers:

- **Neural-network library.** Four layer kinds: a 2-D convolution, 2-D max pooling, flatten and a dense layer. They sit behind one layer interface that records each layer's input on a tape during the forward pass. A model base builds the layers, runs the backward pass and hands out gradients and trainable variables.
- **Dueling network.** `ModelDueling` has fourteen layers in four parts. Two convolutional branches read the state and the candidate actions. A value head and an advantage head follow. The output is value plus advantage.
- **Agent `Q`.** It keeps a replay buffer of transitions, with one priority per transition. It picks actions with an epsilon-greedy rule over the local network. Every few rounds it trains, and at a slower cadence it copies the local network's variables onto the target network.

Tensors are values: a shape and the row-major elements, which is xtensor's layout. Elements are integers, and the reasons are listed under "Left out". The element loops of the convolution and of max pooling run over `array4<int>`. Each loop is proved against a function that gives every output cell.

The layers are classes whose fields `build` sets. They are reached through the datatype `Layer.AnyLayer`, and a layer's identity is its address. The tape and the gradient map are Dafny maps keyed by that address. A `std::map` iterates its keys in address order, so `ModelBase.Ordered` models that order. Address order is not layer order, and the model proves where `get_trainable_vars` and `get_trainable_vars_fixed` agree and where they differ.

Some xtensor expressions would throw on mismatched shapes. The model gives `None` for those: a layer's `Call` and `BackwardStep`, a network pass, and the branch operations of `BranchTensors`.

`Q` and its private implementation class `QPrivate` are one class here. Randomness is a nondeterministic choice within the range the source draws from: `random_float`, `random_number` and the priority-weighted draw of `get_batch`.

Where the headers and the sources disagree, the model follows the `.cpp` files:

- `Layer.h` and the layer headers declare `backward(tape, gradient, deltas)`. Every layer `.cpp` defines `backward(outputs, deltas, tape, gradient_map)`, except max pooling, which has no `outputs`.
- `Q.h` declares a `QParameters` struct. `Q.cpp` reads its constants as `Q::` statics. The model uses the struct's default values.
- `LayerMaxPooling2D.h` keeps a `pool_size` vector. The `.cpp` uses `pool_height` and `pool_width`.
- `ModelBase.h` declares `get_gradient(tape, deltas)`. `ModelDueling` defines a four-argument `get_gradient`.

## Model

| member | source | states |
|---|---|---|
| ConvoluteFunction.Convolute | src/neural_network/utils/ConvoluteFunction.h:10-34 | the output has the requested shape, and every cell (b, i, k, f) is the window sum of the input at (b, i.., k..) times filter f, over the filter's height, width and channels |
| ConvoluteFunction.WindowInside | src/neural_network/utils/ConvoluteFunction.h:21-30 | when the convolution fits, every element a window reads lies inside the input and inside the filters |
| LayerTypes.SizeSub | src/neural_network/layers/LayerConv2D.cpp:30-31 | `size_t` subtraction: exact when no underflow, wraps to 2^64 - (b - a) below zero |
| LayerTypes.SizeAdd | src/dqn/ModelDueling.cpp:65 | `size_t` addition is exact below 2^64 |
| LayerTypes.Fill | src/neural_network/utils/ActivationFunctions.h:18 | a tensor of the given shape with every element equal to the given value (the derivative of the identity) |
| LayerTypes.ScaleByDerivative | src/neural_network/layers/LayerDense.cpp:29 | `deltas *= derive(outputs)` with derivative 1: deltas unchanged when the outputs broadcast into them; else the scalar seed stretched to the outputs' shape |
| LayerTypes.RandomTensor | src/neural_network/layers/LayerDense.cpp:11-16 | `xt::random::rand(shape)` gives a valid tensor of exactly the requested shape |
| LayerTypes.NewAddress | src/dqn/ModelDueling.cpp:17-22 | a newly allocated layer's address differs from every address in use |
| LayerConv2D.Pad | src/neural_network/layers/LayerConv2D.cpp:51 | zero padding grows every axis by both pad widths of that axis |
| LayerConv2D.SwapAxes | src/neural_network/layers/LayerConv2D.cpp:65-66 | `swapaxes(t, 0, 3)` exchanges the batch and channel extents |
| LayerConv2D.AddBiases | src/neural_network/layers/LayerConv2D.cpp:51 | adding the biases keeps the shape |
| LayerConv2D.ChannelSums | src/neural_network/layers/LayerConv2D.cpp:79 | summing the deltas over batch, height and width leaves one value per channel |
| LayerConv2D.LayerConv2D.constructor | src/neural_network/layers/LayerConv2D.cpp:9-16 | filter count, kernel size and padding are stored, the biases exist, nothing is built yet |
| LayerConv2D.LayerConv2D.Build | src/neural_network/layers/LayerConv2D.cpp:18-45 | filters of shape [filters, kh, kw, channels], four pad pairs appended, the output shape recorded and handed on, biases kept |
| LayerConv2D.LayerConv2D.OutShapeArithmetic | src/neural_network/layers/LayerConv2D.cpp:25-44 | Valid padding shrinks height and width by kernel - 1, wrapping below zero when the kernel is taller; Same keeps them; batch kept and channels become the filter count |
| LayerConv2D.LayerConv2D.Forward | src/neural_network/layers/LayerConv2D.cpp:47-53 | equals the convolution of the (Same: padded) input plus biases, shaped as `outputs_shape` with the input's batch size |
| LayerConv2D.LayerConv2D.Backward | src/neural_network/layers/LayerConv2D.cpp:55-87 | outputs become the recorded input; new deltas have its shape; exactly this layer's two gradient keys are added; existing entries are kept (`insert`); the new weight gradient is shaped like the filters and the bias gradient has one entry per filter |
| LayerDense.LayerDense.constructor | src/neural_network/layers/LayerDense.cpp:7-12 | the output count is stored and the biases exist; no weights yet |
| LayerDense.LayerDense.Build | src/neural_network/layers/LayerDense.cpp:14-18 | weights of shape [outputs, input features]; the feature axis handed on becomes the output count |
| LayerDense.LayerDense.Forward | src/neural_network/layers/LayerDense.cpp:20-24 | output (b, o) is row o of the weights times input row b plus bias o, of shape [batch, outputs] |
| LayerDense.LayerDense.Backward | src/neural_network/layers/LayerDense.cpp:26-37 | outputs become the recorded input; new deltas have its shape; exactly this layer's two keys are added; existing entries are kept; the weight gradient has the weights' shape and the bias gradient one entry per output |
| LayerDense.LayerDense.ForwardFits | src/neural_network/layers/LayerDense.cpp:14-22 | a layer built for a width accepts every matrix of that width and yields the built output shape |
| LayerFlatten.LayerFlatten.constructor | src/neural_network/layers/LayerFlatten.h:11 | `outputs_number` starts at 0 |
| LayerFlatten.LayerFlatten.Build | src/neural_network/layers/LayerFlatten.cpp:5-11 | `outputs_number` becomes the product of the whole input shape (batch included); the shape handed on is [batch, that product] |
| LayerFlatten.LayerFlatten.Forward | src/neural_network/layers/LayerFlatten.cpp:13-16 | a reshape to [batch, outputs_number] that keeps the elements |
| LayerFlatten.LayerFlatten.Backward | src/neural_network/layers/LayerFlatten.cpp:18-23 | deltas reshaped to the recorded input's shape with their elements kept, outputs become the recorded input, no gradient |
| LayerFlatten.LayerFlatten.ForwardBackwardRoundTrip | src/neural_network/layers/LayerFlatten.cpp:13-23 | backward undoes forward: forward's result fed back as deltas comes back as the recorded input |
| LayerFlatten.LayerFlatten.ForwardFits | src/neural_network/layers/LayerFlatten.cpp:5-16 | built for a batch of one, the layer accepts any batch whose other axes match and keeps that batch |
| LayerMaxPooling2D.PoolExtentIsCeiling | src/neural_network/layers/LayerMaxPooling2D.cpp:13-14 | `(d - 1) / p + 1` is the fewest windows of height p that cover d |
| LayerMaxPooling2D.RectMax | src/neural_network/layers/LayerMaxPooling2D.cpp:32 | the maximum over a rectangle bounds every element of it and is attained in it |
| LayerMaxPooling2D.WindowMaxIsMax | src/neural_network/layers/LayerMaxPooling2D.cpp:31-32 | `amax` of a pool window (clipped at the edges) bounds every window element and equals one of them |
| LayerMaxPooling2D.BackwardSpec | src/neural_network/layers/LayerMaxPooling2D.cpp:38-56 | the deltas of backward have the recorded input's shape |
| LayerMaxPooling2D.RouteWindow | src/neural_network/layers/LayerMaxPooling2D.cpp:47-53 | one window of backward turns the entries of that window into their final values and leaves all others |
| LayerMaxPooling2D.LayerMaxPooling2D.constructor | src/neural_network/layers/LayerMaxPooling2D.cpp:6-9 | pool height and width are stored, nothing is built |
| LayerMaxPooling2D.LayerMaxPooling2D.Build | src/neural_network/layers/LayerMaxPooling2D.cpp:11-16 | height and width become `(d - 1) / p + 1`, batch and channels kept, the shape stored as `outputs_shape` and handed on |
| LayerMaxPooling2D.LayerMaxPooling2D.ForwardSpec | src/neural_network/layers/LayerMaxPooling2D.cpp:18-22 | the output has `outputs_shape` with the input's batch size |
| LayerMaxPooling2D.LayerMaxPooling2D.Forward | src/neural_network/layers/LayerMaxPooling2D.cpp:18-36 | the i/k loops produce exactly the window-maximum tensor |
| LayerMaxPooling2D.LayerMaxPooling2D.ForwardIsWindowMaximum | src/neural_network/layers/LayerMaxPooling2D.cpp:23-32 | every output cell is at least every element of its pool window and equal to one of them |
| LayerMaxPooling2D.LayerMaxPooling2D.Backward | src/neural_network/layers/LayerMaxPooling2D.cpp:38-57 | the i/k loops on a copy of the recorded input produce exactly the routed deltas, shaped like that input |
| LayerMaxPooling2D.LayerMaxPooling2D.BackwardRoutesToMaxima | src/neural_network/layers/LayerMaxPooling2D.cpp:48-53 | inside a window an entry below the maximum gets 0, and an entry equal to a positive maximum gets the window's delta |
| LayerMaxPooling2D.LayerMaxPooling2D.BackwardKeepsUnvisited | src/neural_network/layers/LayerMaxPooling2D.cpp:41-56 | entries outside every visited window keep the recorded input |
| Layer.AnyLayer.BackwardStep | src/neural_network/layers/Layer.h:32-41 | a step succeeds exactly when its preconditions hold; it adds exactly the layer's gradient keys, keeps existing entries, shapes the deltas like the recorded input and sets outputs to it; for pooling this is the corrected step (see Findings) |
| Layer.AnyLayer.BackwardStepAsWritten | src/neural_network/layers/LayerMaxPooling2D.cpp:38-57 | as written: succeeds under the same condition with the same deltas and gradients, but a pooling layer leaves `outputs` as the layer above left it |
| Layer.Build | src/neural_network/layers/Layer.h:32 | dispatching `build` yields the kind's output shape and records one more build |
| Layer.Forward | src/neural_network/layers/Layer.h:41 | dispatching `forward` yields the kind's forward result or `None` |
| Layer.Record | src/neural_network/layers/Layer.cpp:5-6 | `tape->insert`: no tape stays none; the layer's key is added, an earlier entry for it is kept, no other entry changes |
| Layer.ForwardWithTape | src/neural_network/layers/Layer.cpp:3-8 | the input before the transform is offered to the tape, then the layer's forward runs |
| Layer.Backward | src/neural_network/layers/Layer.h:33 | dispatching `backward` is the kind's backward step |
| Layer.AppendTrainableVars | src/neural_network/layers/LayerConv2D.cpp:89-93 | appends a weights reference then a biases reference of this layer (nothing for untrainable layers) and keeps the earlier references |
| Layer.InsertTrainableVars | src/neural_network/layers/LayerConv2D.cpp:95-99 | adds exactly the layer's two keys, each pointing at its own variable, and keeps entries already present |
| Layer.SetVar | src/dqn/Q.cpp:334 | assignment through a variable reference sets that variable and leaves the other one and the layer's layout (build history, a convolution's pads and output shape, the pooling output shape, the dense output count) alone |
| ModelBase.InputShapes | src/neural_network/model/ModelBase.cpp:10-14 | the first layer receives the input shape and each next one the shape its predecessor hands on |
| ModelBase.BuildLayers | src/neural_network/model/ModelBase.cpp:10-14 | every layer is built exactly once, with its threaded input shape; the result is the final shape |
| ModelBase.BackwardSeq | src/neural_network/model/ModelBase.cpp:27-31 | a completed reverse pass adds exactly the gradient keys of its layers and keeps every existing entry |
| ModelBase.BackwardSeqSplit | src/neural_network/model/ModelBase.cpp:27-31 | backward over `a + b` runs all of `b`, then all of `a` |
| ModelBase.BackwardSeqEndsOnFirstInput | src/neural_network/model/ModelBase.cpp:27-31 | a completed reverse pass leaves the first layer's recorded input in `outputs` |
| ModelBase.BackwardLayers | src/neural_network/model/ModelBase.cpp:27-31 | the reverse iterator loop computes the reverse pass |
| ModelBase.KeyOrder | src/neural_network/utils/GradientMapFwd.h:12 | the order of gradient keys is a strict total order |
| ModelBase.Ordered | src/neural_network/utils/GradientMapFwd.h:12 | the keys of a map, strictly increasing, each key once |
| ModelBase.ValuesInKeyOrder | src/neural_network/model/ModelBase.cpp:22-23 | walking the map from `begin()` to `end()` lists its values in key order |
| ModelBase.GradientOf | src/neural_network/model/ModelBase.cpp:16-25 | fails exactly when backward fails; otherwise one gradient per key of the layers, the k-th under the k-th key |
| ModelBase.VarKeysCoverParams | src/neural_network/model/ModelBase.cpp:44-50 | the layer-order list holds exactly the layers' gradient keys, twice as many as trainable layers when addresses are distinct |
| ModelBase.FixedOrderIsKeyOrderWhenAscending | src/neural_network/model/ModelBase.cpp:33-50 | when trainable layers' addresses increase along the vector, `get_trainable_vars_fixed` and `get_trainable_vars` list the same keys in the same order |
| ModelBase.OrdersDifferWhenDescending | src/neural_network/model/ModelBase.cpp:33-50 | with two trainable layers at descending addresses the two lists start with different layers |
| ModelBase.FixedRefs | src/neural_network/model/ModelBase.cpp:44-50 | the k-th reference has the k-th layer-order key and points into a trainable layer of the vector |
| ModelBase.VarValuesAt | src/neural_network/model/ModelBase.cpp:44-50 | the k-th variable value is what the k-th reference points at |
| ModelBase.FixedRefsDistinct | src/neural_network/model/ModelBase.cpp:44-50 | layers with distinct addresses hand out pairwise distinct references |
| ModelBase.FixedRefsAlike | src/neural_network/model/ModelBase.cpp:44-50 | vectors with trainable layers at the same positions hand out as many references, of the same kinds |
| ModelBase.CollectVars | src/neural_network/model/ModelBase.cpp:35-37 | the map holds exactly the layers' gradient keys, each reference under its own key and into the vector |
| ModelBase.TrainableVarsOf | src/neural_network/model/ModelBase.cpp:33-42 | one reference per gradient key, the k-th with the k-th key in key order |
| ModelBase.ModelBase.constructor | src/neural_network/model/ModelBase.h:20 | a new model has no layers |
| ModelBase.ModelBase.InsertIntoLayers | src/neural_network/model/ModelBase.h:22-29 | the arguments are appended in order, earlier layers keep their positions, the result is the first new position |
| ModelBase.ModelBase.Build | src/neural_network/model/ModelBase.cpp:10-14 | every layer is built exactly once with its threaded shape |
| ModelBase.ModelBase.Backward | src/neural_network/model/ModelBase.cpp:27-31 | the layers in exact reverse order |
| ModelBase.ModelBase.GetGradient | src/neural_network/model/ModelBase.cpp:16-25 | seeded with deltas 1 and an empty map, fails exactly when backward fails, else one gradient per key, in key order |
| ModelBase.ModelBase.GetTrainableVars | src/neural_network/model/ModelBase.cpp:33-42 | one reference per gradient key, listed in key order, each into the layers |
| ModelBase.ModelBase.GetTrainableVarsFixed | src/neural_network/model/ModelBase.cpp:44-50 | the references layer by layer, weights before biases |
| BranchTensors.BroadcastDim | src/dqn/ModelDueling.cpp:95 | the broadcast length is one of the two lengths, and a length that differs from it is 1 |
| BranchTensors.Broadcast | src/dqn/ModelDueling.cpp:95 | succeeds exactly when the shapes broadcast, with the broadcast shape |
| BranchTensors.BroadcastRow | src/dqn/ModelDueling.cpp:95 | a stretched single row reads that row at every batch index |
| BranchTensors.AddBroadcast | src/dqn/ModelDueling.cpp:102 | `a + b` succeeds exactly when the shapes broadcast, with the broadcast shape |
| BranchTensors.AddBroadcastCommutes | src/dqn/ModelDueling.cpp:102 | the broadcast sum does not depend on operand order |
| BranchTensors.ValuePlusAdvantage | src/dqn/ModelDueling.cpp:101-102 | a [1, 1] value plus an [n, 1] advantage gives, per candidate, its advantage plus the value |
| BranchTensors.Concat | src/dqn/ModelDueling.cpp:95 | succeeds exactly when rows agree; the widths add |
| BranchTensors.ConcatAt | src/dqn/ModelDueling.cpp:95 | a cell of the concatenation comes from the first operand before its width and from the second after |
| BranchTensors.Suffix | src/dqn/ModelDueling.cpp:126 | the features from k on, shifted to the front; none past the end |
| BranchTensors.SuffixOfConcat | src/dqn/ModelDueling.cpp:122-126 | cutting a concatenation at the first operand's width gives back the second |
| BranchTensors.ConcatActions | src/dqn/ModelDueling.cpp:95 | succeeds exactly when the state broadcasts onto the actions with the actions' rows; width is the sum |
| BranchTensors.ConcatActionsRow | src/dqn/ModelDueling.cpp:94-95 | with one state, candidate n holds the state's features, then its own |
| BranchTensors.SuffixOfConcatActions | src/dqn/ModelDueling.cpp:122-126 | cutting the joined actions at the state width gives back the actions |
| BranchTensors.MergeAsWritten | src/dqn/ModelDueling.cpp:122-125 | the fold as written succeeds exactly when both deltas are matrices and the state's width broadcasts with the width of the actions' first half (no condition on the batches); the result is a matrix with the state's batch and the broadcast width |
| BranchTensors.MergeAsWrittenAt | src/dqn/ModelDueling.cpp:125 | as written, a cell is the state delta times the candidate count plus the column sum of the actions' deltas |
| BranchTensors.Merge | src/dqn/ModelDueling.cpp:118-125 | the corrected fold succeeds under exactly the same condition, with the same shape: the state's batch and the broadcast width |
| BranchTensors.MergeAt | src/dqn/ModelDueling.cpp:118-125 | corrected, a cell is the state delta plus the column sum of the actions' deltas |
| BranchTensors.MergeAgreesForOneCandidate | src/dqn/ModelDueling.cpp:125 | with one candidate the written and corrected folds agree |
| BranchTensors.MergeAsWrittenCountsStateTwice | src/dqn/ModelDueling.cpp:125 | with two candidates the written fold exceeds the corrected one by the state delta |
| BranchTensors.MergeIsChainRule | src/dqn/ModelDueling.cpp:117-126 | the corrected fold and the suffix are the chain rule through the concatenation: `<sd, s> + <d, concat(s, a)> == <Merge(sd, d), s> + <Suffix(d, W), a>` |
| ModelDueling.PartsTable | src/dqn/ModelDueling.cpp:15-53 | the four parts are contiguous, in order, cover the fourteen layers, and each reversed range holds its part backwards |
| ModelDueling.VisitOrderIsReverse | src/dqn/ModelDueling.cpp:113-133 | the part-by-part visit of `get_gradient` is the exact reverse of the layer vector |
| ModelDueling.TrainablePositions | src/dqn/ModelDueling.cpp:15-48 | the trainable layers are exactly positions 0, 2, 5, 7 and 10 to 13 |
| ModelDueling.NewConvPool | src/dqn/ModelDueling.cpp:18-19 | a new 3x3 valid convolution with the requested filter count and a new 2x2 pooling layer after it, both valid, with distinct addresses not in use |
| ModelDueling.NewConvBranch | src/dqn/ModelDueling.cpp:18-22 | a new conv branch (3x3 conv 10, pool 2x2, 3x3 conv 20, pool 2x2, flatten) with new, distinct, unused addresses |
| ModelDueling.NewHead | src/dqn/ModelDueling.cpp:38-39 | a new head (dense of the given width, dense of 1) with new, distinct, unused addresses |
| ModelDueling.Widen | src/dqn/ModelDueling.cpp:65 | only the actions' feature axis changes, growing by the state's features when no wrap occurs |
| ModelDueling.ConvBranchChain | src/dqn/ModelDueling.cpp:18-22 | a conv branch accepts any four-axis shape and ends in a matrix |
| ModelDueling.HeadChain | src/dqn/ModelDueling.cpp:38-39 | a head accepts any shape with a feature axis |
| ModelDueling.ArchitectureBuilds | src/dqn/ModelDueling.cpp:56-71 | the fourteen layers can be built for any four-axis input shape |
| ModelDueling.ConvBranchShapes | src/dqn/ModelDueling.cpp:18-22 | the shapes a conv branch threads from a four-axis shape: 3x3 Valid convolutions shrink height and width by 2 on `size_t`, 2x2 pooling gives `(d - 1) / 2 + 1`, and flatten ends in `[batch, Features(s)]` |
| ModelDueling.ConvBranchFinal | src/dqn/ModelDueling.cpp:18-22 | a conv branch ends in `[batch, Features(s)]` |
| ModelDueling.HeadShapes | src/dqn/ModelDueling.cpp:38-39 | a head of width w threads `[b, f]`, `[b, w]` and ends in `[b, 1]` |
| ModelDueling.PartFits | src/dqn/ModelDueling.cpp:56-71 | on a field that fits, every layer of a part fits the shape its part hands it |
| ModelDueling.ConfigsAgree | src/dqn/ModelDueling.cpp:15-48 | two networks of the architecture hold layers of the same kind and configuration at every position |
| ModelDueling.PartShapesAgree | src/dqn/ModelDueling.cpp:56-71 | two networks of the architecture thread the same shapes through every part |
| ModelDueling.BuildInputsAgree | src/dqn/ModelDueling.cpp:56-71 | two networks of the architecture build every position with the same shape |
| ModelDueling.PartAddrsDisjoint | src/dqn/ModelDueling.cpp:15-48 | the four parts of a network with distinct addresses hold disjoint sets of layers |
| ModelDueling.BuildPart | src/dqn/ModelDueling.cpp:68-69 | building one part builds each of its layers once with its threaded shape and leaves the other parts alone |
| ModelDueling.BuildGreatPart | src/dqn/ModelDueling.cpp:60-70 | one outer-loop pass widens the actions when entering the flat part, then builds state and actions parts |
| ModelDueling.BuildParts | src/dqn/ModelDueling.cpp:56-71 | every layer is built exactly once, with the shape its part hands it |
| ModelDueling.ForwardSeqRecords | src/dqn/ModelDueling.cpp:73-77 | a completed part offers the tape an input for each of its layers and keeps every earlier entry; no tape stays none |
| ModelDueling.ForwardSeqIgnoresTape | src/dqn/ModelDueling.cpp:73-77 | with or without a tape a part computes the same tensor and fails on the same inputs |
| ModelDueling.CallPartRecords | src/dqn/ModelDueling.cpp:73-77 | one part records its layers' inputs and keeps the tape's entries |
| ModelDueling.GreatPartCallRecords | src/dqn/ModelDueling.cpp:97-99 | a great part records the inputs of both its parts' layers |
| ModelDueling.DuelingFlowRecords | src/dqn/ModelDueling.cpp:89-100 | the parts of `call_with_tape` record an input for every layer and keep the tape's entries |
| ModelDueling.DuelingCallRecordsEveryLayer | src/dqn/ModelDueling.cpp:87-103 | after a call with a tape, the tape's keys are the old keys plus all fourteen layers, old entries kept |
| ModelDueling.CallPartIgnoresTape | src/dqn/ModelDueling.cpp:73-77 | two entries with the same tensors leave a part with the same tensors, tapes aside |
| ModelDueling.DuelingCallIgnoresTape | src/dqn/ModelDueling.cpp:87-103 | `call(inputs)` and `call(inputs, tape)` succeed together and agree |
| ModelDueling.CallKeepsBatch | src/dqn/ModelDueling.cpp:99 | every layer keeps the batch axis of its input |
| ModelDueling.ForwardSeqKeepsBatch | src/dqn/ModelDueling.cpp:73-77 | so does a run of layers |
| ModelDueling.HeadGivesColumn | src/dqn/ModelDueling.cpp:38-46 | a head ends in one column per batch row |
| ModelDueling.CallPartShape | src/dqn/ModelDueling.cpp:97-99 | a part keeps its branch's batch, leaves the other branch alone, and a head part gives one column |
| ModelDueling.DuelingCallShape | src/dqn/ModelDueling.cpp:87-103 | whenever a call on one state and n candidates succeeds, it answers with an [n, 1] matrix of n values; that a built network's call succeeds is ModelDueling.BuiltNetworkAnswers |
| ModelDueling.BuiltNetworkAnswers | src/dqn/ModelDueling.cpp:87-103 | a network built for a field that fits answers every state of that field with n > 0 candidates of the same field, with or without a tape: the call does not throw and yields an [n, 1] matrix |
| ModelDueling.FlowAnswers | src/dqn/ModelDueling.cpp:89-100 | the outer loop's parts and the join leave one value for the state and one per candidate |
| ModelDueling.SumAnswers | src/dqn/ModelDueling.cpp:101-102 | `value + advantage` on those rows succeeds with an [n, 1] matrix and keeps the tape the parts left |
| ModelDueling.ConvGreatAnswers | src/dqn/ModelDueling.cpp:97-99 | the convolutional great part leaves one row of features for the state and one per candidate |
| ModelDueling.FlatGreatAnswers | src/dqn/ModelDueling.cpp:97-99 | the flat great part turns those rows, joined, into one value for the state and one per candidate |
| ModelDueling.ConvStateAnswers | src/dqn/ModelDueling.cpp:97-99 | the state's conv part accepts a state of the field and leaves `[1, Features(s)]`, the actions untouched |
| ModelDueling.ConvActionsAnswers | src/dqn/ModelDueling.cpp:97-99 | the actions' conv part accepts n candidates of the field and leaves `[n, Features(s)]`, the state untouched |
| ModelDueling.JoinAnswers | src/dqn/ModelDueling.cpp:94-95 | joining one state row of w features to n candidate rows of w gives rows of 2w and keeps the tape |
| ModelDueling.ValueAnswers | src/dqn/ModelDueling.cpp:97-99 | the value head turns the state row into `[1, 1]` |
| ModelDueling.AdvantageAnswers | src/dqn/ModelDueling.cpp:97-99 | the advantage head turns n joined rows into `[n, 1]` |
| ModelDueling.PartRecords | src/dqn/ModelDueling.cpp:73-77 | a part run on a tape without its layers succeeds, records each layer's input with the shape it was built for, and keeps the tape's entries |
| ModelDueling.ConvStateRecords | src/dqn/ModelDueling.cpp:97-99 | on an empty tape the state's conv part records exactly its own layers' inputs and leaves one row of features |
| ModelDueling.ConvRecords | src/dqn/ModelDueling.cpp:97-99 | on an empty tape the conv great part records both conv parts' inputs, with their built shapes |
| ModelDueling.FlatRecords | src/dqn/ModelDueling.cpp:97-99 | after it, the flat great part records both heads' inputs and keeps the conv parts' records |
| ModelDueling.FlowRecords | src/dqn/ModelDueling.cpp:89-100 | the parts of a call on one state and one action record every part's inputs with their built shapes |
| ModelDueling.BuiltNetworkRecords | src/dqn/ModelDueling.cpp:87-103 | a built network's call with a tape on one state and one action of its field succeeds with a [1, 1] value and a tape on which every part is recorded with its built shapes |
| ModelDueling.FoldKeepsGradients | src/dqn/ModelDueling.cpp:115-130 | the fold of the deltas leaves the gradient map alone |
| ModelDueling.BackPartKeys | src/dqn/ModelDueling.cpp:79-85 | one part adds its layers' gradient keys and keeps every entry |
| ModelDueling.GreatPartPassKeys | src/dqn/ModelDueling.cpp:131-133 | a great part adds both parts' keys and keeps every entry |
| ModelDueling.DuelingPassKeys | src/dqn/ModelDueling.cpp:113-134 | the parts of `get_gradient` add the keys of all fourteen layers and keep every entry |
| ModelDueling.DuelingBackwardKeys | src/dqn/ModelDueling.cpp:105-135 | a completed `get_gradient` adds a gradient for every weight and bias of the network and keeps the caller's entries |
| ModelDueling.BackPartFits | src/dqn/ModelDueling.cpp:79-85 | on a tape recorded with the built shapes, a part walked backward from deltas of its final shape (or, at a head, the 0-dimensional seed) completes with deltas and outputs of its start shape and leaves the other branch alone |
| ModelDueling.LastAccepts | src/dqn/ModelDueling.cpp:82-84 | the last layer of a part accepts deltas of the part's final shape |
| ModelDueling.FoldFits | src/dqn/ModelDueling.cpp:115-130 | the fold on a state row of w deltas beside an actions row of 2w succeeds, with a state row of w and an actions row of w |
| ModelDueling.ValueBackFits | src/dqn/ModelDueling.cpp:131-133 | the value head walked backward from one output row leaves a row of the state's features |
| ModelDueling.AdvantageBackFits | src/dqn/ModelDueling.cpp:131-133 | the advantage head walked backward from one output row leaves a row of the joined features |
| ModelDueling.FlatPassFits | src/dqn/ModelDueling.cpp:113-133 | the flat great part walked backward from one output row with the seed deltas completes with rows of the state's and the joined features |
| ModelDueling.ConvPassFits | src/dqn/ModelDueling.cpp:113-133 | the fold and the conv great part then complete |
| ModelDueling.BuiltNetworkTrains | src/dqn/ModelDueling.cpp:105-135 | training a built network completes: on the tape of a call on one state and one action of its field, `get_gradient` from the call's output with the seed deltas (0-dimensional or one per output) does not throw |
| ModelDueling.ConvPartPoolAsWrittenFails | src/neural_network/layers/LayerMaxPooling2D.cpp:38-57 | with pooling's `backward` as written, a conv branch's reverse pass on a field that fits never completes, whatever deltas reach it |
| ModelDueling.BuiltNetworkPoolAsWrittenFails | src/neural_network/layers/LayerMaxPooling2D.cpp:38-57 | so both conv branches of a built network fail on the tape of any call on one state and one action of its field |
| ModelDueling.Swap | src/dqn/ModelDueling.cpp:84 | the outputs and deltas exchange places, gradients unchanged |
| ModelDueling.AsWrittenIsSwappedPass | src/dqn/ModelDueling.cpp:79-85 | as written a part runs the intended pass on the outputs and deltas with their roles exchanged |
| ModelDueling.FlattenAsWrittenExchangesRoles | src/dqn/ModelDueling.cpp:84 | as written a flatten layer leaves its recorded input where the caller keeps its deltas, and the incoming outputs, reshaped, where it keeps its outputs: the two tensors change places at every layer |
| ModelDueling.FlattenPassesDeltasOn | src/neural_network/layers/LayerFlatten.cpp:18-23 | called the intended way round, a flatten layer hands on the received deltas, reshaped |
| ModelDueling.BackPartAsWrittenIsSwapped | src/dqn/ModelDueling.cpp:79-85 | as written a part is the intended pass with both branches' outputs and deltas exchanged on entry and on exit |
| ModelDueling.GreatPartAsWrittenIsSwapped | src/dqn/ModelDueling.cpp:131-133 | so is a great part as written |
| ModelDueling.DuelingPassAsWrittenIsSwapped | src/dqn/ModelDueling.cpp:105-135 | the whole `get_gradient` pass as written is the intended one with the tensors exchanged around each great part: the heads start from the model's outputs as their deltas, and the fold works on the exchanged tensors |
| ModelDueling.AsWrittenFoldsRecordedInputs | src/dqn/ModelDueling.cpp:113-130 | as written, the fold after the heads merges the two heads' recorded inputs instead of their deltas, so the state's convolutional part gets the value head's deltas alone and never the actions' first-half deltas, while the actions' part gets the advantage head's deltas past the state's width |
| ModelDueling.ForwardNth | src/dqn/ModelDueling.cpp:76 | one layer's forward with tape is the first step of the part's pass |
| ModelDueling.CallRange | src/dqn/ModelDueling.cpp:73-77 | the iterator loop over `[part_begin, part_end)` computes the part's forward pass |
| ModelDueling.CallPartStep | src/dqn/ModelDueling.cpp:99 | one inner-loop pass runs the part on its branch's input |
| ModelDueling.CallGreatPart | src/dqn/ModelDueling.cpp:97-99 | the inner loop runs the state branch, then the actions branch |
| ModelDueling.CallBranches | src/dqn/ModelDueling.cpp:89-102 | the outer loop, the join, and `value + advantage` compute the network's call |
| ModelDueling.BackwardRange | src/dqn/ModelDueling.cpp:79-85 | the reversed-iterator loop over `[part_rbegin, part_rend)` computes the reverse pass of the part |
| ModelDueling.GradientPart | src/dqn/ModelDueling.cpp:133 | one inner-loop pass runs the part backwards on its branch's tensors |
| ModelDueling.GradientGreatPart | src/dqn/ModelDueling.cpp:131-133 | the inner loop runs the actions branch, then the state branch |
| ModelDueling.GradientStep | src/dqn/ModelDueling.cpp:113-133 | entering the conv great part folds the deltas first, then both branches run |
| ModelDueling.GradientBranches | src/dqn/ModelDueling.cpp:105-135 | the outer loop computes `get_gradient`'s gradient map |
| ModelDueling.NewBranches | src/dqn/ModelDueling.cpp:15-48 | the four branches are new, each in its architecture, with pairwise disjoint addresses |
| ModelDueling.NewLayers | src/dqn/ModelDueling.cpp:15-48 | 5 + 5 + 2 + 2 new layers with distinct addresses forming the dueling architecture |
| ModelDueling.InsertParts | src/dqn/ModelDueling.cpp:15-48 | the layer vector is the four branches in order; parts [0,5), [5,10), [10,12), [12,14) |
| ModelDueling.ReversedRanges | src/dqn/ModelDueling.cpp:49-53 | each part learns `[size - end, size - begin)` as its reversed range |
| ModelDueling.ArchitectureOfBranches | src/dqn/ModelDueling.cpp:15-48 | four branches appended are the architecture, each branch one part |
| ModelDueling.ModelDueling.constructor | src/dqn/ModelDueling.cpp:13-54 | the fourteen layers are new with distinct addresses in the dueling architecture and the parts table is set |
| ModelDueling.ModelDueling.Build | src/dqn/ModelDueling.cpp:56-71 | every layer is built exactly once, with the shape its part hands it |
| ModelDueling.ModelDueling.CallLayersPart | src/dqn/ModelDueling.cpp:73-77 | the part's layers in order, each recording its input |
| ModelDueling.ModelDueling.CallWithTape | src/dqn/ModelDueling.cpp:87-103 | conv great part, join, flat great part, then `value + advantage` |
| ModelDueling.ModelDueling.GetGradientFromLayersPart | src/dqn/ModelDueling.cpp:79-85 | the part's layers from last to first, with outputs and deltas passed the intended way round |
| ModelDueling.ModelDueling.GetGradient | src/dqn/ModelDueling.cpp:105-135 | flat great part, fold, conv great part, each actions branch first; result is the gradient map |
| Q.Max | src/dqn/Q.cpp:343 | the largest priority: one of them and at least every one |
| Q.MaxElement | src/dqn/Q.cpp:343 | the `max_element` scan returns the largest priority |
| Q.NewPriority | src/dqn/Q.cpp:338-344 | a new priority is at least every existing one, one of them when there are any, `max_priority` otherwise |
| Q.AsWrittenRatesTerminal | src/dqn/Q.cpp:280-281 | as written the terminal transition (no candidates) is the one rated by its successors, and a non-terminal one never is |
| Q.PushKeepsInv | src/dqn/Q.cpp:295-309 | storing a transition and dropping the oldest of an overfull buffer keeps the invariant |
| Q.UpdateKeepsInv | src/dqn/Q.cpp:293-327 | every round of `update` keeps the invariant: one positive priority per transition, at most `max_trace`, eps and beta within a step of their bounds, counters in range |
| Q.UpdateTrace | src/dqn/Q.cpp:295-309 | the buffer is first in, first out: the transition joins at the back and, when full, the oldest leaves |
| Q.NewestIsMostUrgent | src/dqn/Q.cpp:338-344 | before training, the newest transition has the largest priority in the buffer |
| Q.UpdateCadence | src/dqn/Q.cpp:303-326 | `train_count` restarts after training and otherwise counts once the buffer is full enough; eps drops and beta rises by exactly one step only in a training round short of their bounds; `update_count` restarts exactly at sync |
| Q.TrainCountAfterTraining | src/dqn/Q.cpp:310-316 | i rounds after a training round, `train_count` is at most i - 1 |
| Q.TrainingSpaced | src/dqn/Q.cpp:310-316 | after a training round, the next `train_local` rounds do not train |
| Q.Argmax | src/dqn/Q.cpp:228 | the first position of the largest value |
| Q.UniqueOne | src/dqn/Q.cpp:227 | one unique value exactly when there are values and they are all equal |
| Q.Row | src/dqn/Q.cpp:238 | `view(actions, range(i, i + 1))` keeps the row axis with extent 1 |
| Q.Choice | src/dqn/Q.cpp:227-228 | the chosen candidate has the largest rating, and is the first such unless all ratings are equal |
| Q.FindBest | src/dqn/Q.cpp:224-230 | fails exactly when the network call fails; otherwise a candidate with the largest rating, the first one unless all are equal |
| Q.CopyVars | src/dqn/Q.cpp:333-334 | every destination variable equals the source variable at its position; the sources are unchanged; every layer keeps its layout |
| Q.CopyOne | src/dqn/Q.cpp:334 | `*dst[i] = value` sets that variable, keeps every other reference's value and every layer's layout |
| Q.CopyNetwork | src/dqn/Q.cpp:331-334 | the target's variables in layer order equal the local ones, the target's layers keep their layouts and the local network is unchanged |
| Q.NetworksAlike | src/dqn/Q.cpp:331-334 | two dueling networks have their trainable layers at the same positions |
| Q.CopyPlan | src/dqn/Q.cpp:331-334 | the two reference lists have the same length and kinds, the target's are distinct, and they point into disjoint layers |
| Q.VarsAgree | src/dqn/Q.cpp:331-334 | alike vectors with the same variables in layer order hold the same weights and biases at every trainable position |
| Q.BuiltLaidOut | src/dqn/ModelDueling.cpp:56-71 | a built network is laid out (builds, pads, output shapes) for its shape |
| Q.BuiltCopied | src/dqn/Q.cpp:329-336 | a network that kept its build layouts and took over the variables of a network built for the same shape is still built for it |
| Q.SyncNetworks | src/dqn/Q.cpp:329-336 | the copy between two built networks: the target takes over the local variables and stays built; the local network does not change |
| Q.BothAnswer | src/dqn/Q.cpp:224-240 | two networks built for a field that fits both answer every state of it with candidate rows of it |
| Q.NewNetwork | src/dqn/Q.cpp:181-183 | a new dueling network whose every layer is built with the shape its part hands it for the state shape |
| Q.NewNetworks | src/dqn/Q.cpp:181-183 | two new networks, both built for the state shape, with fourteen layers each and no layer shared |
| Q.Q.constructor | src/dqn/Q.cpp:177-221 | shape [1, h, w, c], both networks built for it, empty buffer, eps = max_eps, beta = beta_min, train_count = train_local, and, because `load` falls back on `global_update`, update_count = 0 and the target is a copy of the local network |
| Q.Q.SoftReset | src/dqn/Q.cpp:130-133 | nothing waits for a reward any more; the rest of the state is unchanged |
| Q.Q.CopyLocalToTarget | src/dqn/Q.cpp:331-334 | the target network's variables become the local network's, and both networks stay built |
| Q.Q.GlobalUpdate | src/dqn/Q.cpp:329-336 | the target becomes a copy of the local network and stays built, `update_count` restarts; no other agent state changes |
| Q.Q.AddNewPriority | src/dqn/Q.cpp:338-344 | appends the new priority; nothing else changes |
| Q.Q.GetBatch | src/dqn/Q.cpp:242-249 | `batch_size` distinct positions of the buffer |
| Q.Q.AccumulateVarsChange | src/dqn/Q.cpp:272-291 | the priority at the trace index becomes positive; no other priority and nothing else changes |
| Q.Q.TrainModel | src/dqn/Q.cpp:251-270 | a batch is drawn and exactly the drawn positions get new positive priorities |
| Q.Q.Push | src/dqn/Q.cpp:295-302 | the transition is appended and gets the new priority |
| Q.Q.Remember | src/dqn/Q.cpp:295-309 | the transition joins the buffer, an overfull buffer drops its oldest, and the invariant holds |
| Q.Q.Anneal | src/dqn/Q.cpp:316-320 | `train_count` restarts, eps steps down above `min_eps`, beta steps up below 1 |
| Q.Q.TrainRound | src/dqn/Q.cpp:315-326 | priorities re-drawn, counters annealed; at `update_target` the target becomes a copy of the local network, otherwise it is untouched |
| Q.Q.Update | src/dqn/Q.cpp:293-327 | one full round: the invariant holds, the new state is the round's bookkeeping, the target is a copy exactly at sync and untouched otherwise |
| Q.Q.PickAction | src/dqn/Q.cpp:236-237 | below eps a random candidate; otherwise `find_best` on the local network, failing exactly when it fails, which it never does for a state and candidates of the field when the field fits |
| Q.Q.GetAct | src/dqn/Q.cpp:232-240 | a waiting record first gets its round of `update`, and nothing changes when none waits; on a state and candidates of a field that fits an index below the candidate count is returned, and the chosen candidate's row becomes the waiting action |
| Q.Q.CallNetwork | src/dqn/Q.cpp:135-152 | with actions: `get_act` on the state and the actions shaped as `actions_number` rows, the waiting record's round of `update` (none when nothing waits), and on a field that fits an index below `actions_number`; without actions: the terminal round of `update` and -1 |

## Left out

- Floating point: tensor elements are integers and eps, beta and priorities are reals. Rounding, `exp`, `tanh` and `pow` are not modelled.
- Activations: every layer is modelled with the identity activation and derivative 1. `deltas *= derive(outputs)` keeps only its shape effect, in `LayerTypes.ScaleByDerivative`. All dueling layers use sigmoid in the source.
- Max pooling takes an eager window maximum. In xtensor, the `amax` inside the two filtrations is a lazy expression over a view that the first filtration changes, and the model does not follow that laziness.
- The learning step is not modelled: the TD error, gamma, alpha, the importance weights, `vars_change` and the update of the local network's variables. The local network's variables therefore never change in the model, and only the priorities that `train_model` rewrites are modelled.
- Q.Q.AccumulateVarsChange: the new priority is only stated to be positive, because its value `pow(|td| + min_priority, priority_scale)` depends on the float arithmetic above.
- Q.Q.GetBatch: any `batch_size` distinct positions may be drawn. The priority weighting of `xt::random::choice` is not modelled.
- Randomness: `random_float`, `random_number` and the batch draw are nondeterministic choices within their ranges. The seeding by time is left out.
- Concurrency: the multithreaded `train_model` is modelled as its sequential path. Each thread writes a distinct priority.
- Persistence: `save`, `load`, `save_weights` and `load_weights` (JSON files) are left out. The constructor is modelled on the path where no saved files exist, so `load` falls back on `global_update`. The duplicated existence check of the local file at src/dqn/Q.cpp:207 has no effect on that path.
- `call_network_debug` and `print_trainable_vars` are left out: they only draw random inputs or print.
- ModelDueling.DuelingBackward: both branch outputs start from `outputs`, not `outputs / 2`. With derivative 1 only the shape of `outputs` matters, and halving keeps it.
- ModelDueling.ModelDueling.constructor: it does not state that the new layers have never been built.
- Q.Q.GetAct and Q.Q.CallNetwork: they do not restate that the target network is copied at sync. Q.Q.Update states it for the round they run.
- Q.Q.Update: it does not restate that the local network's variables are unchanged.
- LayerConv2D.Pad, LayerConv2D.SwapAxes, LayerConv2D.AddBiases and LayerConv2D.ChannelSums: their contracts give the shape only. The element values are given by the cell functions they build from.
- LayerMaxPooling2D.BackwardSpec: its contract gives the shape. The values are stated by LayerMaxPooling2D.LayerMaxPooling2D.BackwardRoutesToMaxima and BackwardKeepsUnvisited.
- Conv2D backward with Same padding: the weight-gradient convolution of `backward` needs its windows to fit. `BackwardOk` requires that, and the Valid layers of the dueling network always meet it.
- LayerDense.LayerDense.Backward: it requires deltas of exactly `[recorded batch, outputs]`. At src/neural_network/layers/LayerDense.cpp:30-35 the source also broadcasts `[N, O]` deltas against a `[1, J]` recorded input, summing the weight gradient over N and handing on `[N, J]` deltas. In the dueling network that happens only at the value head, when `get_gradient` is given outputs for N > 1 candidates; the source then throws at the latest at the state branch's flatten, whose reshape cannot turn N·J elements into the J of its recorded input. The model fails one layer earlier, so the pass fails in both.
- LayerMaxPooling2D.LayerMaxPooling2D.Backward: it requires deltas with the recorded input's batch and channel extents. The source's `pool *= view(deltas, ...)` would also accept an extent of 1 broadcast across the window. The layer above a pooling layer in the dueling network always hands on deltas of the recorded shape, so the difference never arises there.
- LayerConv2D.LayerConv2D.Backward: at src/neural_network/layers/LayerConv2D.cpp:71 the output shape of the weight-gradient convolution is a `const auto&` bound to the shape of a temporary `swapaxes` view, which dangles once the statement ends. The model uses the value evidently intended, `SwapShape(filters.shape)`, the filters' shape with batch and channel axes exchanged.
- Q.Q.GetAct, Q.Q.PickAction and Q.Q.CallNetwork: they promise an answer only when `ModelDueling.FieldFits` holds for the state shape: one state, height and width of at least 7 below 2^64, and twice the flattened features below 2^64. On smaller fields the 3x3 convolutions wrap around in `size_t`, and the model does not follow what xtensor then does.
- ModelDueling.ModelDueling.Build: it requires that the layers are valid, which the constructor establishes and nothing else changes. A `build` on a layer vector in any other state is not modelled.
- The `parts_names` table is not part of this model. Its contents follow from how the parts are used: the convolutional great part is (ConvStatePart, ConvActionsPart) and the flat one is (ValuePart, AdvantagePart).

## Findings

| source | as written | input that shows it | evidently intended | confidence | as-written member | corrected member |
|---|---|---|---|---|---|---|
| src/dqn/ModelDueling.cpp:84 | each layer's `backward` is called with the deltas in the `outputs` position and the outputs in the `deltas` position | any `get_gradient` on the tape of a call: every part runs the intended pass with the two tensors exchanged, so each head starts from the model's outputs as its deltas, and the fold after the heads merges the heads' recorded inputs in place of their deltas; the state's convolutional part never receives the actions' first-half deltas | outputs first, deltas second, as every layer's `backward` declares | not executed | ModelDueling.BackwardSeqAsWritten, ModelDueling.AsWrittenIsSwappedPass, ModelDueling.FlattenAsWrittenExchangesRoles, ModelDueling.DuelingPassAsWrittenIsSwapped, ModelDueling.AsWrittenFoldsRecordedInputs | ModelBase.BackwardSeq, ModelDueling.FlattenPassesDeltasOn, ModelDueling.DuelingPass |
| src/neural_network/layers/LayerMaxPooling2D.cpp:38-57 | the pooling layer's `backward` has no `outputs` parameter and never assigns it, so the convolution below it runs `deltas *= derive(outputs)` with the outputs of the layer above the pool, which the pool shrank | any backward pass through a conv branch on a field of at least 7x7: the outputs the second convolution receives are the flatten's recorded input, of the pooled height and width, and cannot broadcast into its deltas, which have the height and width before pooling | the pool sets `outputs` to its recorded input, as every other layer does | not executed | Layer.AnyLayer.BackwardStepAsWritten, ModelBase.BackwardSeqPoolAsWritten, ModelDueling.ConvPartPoolAsWrittenFails, ModelDueling.BuiltNetworkPoolAsWrittenFails | Layer.AnyLayer.BackwardStep, ModelDueling.BuiltNetworkTrains |
| src/dqn/ModelDueling.cpp:125 | the state deltas get a new axis and are added to the actions' deltas before summing over the candidates, so each state delta is counted once per candidate | a call with two candidate actions: every state delta is counted twice | each state delta plus the column sums of the actions' first-half deltas, the chain rule through the concatenation | not executed | BranchTensors.MergeAsWritten, BranchTensors.MergeAsWrittenCountsStateTwice | BranchTensors.Merge, BranchTensors.MergeIsChainRule |
| src/dqn/Q.cpp:280 | the successor bootstrap `gamma * find_best(afterstate, ...)` is added when `done` is true | the terminal transition stored by `call_network` with no actions: `possible_actions` is an empty default array with no candidates to rate, while every non-terminal transition is never bootstrapped | bootstrap only when the game goes on (`!done`) | not executed | Q.BootstrapsAsWritten, Q.AsWrittenRatesTerminal | Q.Bootstraps, Q.UpdateKeepsInv |
