# Stacked convolutional autoencoder: shape and index bookkeeping

This project models the graph-construction logic of `stack_autoencoder` in
`autoencoder.py`. The model is a stack of `layer_num` convolutional encoder
stages followed by `layer_num` mirrored decoder stages over a 4-D image batch.
Greedy, layer-wise training is driven by a run-time control value `ph`.
Stage `i` is unlocked while `i < ph`; stage 0 is always live. A locked
encoder stage reads zeros instead of its input. A locked decoder stage is
skipped: the stage after it reads the encoding of the same depth instead of
its output.

Every TensorFlow tensor is reduced to its static shape, either a scalar or
`(height, width, channels)`, plus an origin tag. The tag is one of: the model
input, the zero constant, the encoder output at depth `k`, or the decoder's
reconstruction of depth `k`. With these tags, "`encoded[0]` is the input" and
"the bypass is `encoded[i]`" are statements about values.

Modules:

- `Python` (python.dfy): the Python behaviour the source relies on. This covers
  dynamically typed arguments, `ValueError`/`TypeError`/`IndexError`, `+` on
  values, `'%d'` formatting, `in` on strings, and list indexing with negative
  indices.
- `Shapes` (shapes.dfy): static dimensions, input shape, feature-map
  dimensions, tensors, and kernel shapes. `HalveSame` is the size map of the
  default pooling (2x2 window, stride 2, SAME padding).
- `LayerCodec` (codec.dfy): `codec`, one stage. Encoding convolves (spatial
  size kept, channels set to the kernel's last entry) and then pools. Decoding
  first resizes to `new_size` and then convolves.
- `StackAutoencoder` (autoencoder.dfy): the constructor and both
  `filter_sizes` checks. It holds the encode and decode loops as accumulating
  functions, `gen_model`/`__gen_model` as `Build`, the gate as a pure `Select`
  on a `uint8` control value, and `get_encoded`. The loops are proved equal to
  a reference description indexed by depth (`LevelSize`, `EncodedAt`, `Above`,
  `EncoderStageAt`, `DecoderStageAt`).
- `BuildProperties` (properties.dfy): what a successful build guarantees.
- `Findings` (findings.dfy): places where the literal code differs from what
  it evidently intends, each shown next to the corrected behaviour.
- `VariableIndex` (variables.dfy): `get_variable_for_layer` as an
  order-preserving name filter, and how it relates to the scopes the builder
  opens.

Where the literal code and its intent disagree, the model keeps both versions:

- The builder uses the corrected behaviour.
- Each literal behaviour is its own member, with a lemma that shows the
  difference.
- See "## Findings".

The pooling size map is a parameter (`pool: Size -> Size`). Shape facts
proved for any `pool` therefore do not depend on TensorFlow's padding
arithmetic.

Naming: stage `i` (loop index `i`) of either loop opens scope
`hidden_<i+1>`. This is what `'hidden_%d' % i+1` evidently intends. With
this naming, `get_variable_for_layer(k)` and `get_encoded(k)` refer to the
same layer `k`. The full scopes are
`stack_autoencoder/encoder/hidden_<i+1>` and
`stack_autoencoder/decoder/hidden_<i+1>`.

Encoder gating follows the code: `if i != 0`, with the gate on the stage's
input. In the decoder the code also gates the input of stage `i` (for
`i != 0`) with `layers[i]`, the encoding at depth `i`. That tensor has the
shape of the stage's output, not of its input. The model places the same
gate, with the same bypass, after stage `i` instead. While stage `i` is
locked it is skipped, and stage `i - 1` reads `layers[i]`. Seen from the
reading stage, decoder stage `i` is gated iff `i + 1 < layer_num`: the
innermost stage reads the deepest encoding directly. With `k` layers
unlocked, the reconstruction therefore passes through encoder and decoder
stages `0 .. k - 1` only.

Several call sites cannot resolve as written, and the model treats each as
the call it evidently means:

- `codec` is called unqualified at lines 154 and 169. It is a method of the
  class, declared without `self`.
- The resize at line 81 is spelled `resize_nearest_nerghbor`.

The `NameError` (lines 154 and 169) would fire before a stage's codec body
runs. The `AttributeError` (line 81) would fire inside `codec`, after the
checks at lines 65 and 79 and before a decode stage's convolution.

## Model

| member | source | states |
|---|---|---|
| StackAutoencoder.New | autoencoder.py:27-38 | Construction fails with `UnknownShape` when height, width or channels is unknown, and otherwise with `HiddenOutputsLength` exactly when `len(hidden_outputs) != layer_num`; on success the channel list is the input's channel count followed by `hidden_outputs` (length `layer_num + 1`) and the stored input has the input's height, width and channels |
| LayerCodec.Codec | autoencoder.py:65-103 | A non-bool mode raises; decode mode without `new_size` raises and encode mode never needs it; a kernel whose input channels differ from the image's makes `conv2d` raise (`ChannelMismatch`); these are the only failures; otherwise the output has the kernel's last entry as its channel count, encode output has the pooled input size, decode output has exactly `new_size`, and the scope defaults to `encoder`/`decoder` |
| LayerCodec.DecodeUndoesEncodeShape | autoencoder.py:77-102 | Decoding with the transposed kernel toward the size an encoding started from restores the encoding's input dimensions, for any pooling size map |
| StackAutoencoder.FilterSizesAcceptedAsWritten | autoencoder.py:132-133 | The check as written passes only when `len(filter_sizes) == 1` and `layer_num == 1` |
| StackAutoencoder.Broadcast | autoencoder.py:136-137 | After the check there is one kernel size per layer: the single given size repeated, or the given list unchanged |
| StackAutoencoder.EncodeLoop | autoencoder.py:138-157 | Running the encode loop from any prefix state yields sizes, encoder outputs and stages equal, depth by depth, to the reference description (input size pooled `k` times; channel count `channels[k]`; stage `i` gated iff `i != 0` with zeros as bypass; kernel `channels[i] -> channels[i+1]`) |
| StackAutoencoder.DecodeLoop | autoencoder.py:160-173 | Running the decode loop from depth `n` produces `n` stages equal to the reference description. Stage `k` reads the tensor at depth `k+1`, with the innermost stage reading the deepest encoding directly and every other stage reading through the gate after stage `k+1` whose bypass is `layers[k+1]`. Stage `k` targets `size_each_hidden[k]` with `channels[k]` channels, and the final output is the tensor at depth 0 |
| StackAutoencoder.Build | autoencoder.py:132-174 | Building succeeds exactly when `filter_sizes` has length 1 or `layer_num` (otherwise `FilterSizesLength`), and the built graph is the reference description for the broadcast kernel sizes, with the decoder gates placed after the stage they skip |
| StackAutoencoder.StageNameAsWritten | autoencoder.py:147 | `'hidden_%d' % i+1` parses as a string plus an int and raises `TypeError` for every stage index |
| StackAutoencoder.StageNameReadsBack | autoencoder.py:147 | The corrected stage name is `hidden_` followed by decimal digits that read back as the layer number `i + 1` |
| StackAutoencoder.GetEncodedAsWritten | autoencoder.py:194-199 | With no index the comparison `None > layer_num` raises `TypeError` before the default is reached; an index above `layer_num` raises `IndexTooLarge`; `0..layer_num` returns `encoded[index]`; negative indices follow Python list indexing |
| StackAutoencoder.GetEncoded | autoencoder.py:188-199 | With the default applied first: no index returns `encoded[layer_num]`, `0..layer_num` returns `encoded[index]`, an index above `layer_num` raises `IndexTooLarge`, and it succeeds exactly for `-(layer_num+1) <= index <= layer_num` or no index |
| BuildProperties.EncodedOutputs | autoencoder.py:138-157 | After a build `encoded` and `size_each_hidden` have `layer_num + 1` entries, `encoded[0]` is the input, `size_each_hidden[0]` is the input's size, each later size is the pooled previous one, and `encoded[k]` is encoder output `k` with `channels[k]` channels at `size_each_hidden[k]` |
| BuildProperties.DecoderMirror | autoencoder.py:138-173 | For any pooling size map the decoded output has the input's size and channel count; decoder stage `k` restores the shape of `encoded[k]`; the last decode stage targets `size_each_hidden[0]` with `channels[0]` channels |
| StackAutoencoder.GateFor | autoencoder.py:149-153 | Encoder stage `i` is gated iff `i != 0`; a gated stage keeps its index and bypass, and its true input is `layers[-1]` |
| StackAutoencoder.DecoderGate | autoencoder.py:164-169 | The gate decoder stage `i` reads through belongs to stage `i + 1`: it exists iff `i + 1 < layer_num`, its true branch is the previous output `layers[-1]`, and its bypass is the skipped stage's `layers[i + 1]` |
| StackAutoencoder.Select | autoencoder.py:153 | `tf.cond(tf.less(i, ph), ...)`: an ungated stage, or a gated one with `stage < ph`, reads its true input; a gated stage with `stage >= ph` reads its bypass |
| StackAutoencoder.SelectMonotone | autoencoder.py:134-168 | Raising the `uint8` control value never closes a gate: a stage reading its true input at `ph` still does at every larger value |
| StackAutoencoder.EncodeBypassAsWritten | autoencoder.py:135-152 | The encoder bypass as written is `zero_constant`, a scalar (`shape=()`), so it never has the shape of an image input |
| StackAutoencoder.DecodeBypassAsWritten | autoencoder.py:167 | The decoder bypass as written, `layers[i]` over the running list (input, encoder outputs, then decoder outputs so far), is the encoder output at depth `i` |
| BuildProperties.StageGating | autoencoder.py:146-168 | Encoder stage `i` is gated iff `i != 0` and reads its true input iff `i == 0` or `i < ph`, zeros of the same shape otherwise. Decoder stage `i` is gated iff `i + 1 < layer_num`, and reads the output of stage `i + 1` iff that stage exists and `i + 1 < ph`, the encoding at depth `i + 1` otherwise |
| BuildProperties.GreedyPath | autoencoder.py:146-173 | With `1 <= k <= layer_num` unlocked: encoder stages `0 .. k-1` read the real output of the stage before (the first reads the input); decoder stage `k-1` reads `encoded[k]`; decoder stages below it read the output of the stage above; the decoded output is decoder stage 0's. No locked stage and no zero bypass lies on the reconstruction path |
| BuildProperties.KernelsFit | autoencoder.py:148-163 | Encoder stage `i` uses kernel `filter_sizes[i] + [channels[i], channels[i+1]]` and decoder stage `i` the same extent with channels transposed; each kernel's input channels equal those of the stage's true input (so `conv2d`'s channel check never fires in the built graph) and its output channels those of the stage's output |
| BuildProperties.BypassShapesAgree | autoencoder.py:150-168 | Both branches of every gate have the same shape. Each decoder gate chooses between the output of the stage it skips and `layers[i + 1]`, and that encoding has the skipped output's shape |
| BuildProperties.StageNamesDistinct | autoencoder.py:147 | Distinct stage indices get distinct corrected stage names |
| BuildProperties.StageScopes | autoencoder.py:145-162 | Encoder and decoder stage `i` open `encoder/hidden_<i+1>` and `decoder/hidden_<i+1>` under the model scope, and no two stages on one side share a scope |
| BuildProperties.GetEncodedDepths | autoencoder.py:188-199 | On a built graph `get_encoded(0)` is the input, `get_encoded()` equals `get_encoded(layer_num)`, and any index above `layer_num` raises |
| BuildProperties.TwoLayerExample | autoencoder.py:132-174 | For a 64x64x3 input, two layers of 16 and 32 maps and the default pooling, `encoded` has 3 entries, `encoded[0]` is the input, `encoded[2]` is 16x16x32 and the decoded output is 64x64x3 |
| Findings.FilterSizesCheckTooStrict | autoencoder.py:132-133 | The check as written rejects one size for two layers and one size per layer for three layers, both admitted by its message; it never accepts what the intended check rejects |
| Findings.EncodeBypassShapeMismatch | autoencoder.py:150-153 | The scalar zero used as the encoder bypass never has the shape of the image it replaces; zeros shaped like the true input always do |
| Findings.DecodeBypassShapeMismatch | autoencoder.py:164-169 | `layers[i]`, the source's bypass for decoder stage `i`'s input, has that input's shape only when encoder stage `i` changed neither size nor channels. It always has the stage's output shape, and the corrected graph uses exactly that tensor as the bypass of the gate after stage `i` |
| Findings.DecodeBypassCounterexample | autoencoder.py:167 | In the 64x64x3, [16, 32] model, decoder stage 1's gate chooses between a 16x16x32 input and a 32x32x16 bypass. The model's codec, applied to the bypass's shape, reports the channel mismatch: the stage's convolution would fail at run time whenever `ph <= 1` selects the bypass |
| Findings.GetEncodedDefaultUnreachable | autoencoder.py:194-198 | `get_encoded()` as written raises instead of returning `encoded[layer_num]`; for every explicit index it agrees with the corrected accessor |
| VariableIndex.CollectionMembers | autoencoder.py:218-221 | `tf.trainable_variables(scope=...)` / `tf.global_variables(scope=...)`: the collection holds exactly the graph's variables whose names start with `stack_autoencoder`, only trainable ones when asked, in graph order |
| VariableIndex.Filter | autoencoder.py:222-224 | The loop's selection keeps exactly the elements that pass, each as many times as in the input, in their original order |
| VariableIndex.GetVariableForLayer | autoencoder.py:216-225 | The loop returns the order-preserving filter, by the layer test (name contains `encoder/hidden_<index>` or `decoder/hidden_<index>`), of the trainable collection when the flag is `True` or `None` and of the global collection otherwise, both restricted to the model scope; so it keeps exactly the matching variables, each as often as in the collection, in order |
| VariableIndex.SelectionMembers | autoencoder.py:218-224 | A variable is selected iff it is in the graph, under the model scope, trainable when only trainable ones are wanted, and its name matches the layer |
| VariableIndex.LayerVariablesSelected | autoencoder.py:217-224 | Every variable created under the scope of encoder or decoder stage `i` (the scope a build gives that stage) is returned for layer `i + 1` when trainable variables are asked for |
| VariableIndex.TenfoldLayerMatches | autoencoder.py:223 | Because the match is a substring test, the variables of layer `10k` also match layer `k` |
| VariableIndex.LayerOneSelectsLayerTen | autoencoder.py:223 | A variable of stage 9 (scope `hidden_10`, present once `layer_num >= 10`) is returned both for layer 10 and for layer 1 |

## Left out

- The numeric behaviour of `conv2d`, `bias_add`, `relu`, `max_pool` and the nearest-neighbour resize is not modelled. These are library operations; only their output shapes are. The pooled size is the parameter `pool`, and `HalveSame` gives the default's SAME-padding result.
- Weight and bias allocation (`tools.variable_with_weight_decay`, `tools.variable_on_cpu`), `stddev` and `activation_summary` are not modelled. They are foreign calls and floats. Only the names of the variables a stage creates (`weights`, `biased` under its scope) appear, in `VariableIndex.StageVariables`.
- `tf.placeholder`, `tf.cond` execution and the session are not modelled. The gate is the pure `Select` on a `uint8` control value.
- The static shape `tf.cond` gives when its branches disagree is not modelled. The shape bookkeeping follows each gate's true input; the literal bypasses' mismatches are shown as findings instead.
- `get_ph` and `get_decoded` are plain attribute reads, and `Built` carries `decoded` directly. A model that was never built has no `Built` value, so there is no not-built error.
- `filter_sizes` entries are typed as `(kh, kw)` pairs. So the flat default `[3, 3]`, which would reach `int + TensorShape` at line 148, has no counterpart. A kernel of the wrong rank is also left to TensorFlow.
- StackAutoencoder.New: follows the evident meaning of `None in shape[-3:]` (line 28), an unknown height, width or channel count. Under TensorFlow 1's `TensorShape`, iteration yields `Dimension` objects, and `Dimension(None) == None` is `None`, which is falsy, so there the raise would never fire. Which happens depends on the TensorFlow version.
- Channel counts are natural numbers. Negative or zero counts would be rejected by TensorFlow, not by the source.
- The `ksize`/`strides` arguments of `codec` are folded into `pool`.
- `main` and the `__main__` block (dataset, preprocessing, plotting) are I/O and visualisation.
- VariableIndex.GetVariableForLayer: no lemma shows that layer `k` excludes the variables of other layers when `layer_num <= 9`. That would need non-containment of substrings over all offsets. Only inclusion and the tenfold collision are proved.
- StackAutoencoder.GetEncoded: it keeps Python's negative indexing from the code. A negative index is neither rejected nor given a separate meaning.

## Findings

| source | as written | input that shows it | evidently intended | confidence | as-written member | corrected member |
|---|---|---|---|---|---|---|
| autoencoder.py:132 | `len(filter_sizes) != 1 or len(filter_sizes) != self.layer_num` raises for every configuration except length 1 with one layer | `filter_sizes=[[3, 3]]`, `layer_num=2` | raise only when the length is neither 1 nor `layer_num` | high; not executed | Findings.FilterSizesCheckTooStrict | StackAutoencoder.Build |
| autoencoder.py:147 | `'hidden_%d' % i+1` is `('hidden_%d' % i) + 1`, a `TypeError` (also line 162) | any build that passes the check, stage `i = 0` | `'hidden_%d' % (i+1)` | high; not executed | StackAutoencoder.StageNameAsWritten | StackAutoencoder.StageNameReadsBack |
| autoencoder.py:152 | the encoder bypass is the scalar `zero_constant`, while the true branch is an image batch | `layer_num=2`, stage 1 with `ph <= 1` | zeros shaped like the stage's true input | medium; not executed | Findings.EncodeBypassShapeMismatch | BuildProperties.BypassShapesAgree |
| autoencoder.py:164-169 | the `tf.cond` wraps decoder stage `i`'s input with bypass `layers[i]`, which has the shape of the stage's output, so the stage's convolution fails whenever the bypass is selected | 64x64x3 input, `hidden_outputs=[16, 32]`, decoder stage 1 with `ph <= 1` | the same gate after the stage, so a locked stage is skipped and the next stage reads `layers[i]` | medium; not executed | Findings.DecodeBypassCounterexample | BuildProperties.GreedyPath |
| autoencoder.py:194 | `index > self.layer_num` runs before the `None` default, so `get_encoded()` raises `TypeError` | `get_encoded()` | apply the default `layer_num` first | high; not executed | StackAutoencoder.GetEncodedAsWritten | StackAutoencoder.GetEncoded |
