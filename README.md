# BahdanauAttentionPredictor, modelled in Dafny

This project models the attention predictor of a scene-text recogniser
(`predictors/attention_predictor.py`). The predictor wraps a recurrent
decoder with Bahdanau attention over image feature maps. It decodes label
sequences with teacher forcing in training and with beam search in
inference. The numeric work belongs to the sequence-to-sequence library and
is not modelled. What the class does itself is modelled:

- the constructor and its eager beam-width check;
- the reserved labels (`start_label = 0`, `end_label = 1`) and `num_classes`;
- the bookkeeping of `predict`:
  - rejection of a `feature_maps` that is not a list or tuple;
  - one attention mechanism per feature sequence, or one over their concatenation;
  - tiling of the memory per beam, and the batch size `batch * beam_width`;
  - the start tokens;
  - the "ends with `kernel`" weight filter for the regulariser;
  - the keys of the predictions dictionary in each mode;
- the ground-truth sequences of `provide_groundtruth` and the dictionary it writes;
- the mode contracts of `loss` and `postprocess`.

Files:

- `wrappers.dfy`: `Option` and `Result`. An `Err` stands for a raised exception.
- `sequences.dfy`: reversal and its involution, constant runs, `endswith`, subsequences.
- `tensors.dfy`: the tensor operations the class calls itself, on batch-major
  nested sequences: `tf.concat(..., axis=1)`, `tf.fill([batch, 1], v)` and
  `tile_batch`.
- `label_map.dfy`: the label map. Its per-text encoding and decoding are
  function-valued fields. The batch contract of `text_to_labels` (pad every
  row with `pad_value` to the longest row, return the true lengths) is modelled.
- `attention_predictor.dfy`: the configuration, the decoder setup handed to
  the library, the weight filter, the ground truth, and the class `Predictor`.

The library is a parameter. `Predict` takes `decode: DecoderSetup -> Decoded`
for `dynamic_decode` over the decoder it builds, and `trainableWeights` for the
attention cell's `trainable_weights`. `Predict` returns the `DecoderSetup` and the
filtered weight list beside the predictions, so that the bookkeeping can be
stated: the mechanisms, their memory, the batch size, the start and end
tokens, and the weights given to `apply_regularization`.

Where the code as written cannot run, the model follows the evident intent:

- `self._groundtruth_dict` is never initialised in `__init__`. The model starts it empty.
- `tf.concat` at line 158 is called without `axis`, which raises in TensorFlow 1.
  The model concatenates along axis 1, as line 157 does.
- `predict` uses names it never defines. The model reads them as follows:
  - `shape_utils` (line 79) is a batch-size query;
  - `num_classes` (lines 80-82) is `self.num_classes`;
  - `start_label` and `end_label` (lines 102-103) are the two properties;
  - `decoder_inputs` and `decoder_inputs_lengths` (lines 89-90) are the stored
    `decoder_inputs` and `decoder_lengths` of the ground-truth dictionary. A
    training `predict` before `provide_groundtruth` therefore fails with
    `MissingGroundtruth`.
- `tf.tile_batch` (line 57) does not exist. The model reads it as the library's `tile_batch`.
- `provide_groundtruth` and `postprocess` use names they never define. The model reads them as follows:
  - `shape_utils` (line 148, in `provide_groundtruth`) gives the number of texts as the batch size;
  - `ops.reverse_strings` (line 150, in `provide_groundtruth`) and `ops.string_reverse`
    (line 169, in `postprocess`) both reverse each string.

Two literal behaviours are kept:

- `decoder_inputs` starts with two `start_label`s.
- The label rows are padded with `end_label`, not only terminated by it.

The targets are `[start] ++ padded labels ++ [end]`. Every row of
`decoder_inputs` and `decoder_targets` has the batch width plus 2 entries;
only `decoder_lengths` is each text's own length plus 2.

## Model

| member | source | states |
|---|---|---|
| `AttentionPredictor.Predictor.Create` | predictors/attention_predictor.py:13-36 | construction fails with `InvalidBeamWidth` exactly when not training and the beam width is absent or not > 0; in training it succeeds whatever the beam width; the new predictor holds the given configuration and an empty ground-truth dictionary |
| `AttentionPredictor.NumClasses` | predictors/attention_predictor.py:38-48 | `num_classes` is the label map's class count plus 2, and both sentinels, 0 and 1, are distinct class ids below it |
| `AttentionPredictor.SqueezeAll` | predictors/attention_predictor.py:65 | the feature sequences exist exactly when every map has size 1 on axis 1, one per map, in order, each the squeezed map |
| `AttentionPredictor.BuildPerSourceMechanisms` | predictors/attention_predictor.py:66-70 | the loop builds exactly one mechanism per feature sequence, the `i`-th over the `i`-th sequence |
| `AttentionPredictor.MechanismMemory` | predictors/attention_predictor.py:55-62 | in training a mechanism's memory is the sequence itself; in inference it has `batch * beam_width` entries and entry `i` copies batch entry `i / beam_width` |
| `Tensors.TileBatchAt` | predictors/attention_predictor.py:57 | after tiling, beam `j` of batch entry `b` sits at index `b * beam_width + j` and copies entry `b` |
| `Tensors.TileBatchEntry` | predictors/attention_predictor.py:57 | every entry of a tiled memory copies the batch entry `i / beam_width` |
| `Tensors.JoinedRowSegment` | predictors/attention_predictor.py:72 | in the shared memory, each feature sequence's row sits unchanged at its offset |
| `Tensors.JoinedRowLength` | predictors/attention_predictor.py:72 | a shared memory row is exactly as long as the rows of all sequences together |
| `AttentionPredictor.Predictor.Predict` | predictors/attention_predictor.py:50-134 | on ready input (a non-empty list of squeezable maps, agreeing batches for a shared memory, ground truth stored when training) it succeeds exactly when the decoder, given the reference setup `ExpectedSetup`, returns the mode's output type, fails otherwise only with `UnexpectedDecoderOutput`, and hands the library exactly that setup. The errors: not a list or tuple, a failed squeeze, an empty list, mismatched batches for a shared memory, missing ground truth in training, a decoder output of the wrong type. On success: the wrapper has `output_attention` false; with multi-attention there is one mechanism per map in map order, otherwise one over the concatenation; in training the batch is unchanged and the stored inputs and lengths are fed; in inference the batch is `batch * beam_width`, there are that many start tokens, all `start_label`, the end token is `end_label` and the length penalty is 0; the depth is `num_classes`; the iteration cap is `max_num_steps`; the regularised weights are the filtered ones; the output keys are `{labels, logits}` in training and `{labels, scores}` in inference |
| `AttentionPredictor.FilterKernels` | predictors/attention_predictor.py:115 | a weight is kept exactly when it is in the list and its name ends with `kernel` |
| `AttentionPredictor.FilterKernelsAppend` | predictors/attention_predictor.py:115 | the filter distributes over concatenation, so it keeps the original relative order |
| `AttentionPredictor.FilterKernelsIsSubsequence` | predictors/attention_predictor.py:115-118 | the weights passed to the regulariser are a subsequence of the cell's weights |
| `AttentionPredictor.FilterKernelsIdempotent` | predictors/attention_predictor.py:115 | filtering twice gives the same list as filtering once |
| `AttentionPredictor.Predictions.Keys` | predictors/attention_predictor.py:120-132 | the predictions dictionary always has `labels`; it has `logits` exactly in the training variant and `scores` exactly in the inference variant |
| `AttentionPredictor.Predictor.Loss` | predictors/attention_predictor.py:136-144 | without `logits` the call fails with `MissingLogits`; with them but without stored targets and lengths it fails with `MissingGroundtruth`; otherwise it succeeds and returns the loss callable applied to the logits and the stored `decoder_targets` and `decoder_lengths` |
| `LabelMaps.MaxLength` | predictors/attention_predictor.py:151-154 | the padded width is at least every row's length and equals one of them, or 0 for an empty batch |
| `LabelMaps.TextToLabels` | predictors/attention_predictor.py:151-154 | each label row is the text's encoding followed by `pad_value` up to the batch width; each length is the encoding's length |
| `AttentionPredictor.Groundtruth` | predictors/attention_predictor.py:146-159 | the three ground-truth tensors have one row per text |
| `AttentionPredictor.WithSentinelsRow` | predictors/attention_predictor.py:155-159 | a label row gains two `start_label`s in front for the decoder inputs, one `start_label` in front and one `end_label` behind for the targets, and its length grows by 2 |
| `AttentionPredictor.GroundtruthRow` | predictors/attention_predictor.py:146-159 | row `i` of `decoder_inputs` is `[0, 0] ++ padded labels`; row `i` of `decoder_targets` is `[0] ++ padded labels ++ [1]`; both have width + 2 entries; `decoder_lengths[i]` is the text length + 2, at most width + 2; the labels are those of the reversed text when `reverse` is set |
| `AttentionPredictor.Predictor.ProvideGroundtruth` | predictors/attention_predictor.py:146-162 | the dictionary gets the three tensors under `decoder_inputs`, `decoder_targets` and `decoder_lengths`, and every other key keeps its value; afterwards `loss` on any training dictionary applies the loss callable to the new targets and lengths |
| `AttentionPredictor.Predictor.Postprocess` | predictors/attention_predictor.py:164-171 | without `scores` the call fails; otherwise the scores pass through unchanged, there is one text per label row, and each text, oriented back, is the label map's decoding of its row |
| `AttentionPredictor.Predictor.PostprocessRestoresText` | predictors/attention_predictor.py:146-171 | if the decoder predicts the labels that ground-truth preparation encodes for each text, and the label map decodes them back, `postprocess` returns the original texts in their original orientation, with the scores unchanged |
| `AttentionPredictor.OrientedTwice` | predictors/attention_predictor.py:149-150 | the optional reversal is an involution |
| `Sequences.ReverseInvolution` | predictors/attention_predictor.py:168-169 | reversing a string twice gives it back |

## Left out

- The constructor's `None` defaults for `rnn_cell`, `rnn_regularizer`, `num_attention_units`, `label_map` and `loss` are not modelled: these arguments are required values in `Config`. The failures a predictor built with them hits are therefore not modelled: `num_classes`, `provide_groundtruth` and `postprocess` raise `AttributeError` on a `None` label map, and `loss` calls `None`.
- The numeric library code is not modelled: Bahdanau attention scoring, `AttentionWrapper`'s step, the RNN cell, the dense output layer, the one-hot embedding, `BasicDecoder`, `TrainingHelper`, `BeamSearchDecoder` and `dynamic_decode`. These are foreign float computations. They appear as opaque values (`Handle`, `Logits`, `Scores`) and as the `decode` parameter.
- Beam ranking, score order, end-token termination and `output_lengths <= max_num_steps` belong to that library code. The model passes the output lengths through and does not assume a bound on them.
- The numeric loss and the regulariser penalty are not modelled. The loss is a function-valued field of the configuration. Only the filtered weight list given to `apply_regularization` is modelled, not the registration's side effect.
- The regularisation is registered before the type assertions at lines 122 and 128. The model reports the filtered list only on a successful call.
- Variable and name scopes, the `scope` arguments, dtypes (`tf.int64`, `tf.float32`), static versus dynamic shape queries and graph construction are not modelled.
- The label map's text encoding and decoding and the custom string-reversal ops are not modelled. They are function fields of `LabelMap` and plain sequence reversal.
- Beam-search outputs have shape batch × time × beam in the library. The model treats predicted ids as a list of label rows, one per hypothesis.
- `tf.concat` also needs the channel widths to agree. The model checks only that batch sizes agree (`BatchMismatch`).
- A multi-attention `predict` over feature maps with different batch sizes is not rejected. The source does not check this either; the library may reject it later.
- AttentionPredictor.Predictor.Create: a `beam_width` of `None` in inference raises `TypeError` under Python 3 and `ValueError` under Python 2. The model gives `InvalidBeamWidth` for both.
- The ground-truth dictionary is typed by the object invariant `Valid()`: its three keys hold label rows or lengths. This holds because only `ProvideGroundtruth` writes them. `Loss` and `Predict` require it.
