/** The `BahdanauAttentionPredictor`: the bookkeeping layer a scene-text
    recogniser puts around a sequence-to-sequence library. The library's
    numeric parts (attention scoring, the recurrent step, beam search and the
    decode loop) are not modelled: the predictor hands the library a
    `DecoderSetup` and receives `Decoded` outputs through the `decode`
    parameter of `Predict`. Everything the predictor computes itself is
    modelled: configuration checking, reserved labels, which attention
    mechanisms are built over which memory, beam expansion, start tokens,
    the regulariser's weight filter, the ground-truth sequences and the
    contracts of `loss` and `postprocess`. */
module AttentionPredictor {
  import opened Wrappers
  import opened Sequences
  import opened Tensors
  import opened LabelMaps

  /** The reserved label ids (the `start_label` and `end_label` properties). */
  const START_LABEL: int := 0
  const END_LABEL: int := 1

  /** Names of regularised weights end with this suffix. */
  const KERNEL_SUFFIX: string := "kernel"

  // Keys of the ground-truth dictionary.
  const DECODER_INPUTS: string := "decoder_inputs"
  const DECODER_TARGETS: string := "decoder_targets"
  const DECODER_LENGTHS: string := "decoder_lengths"

  // Keys of the predictions dictionary.
  const LABELS: string := "labels"
  const LOGITS: string := "logits"
  const SCORES: string := "scores"

  /** One channel vector of a feature map. */
  type Channels = seq<real>
  /** A feature map, indexed [batch][height][position]; height must be 1. */
  type FeatureMap = seq<seq<seq<Channels>>>
  /** A feature sequence (attention memory), indexed [batch][position]. */
  type FeatureSequence = seq<seq<Channels>>
  /** Float tensors the predictor only passes along. */
  type Logits = seq<seq<seq<real>>>
  type Scores = seq<seq<real>>

  /** An opaque library object: the RNN cell or the regulariser. */
  datatype Handle = Handle(id: nat)

  /** A trainable weight of the attention cell, known here by its op name. */
  datatype Weight = Weight(name: string)

  /** The loss callable: (logits, targets, lengths) to a scalar. */
  type LossFn = (Logits, seq<seq<int>>, seq<int>) -> real

  /** The constructor's arguments; fixed for the life of a predictor. */
  datatype Config = Config(
    rnnCell: Handle,
    rnnRegularizer: Handle,
    numAttentionUnits: nat,
    maxNumSteps: Option<nat>,   // None: the decode loop has no iteration cap
    multiAttention: bool,
    beamWidth: Option<int>,     // None when not given
    reverse: bool,
    labelMap: LabelMap,
    loss: LossFn,
    isTraining: bool)

  /** The exceptions the predictor raises, or that its own steps raise. */
  datatype PredictorError =
    | InvalidBeamWidth          // inference with a beam width that is not > 0
    | NotListOrTuple            // `feature_maps` is not a list or tuple
    | EmptyFeatureMaps          // `tf.concat` of no sequences, or `feature_maps[0]` of an empty list
    | SqueezeFailed             // a feature map whose axis 1 is not of size 1
    | BatchMismatch             // shared attention over sequences of different batch sizes
    | MissingGroundtruth        // the ground-truth dictionary lacks a key that is read
    | UnexpectedDecoderOutput   // the decoder's output is not of the mode's type
    | MissingLogits             // `loss` given a dictionary without `logits`
    | MissingScores             // `postprocess` given a dictionary without `scores`

  /** The constructor's eager check: inference needs a positive beam width. */
  predicate BeamWidthAccepted(c: Config)
  {
    c.isTraining || (c.beamWidth.Some? && c.beamWidth.value > 0)
  }

  /** `num_classes`: the vocabulary plus the two sentinels, both of which are
      valid, distinct class ids. */
  function NumClasses(lm: LabelMap): (n: nat)
    ensures n == lm.numClasses + 2
    ensures 0 <= START_LABEL < END_LABEL < n
  {
    lm.numClasses + 2
  }

  // ---------------------------------------------------------------------
  // Attention mechanisms

  datatype Mechanism = BahdanauAttention(numUnits: nat, memory: FeatureSequence)

  /** One mechanism over shared memory, or one per feature sequence. */
  datatype Attention =
    | SharedAttention(mechanism: Mechanism)
    | MultiAttention(mechanisms: seq<Mechanism>)

  function MechanismCount(a: Attention): (n: nat)
  {
    match a
    case SharedAttention(_) => 1
    case MultiAttention(ms) => |ms|
  }

  /** `tf.squeeze(map, axis=1)`. */
  function SqueezeAxis1(m: FeatureMap): (r: Option<FeatureSequence>)
    ensures r.Some? <==> forall b :: 0 <= b < |m| ==> |m[b]| == 1
    ensures r.Some? ==> |r.value| == |m| && forall b :: 0 <= b < |m| ==> r.value[b] == m[b][0]
  {
    if forall b :: 0 <= b < |m| ==> |m[b]| == 1
    then Some(seq(|m|, b requires 0 <= b < |m| => m[b][0]))
    else None
  }

  /** The feature sequences: every map squeezed, in order; None if one cannot be. */
  function SqueezeAll(maps: seq<FeatureMap>): (r: Option<seq<FeatureSequence>>)
    ensures r.Some? <==> forall k :: 0 <= k < |maps| ==> SqueezeAxis1(maps[k]).Some?
    ensures r.Some? ==> |r.value| == |maps|
    ensures r.Some? ==> forall k :: 0 <= k < |maps| ==> SqueezeAxis1(maps[k]) == Some(r.value[k])
  {
    if maps == [] then Some([])
    else
      assert forall k :: 1 <= k < |maps| ==> maps[1..][k - 1] == maps[k];
      match (SqueezeAxis1(maps[0]), SqueezeAll(maps[1..]))
      case (Some(s), Some(rest)) => Some([s] + rest)
      case _ => None
  }

  /** Sequences that `tf.concat` can join along the position axis. */
  predicate BatchesAgree(sequences: seq<FeatureSequence>)
  {
    forall k :: 0 <= k < |sequences| ==> |sequences[k]| == |sequences[0]|
  }

  /** `_build_attention_mechanism`: in inference the memory is first tiled,
      one copy per beam (the source's `tf.tile_batch` is read as `seq2seq.tile_batch`). */
  function BuildMechanism(c: Config, memory: FeatureSequence): (m: Mechanism)
    requires BeamWidthAccepted(c)
    ensures m.numUnits == c.numAttentionUnits
  {
    BahdanauAttention(c.numAttentionUnits,
      if c.isTraining then memory else TileBatch(memory, c.beamWidth.value))
  }

  /** A mechanism attends over its memory unchanged in training; in inference
      over batch × beam_width entries, entry `i` being a copy of batch entry
      `i / beam_width`. */
  lemma MechanismMemory(c: Config, memory: FeatureSequence)
    requires BeamWidthAccepted(c)
    ensures c.isTraining ==> BuildMechanism(c, memory).memory == memory
    ensures !c.isTraining ==> |BuildMechanism(c, memory).memory| == |memory| * c.beamWidth.value
    ensures !c.isTraining ==> forall i :: 0 <= i < |BuildMechanism(c, memory).memory| ==>
      i / c.beamWidth.value < |memory| && BuildMechanism(c, memory).memory[i] == memory[i / c.beamWidth.value]
  {
    if !c.isTraining {
      var k := c.beamWidth.value;
      var tiled := TileBatch(memory, k);
      assert BuildMechanism(c, memory).memory == tiled;
      forall i | 0 <= i < |tiled|
        ensures i / k < |memory| && tiled[i] == memory[i / k]
      {
        TileBatchEntry(memory, k, i);
      }
    }
  }

  /** The loop of the multi-attention branch: one mechanism per feature
      sequence, appended in feature-map order. */
  method BuildPerSourceMechanisms(c: Config, sequences: seq<FeatureSequence>)
    returns (mechanisms: seq<Mechanism>)
    requires BeamWidthAccepted(c)
    ensures |mechanisms| == |sequences|
    ensures forall i :: 0 <= i < |sequences| ==> mechanisms[i] == BuildMechanism(c, sequences[i])
  {
    mechanisms := [];
    var i := 0;
    while i < |sequences|
      invariant 0 <= i <= |sequences|
      invariant |mechanisms| == i
      invariant forall j :: 0 <= j < i ==> mechanisms[j] == BuildMechanism(c, sequences[j])
    {
      mechanisms := mechanisms + [BuildMechanism(c, sequences[i])];
      i := i + 1;
    }
  }

  /** What `attention` must be when built from `sequences` under `c`. */
  ghost predicate AttentionBuiltFrom(c: Config, sequences: seq<FeatureSequence>, attention: Attention)
    requires BeamWidthAccepted(c)
  {
    if c.multiAttention then
      && attention.MultiAttention?
      && |attention.mechanisms| == |sequences|
      && forall i :: 0 <= i < |sequences| ==> attention.mechanisms[i] == BuildMechanism(c, sequences[i])
    else
      && |sequences| > 0
      && BatchesAgree(sequences)
      && attention == SharedAttention(BuildMechanism(c, ConcatAxis1(sequences, |sequences[0]|)))
  }

  // ---------------------------------------------------------------------
  // Regulariser weight filter

  /** `filter_weights`: the weights whose name ends with "kernel". */
  function FilterKernels(weights: seq<Weight>): (kept: seq<Weight>)
    ensures forall w :: w in kept <==> w in weights && EndsWith(w.name, KERNEL_SUFFIX)
  {
    if weights == [] then []
    else if EndsWith(weights[0].name, KERNEL_SUFFIX) then [weights[0]] + FilterKernels(weights[1..])
    else FilterKernels(weights[1..])
  }

  /** The filter works element by element and keeps the relative order. */
  lemma {:induction false} FilterKernelsAppend(a: seq<Weight>, b: seq<Weight>)
    ensures FilterKernels(a + b) == FilterKernels(a) + FilterKernels(b)
  {
    if a == [] {
      assert a + b == b;
    } else {
      assert (a + b)[0] == a[0];
      assert (a + b)[1..] == a[1..] + b;
      FilterKernelsAppend(a[1..], b);
    }
  }

  /** The kept weights are a subsequence of the cell's weights. */
  lemma {:induction false} FilterKernelsIsSubsequence(weights: seq<Weight>)
    ensures IsSubsequence(FilterKernels(weights), weights)
  {
    if weights != [] {
      FilterKernelsIsSubsequence(weights[1..]);
      var kept := FilterKernels(weights);
      if EndsWith(weights[0].name, KERNEL_SUFFIX) {
        assert kept[0] == weights[0] && kept[1..] == FilterKernels(weights[1..]);
      } else if kept != [] {
        assert kept[0] in kept;
        assert kept[0] != weights[0];
      }
    }
  }

  /** Filtering twice keeps the same weights as filtering once. */
  lemma {:induction false} FilterKernelsIdempotent(weights: seq<Weight>)
    ensures FilterKernels(FilterKernels(weights)) == FilterKernels(weights)
  {
    if weights != [] {
      FilterKernelsIdempotent(weights[1..]);
      if EndsWith(weights[0].name, KERNEL_SUFFIX) {
        var kept := [weights[0]] + FilterKernels(weights[1..]);
        assert kept[0] == weights[0] && kept[1..] == FilterKernels(weights[1..]);
      }
    }
  }

  // ---------------------------------------------------------------------
  // Ground truth

  /** A text in the orientation the decoder works in. */
  function Oriented(c: Config, text: string): (r: string)
  {
    if c.reverse then Reverse(text) else text
  }

  /** Orienting is an involution, whichever way `reverse` is set. */
  lemma OrientedTwice(c: Config, text: string)
    ensures Oriented(c, Oriented(c, text)) == text
  {
    if c.reverse {
      ReverseInvolution(text);
    }
  }

  /** The batch of texts after the optional `reverse_strings`. */
  function OrientAll(c: Config, texts: seq<string>): (r: seq<string>)
    ensures |r| == |texts|
    ensures forall i :: 0 <= i < |texts| ==> r[i] == Oriented(c, texts[i])
  {
    if c.reverse then seq(|texts|, i requires 0 <= i < |texts| => Reverse(texts[i])) else texts
  }

  /** The three tensors `provide_groundtruth` stores. */
  datatype GroundtruthBundle = GroundtruthBundle(
    inputs: seq<seq<int>>,
    targets: seq<seq<int>>,
    lengths: seq<int>)

  /** The tensor computation of `provide_groundtruth`. The source's `tf.concat`
      for the targets has no `axis` argument, which raises; it is taken along
      axis 1, as for the inputs. */
  function Groundtruth(c: Config, texts: seq<string>): (g: GroundtruthBundle)
    ensures |g.inputs| == |g.targets| == |g.lengths| == |texts|
  {
    WithSentinels(TextToLabels(c.labelMap, OrientAll(c, texts), END_LABEL))
  }

  /** The sentinel columns around the encoded label rows, and the lengths
      grown by 2. */
  function WithSentinels(encoded: EncodedBatch): (g: GroundtruthBundle)
    requires |encoded.labels| == |encoded.lengths|
    ensures |g.inputs| == |g.targets| == |g.lengths| == |encoded.labels|
  {
    var batch := |encoded.labels|;
    var startLabels := FillColumn(batch, START_LABEL);
    var endLabels := FillColumn(batch, END_LABEL);
    GroundtruthBundle(
      ConcatAxis1([startLabels, startLabels, encoded.labels], batch),
      ConcatAxis1([startLabels, encoded.labels, endLabels], batch),
      seq(batch, i requires 0 <= i < batch => encoded.lengths[i] + 2))
  }

  /** Row `i` with sentinels: inputs get two start sentinels in front, targets
      one start sentinel in front and one end sentinel behind. */
  lemma WithSentinelsRow(encoded: EncodedBatch, i: nat)
    requires |encoded.labels| == |encoded.lengths| && i < |encoded.labels|
    ensures WithSentinels(encoded).inputs[i] == [START_LABEL, START_LABEL] + encoded.labels[i]
    ensures WithSentinels(encoded).targets[i] == [START_LABEL] + encoded.labels[i] + [END_LABEL]
    ensures WithSentinels(encoded).lengths[i] == encoded.lengths[i] + 2
  {
    var batch := |encoded.labels|;
    var startLabels := FillColumn(batch, START_LABEL);
    var endLabels := FillColumn(batch, END_LABEL);
    JoinedRowOfThree(startLabels, startLabels, encoded.labels, i);
    JoinedRowOfThree(startLabels, encoded.labels, endLabels, i);
  }

  /** Row `i` of the ground truth. With `code` the label ids of the text (in
      decoder orientation) padded with `end_label` to the batch width `w`:
      inputs are two start sentinels then the padded labels; targets are one
      start sentinel, the padded labels and one end sentinel; both have
      `w + 2` entries; the length is the text's own length plus 2. */
  lemma GroundtruthRow(c: Config, texts: seq<string>, i: nat)
    requires i < |texts|
    ensures
      var code := c.labelMap.encode(Oriented(c, texts[i]));
      var w := MaxLength(EncodeAll(c.labelMap, OrientAll(c, texts)));
      var padded := code + Repeat(END_LABEL, w - |code|);
      var g := Groundtruth(c, texts);
      && |code| <= w
      && g.inputs[i] == [START_LABEL, START_LABEL] + padded
      && g.targets[i] == [START_LABEL] + padded + [END_LABEL]
      && |g.inputs[i]| == |g.targets[i]| == w + 2
      && g.lengths[i] == |code| + 2 <= w + 2
  {
    var oriented := OrientAll(c, texts);
    assert oriented[i] == Oriented(c, texts[i]);
    TextToLabelsRow(c.labelMap, oriented, END_LABEL, i);
    WithSentinelsRow(TextToLabels(c.labelMap, oriented, END_LABEL), i);
  }

  // ---------------------------------------------------------------------
  // What the predictor hands to the library and gets back

  datatype AttentionCell = AttentionWrapper(cell: Handle, attention: Attention, outputAttention: bool)

  /** The decoder built in `predict`, with the arguments of `dynamic_decode`. */
  datatype DecoderSetup =
    | TeacherForcing(              // TrainingHelper + BasicDecoder
        cell: AttentionCell,
        inputs: seq<seq<int>>,     // one-hot embedded with depth `numClasses`
        lengths: seq<int>,
        initialStateBatch: nat,
        numClasses: nat,           // one-hot depth and output layer units
        maximumIterations: Option<nat>)
    | BeamSearch(                  // BeamSearchDecoder
        cell: AttentionCell,
        startTokens: seq<int>,
        endToken: int,
        initialStateBatch: nat,
        beamWidth: nat,
        numClasses: nat,
        lengthPenaltyWeight: real,
        maximumIterations: Option<nat>)

  datatype DecoderOutputs =
    | BasicDecoderOutput(rnnOutput: Logits, sampleId: seq<seq<int>>)
    | BeamSearchDecoderOutput(scores: Scores, predictedIds: seq<seq<int>>)

  /** What `dynamic_decode` returns (its final state is unused). */
  datatype Decoded = Decoded(outputs: DecoderOutputs, outputLengths: seq<int>)

  /** The predictions dictionary, one variant per mode. */
  datatype Predictions =
    | TrainingPredictions(labels: seq<seq<int>>, logits: Logits)
    | InferencePredictions(labels: seq<seq<int>>, scores: Scores)
  {
    /** The dictionary's keys: `labels` always, then `logits` exactly in
        training and `scores` exactly in inference. */
    function Keys(): (keys: set<string>)
      ensures LABELS in keys
      ensures LOGITS in keys <==> TrainingPredictions?
      ensures SCORES in keys <==> InferencePredictions?
    {
      if TrainingPredictions? then {LABELS, LOGITS} else {LABELS, SCORES}
    }
  }

  /** The result of `predict`, with what it hands to the library: the decoder
      setup and the weight list given to `apply_regularization`. */
  datatype PredictResult = PredictResult(
    predictions: Predictions,
    outputLengths: seq<int>,
    decoder: DecoderSetup,
    regularized: seq<Weight>)

  /** The `feature_maps` argument: a list (or tuple) of maps, or anything else. */
  datatype FeatureMapsArg = MapList(maps: seq<FeatureMap>) | NotAList(value: FeatureMap)

  datatype PostprocessOutput = PostprocessOutput(text: seq<string>, scores: Scores)

  datatype GroundtruthValue = LabelRows(rows: seq<seq<int>>) | LengthColumn(lengths: seq<int>)

  /** The feature maps can serve as attention memory. */
  ghost predicate MemoryReady(c: Config, featureMaps: FeatureMapsArg)
  {
    && featureMaps.MapList?
    && featureMaps.maps != []
    && SqueezeAll(featureMaps.maps).Some?
    && (c.multiAttention || BatchesAgree(SqueezeAll(featureMaps.maps).value))
  }

  /** The ground truth a training decode reads is stored (inference reads none). */
  ghost predicate GroundtruthReady(c: Config, gt: map<string, GroundtruthValue>)
  {
    c.isTraining ==>
      && DECODER_INPUTS in gt && gt[DECODER_INPUTS].LabelRows?
      && DECODER_LENGTHS in gt && gt[DECODER_LENGTHS].LengthColumn?
  }

  /** The type assertion on the decoder's output: a `BasicDecoderOutput` in
      training, a `BeamSearchDecoderOutput` in inference. */
  predicate OutputMatchesMode(c: Config, outputs: DecoderOutputs)
  {
    if c.isTraining then outputs.BasicDecoderOutput? else outputs.BeamSearchDecoderOutput?
  }

  /** The decoder `predict` builds from ready feature maps: mechanisms as in
      `AttentionBuiltFrom`, a wrapper without attention output, the batch
      unchanged in training and times the beam width in inference. */
  ghost function ExpectedSetup(c: Config, maps: seq<FeatureMap>, gt: map<string, GroundtruthValue>)
    : (setup: DecoderSetup)
    requires BeamWidthAccepted(c) && MemoryReady(c, MapList(maps)) && GroundtruthReady(c, gt)
  {
    var sequences := SqueezeAll(maps).value;
    var attention :=
      if c.multiAttention
      then MultiAttention(seq(|sequences|, i requires 0 <= i < |sequences| => BuildMechanism(c, sequences[i])))
      else SharedAttention(BuildMechanism(c, ConcatAxis1(sequences, |sequences[0]|)));
    var cell := AttentionWrapper(c.rnnCell, attention, false);
    var batch := |maps[0]|;
    if c.isTraining then
      TeacherForcing(cell, gt[DECODER_INPUTS].rows, gt[DECODER_LENGTHS].lengths,
        batch, NumClasses(c.labelMap), c.maxNumSteps)
    else
      BeamSearch(cell, Repeat(START_LABEL, batch * c.beamWidth.value), END_LABEL,
        batch * c.beamWidth.value, c.beamWidth.value, NumClasses(c.labelMap), 0.0, c.maxNumSteps)
  }

  // ---------------------------------------------------------------------
  // The predictor object

  class Predictor {
    const config: Config
    /** The ground-truth dictionary written by `ProvideGroundtruth`. */
    var groundtruth: map<string, GroundtruthValue>

    ghost predicate Valid()
      reads this
    {
      && BeamWidthAccepted(config)
      && (DECODER_INPUTS in groundtruth ==> groundtruth[DECODER_INPUTS].LabelRows?)
      && (DECODER_TARGETS in groundtruth ==> groundtruth[DECODER_TARGETS].LabelRows?)
      && (DECODER_LENGTHS in groundtruth ==> groundtruth[DECODER_LENGTHS].LengthColumn?)
    }

    /** The field assignments of `__init__`. `__init__` never creates the
        ground-truth dictionary that `provide_groundtruth` writes into; here it starts empty. */
    constructor (config: Config)
      ensures this.config == config && groundtruth == map[]
      ensures BeamWidthAccepted(config) ==> Valid()
    {
      this.config := config;
      groundtruth := map[];
    }

    /** `__init__` with its eager check: fails exactly when not training and the
        beam width is not > 0; in training the beam width is never looked at. */
    static method Create(config: Config) returns (r: Result<Predictor, PredictorError>)
      ensures r.Err? <==> !config.isTraining && !(config.beamWidth.Some? && config.beamWidth.value > 0)
      ensures r.Err? ==> r.error == InvalidBeamWidth
      ensures r.Ok? ==> fresh(r.value) && r.value.config == config && r.value.groundtruth == map[]
      ensures r.Ok? ==> r.value.Valid()
    {
      var p := new Predictor(config);
      if !config.isTraining && !(config.beamWidth.Some? && config.beamWidth.value > 0) {
        return Err(InvalidBeamWidth);
      }
      return Ok(p);
    }

    /** `predict`: builds the attention mechanisms and the decoder, runs the
        library's `decode`, registers the filtered weights and returns the
        mode's predictions dictionary. Nothing of the predictor changes. */
    method Predict(featureMaps: FeatureMapsArg, trainableWeights: seq<Weight>,
                   decode: DecoderSetup -> Decoded)
      returns (r: Result<PredictResult, PredictorError>)
      requires Valid()
      // rejection of the argument, and the other error paths
      ensures featureMaps.NotAList? ==> r == Err(NotListOrTuple)
      ensures featureMaps.MapList? && SqueezeAll(featureMaps.maps).None? ==> r == Err(SqueezeFailed)
      ensures featureMaps.MapList? && featureMaps.maps == [] ==> r == Err(EmptyFeatureMaps)
      ensures featureMaps.MapList? && featureMaps.maps != [] && SqueezeAll(featureMaps.maps).Some?
        && !config.multiAttention && !BatchesAgree(SqueezeAll(featureMaps.maps).value)
        ==> r == Err(BatchMismatch)
      ensures MemoryReady(config, featureMaps) && config.isTraining
        && !(DECODER_INPUTS in groundtruth && DECODER_LENGTHS in groundtruth)
        ==> r == Err(MissingGroundtruth)
      ensures r.Ok? || r == Err(UnexpectedDecoderOutput) ==>
        MemoryReady(config, featureMaps)
        && (config.isTraining ==> DECODER_INPUTS in groundtruth && DECODER_LENGTHS in groundtruth)
      // when it succeeds: on ready input, exactly when the decoder's output has the mode's type
      ensures MemoryReady(config, featureMaps) && GroundtruthReady(config, groundtruth) ==>
        var expected := ExpectedSetup(config, featureMaps.maps, groundtruth);
        && (r.Ok? <==> OutputMatchesMode(config, decode(expected).outputs))
        && (r.Err? ==> r.error == UnexpectedDecoderOutput)
        && (r.Ok? ==> r.value.decoder == expected)
      // the attention mechanisms and the decoder
      ensures r.Ok? ==>
        var setup := r.value.decoder;
        && setup.cell.cell == config.rnnCell
        && !setup.cell.outputAttention
        && AttentionBuiltFrom(config, SqueezeAll(featureMaps.maps).value, setup.cell.attention)
        && MechanismCount(setup.cell.attention)
           == (if config.multiAttention then |featureMaps.maps| else 1)
        && setup.numClasses == NumClasses(config.labelMap)
        && setup.maximumIterations == config.maxNumSteps
      ensures r.Ok? && config.isTraining ==>
        var setup := r.value.decoder;
        && setup.TeacherForcing?
        && setup.initialStateBatch == |featureMaps.maps[0]|
        && setup.inputs == groundtruth[DECODER_INPUTS].rows
        && setup.lengths == groundtruth[DECODER_LENGTHS].lengths
      ensures r.Ok? && !config.isTraining ==>
        var setup := r.value.decoder;
        && setup.BeamSearch?
        && setup.initialStateBatch == |featureMaps.maps[0]| * config.beamWidth.value
        && setup.beamWidth == config.beamWidth.value
        && |setup.startTokens| == setup.initialStateBatch
        && (forall t :: t in setup.startTokens ==> t == START_LABEL)
        && setup.endToken == END_LABEL
        && setup.lengthPenaltyWeight == 0.0
      // regularisation and the returned dictionary
      ensures r.Ok? ==> r.value.regularized == FilterKernels(trainableWeights)
      ensures r.Ok? ==>
        var decoded := decode(r.value.decoder);
        && r.value.outputLengths == decoded.outputLengths
        && (config.isTraining ==>
              decoded.outputs.BasicDecoderOutput?
              && r.value.predictions
                 == TrainingPredictions(decoded.outputs.sampleId, decoded.outputs.rnnOutput))
        && (!config.isTraining ==>
              decoded.outputs.BeamSearchDecoderOutput?
              && r.value.predictions
                 == InferencePredictions(decoded.outputs.predictedIds, decoded.outputs.scores))
      ensures r.Ok? ==>
        r.value.predictions.Keys() == if config.isTraining then {LABELS, LOGITS} else {LABELS, SCORES}
    {
      if featureMaps.NotAList? {
        return Err(NotListOrTuple);
      }
      var maps := featureMaps.maps;
      var squeezed := SqueezeAll(maps);
      if squeezed.None? {
        return Err(SqueezeFailed);
      }
      var sequences := squeezed.value;
      if maps == [] {
        return Err(EmptyFeatureMaps);
      }

      var attention: Attention;
      if config.multiAttention {
        var mechanisms := BuildPerSourceMechanisms(config, sequences);
        assert mechanisms == seq(|sequences|, i requires 0 <= i < |sequences| => BuildMechanism(config, sequences[i]));
        attention := MultiAttention(mechanisms);
      } else {
        if !BatchesAgree(sequences) {
          return Err(BatchMismatch);
        }
        var memory := ConcatAxis1(sequences, |sequences[0]|);
        attention := SharedAttention(BuildMechanism(config, memory));
      }
      var cell := AttentionWrapper(config.rnnCell, attention, false);

      // `shape_utils` and `num_classes` are undefined names in the source: read as the
      // static batch size of the first map and `self.num_classes`.
      var batchSize := |maps[0]|;
      var numClasses := NumClasses(config.labelMap);
      var setup: DecoderSetup;
      if config.isTraining {
        // The undefined `decoder_inputs` and `decoder_inputs_lengths` are read as the
        // stored `decoder_inputs` and `decoder_lengths`.
        if DECODER_INPUTS !in groundtruth || DECODER_LENGTHS !in groundtruth {
          return Err(MissingGroundtruth);
        }
        setup := TeacherForcing(cell, groundtruth[DECODER_INPUTS].rows,
          groundtruth[DECODER_LENGTHS].lengths, batchSize, numClasses, config.maxNumSteps);
      } else {
        batchSize := batchSize * config.beamWidth.value;
        // The undefined `start_label` and `end_label` are read as the two properties.
        setup := BeamSearch(cell, Repeat(START_LABEL, batchSize), END_LABEL, batchSize,
          config.beamWidth.value, numClasses, 0.0, config.maxNumSteps);
      }

      var decoded := decode(setup);
      var regularized := FilterKernels(trainableWeights);

      var predictions: Predictions;
      if config.isTraining {
        if !decoded.outputs.BasicDecoderOutput? {
          return Err(UnexpectedDecoderOutput);
        }
        predictions := TrainingPredictions(decoded.outputs.sampleId, decoded.outputs.rnnOutput);
      } else {
        if !decoded.outputs.BeamSearchDecoderOutput? {
          return Err(UnexpectedDecoderOutput);
        }
        predictions := InferencePredictions(decoded.outputs.predictedIds, decoded.outputs.scores);
      }
      r := Ok(PredictResult(predictions, decoded.outputLengths, setup, regularized));
    }

    /** `loss`: requires `logits`, then applies the loss callable to them and
        to the stored targets and lengths. */
    function Loss(predictions: Predictions): (r: Result<real, PredictorError>)
      requires Valid()
      reads this
      ensures LOGITS !in predictions.Keys() ==> r == Err(MissingLogits)
      ensures LOGITS in predictions.Keys() && (DECODER_TARGETS !in groundtruth || DECODER_LENGTHS !in groundtruth)
        ==> r == Err(MissingGroundtruth)
      ensures r.Ok? <==>
        LOGITS in predictions.Keys() && DECODER_TARGETS in groundtruth && DECODER_LENGTHS in groundtruth
      ensures r.Ok? ==> r.value == config.loss(predictions.logits,
        groundtruth[DECODER_TARGETS].rows, groundtruth[DECODER_LENGTHS].lengths)
    {
      if !predictions.TrainingPredictions? then Err(MissingLogits)
      else if DECODER_TARGETS !in groundtruth || DECODER_LENGTHS !in groundtruth then Err(MissingGroundtruth)
      else Ok(config.loss(predictions.logits,
        groundtruth[DECODER_TARGETS].rows, groundtruth[DECODER_LENGTHS].lengths))
    }

    /** `provide_groundtruth`: stores the three ground-truth tensors under
        their keys and leaves every other key alone; afterwards `loss` on any
        training dictionary uses exactly the new targets and lengths. */
    method ProvideGroundtruth(texts: seq<string>)
      requires Valid()
      modifies this
      ensures Valid()
      ensures
        var g := Groundtruth(config, texts);
        groundtruth == old(groundtruth)[DECODER_INPUTS := LabelRows(g.inputs)]
                                       [DECODER_TARGETS := LabelRows(g.targets)]
                                       [DECODER_LENGTHS := LengthColumn(g.lengths)]
      ensures
        var g := Groundtruth(config, texts);
        forall labels, logits :: Loss(TrainingPredictions(labels, logits))
          == Ok(config.loss(logits, g.targets, g.lengths))
    {
      var g := Groundtruth(config, texts);
      groundtruth := groundtruth[DECODER_INPUTS := LabelRows(g.inputs)];
      groundtruth := groundtruth[DECODER_TARGETS := LabelRows(g.targets)];
      groundtruth := groundtruth[DECODER_LENGTHS := LengthColumn(g.lengths)];
    }

    /** `postprocess`: requires `scores`, passes them through unchanged, and
        turns every label row into text; put back into the decoder's
        orientation, each text is what the label map decodes from its row. */
    function Postprocess(predictions: Predictions): (r: Result<PostprocessOutput, PredictorError>)
      ensures SCORES !in predictions.Keys() ==> r == Err(MissingScores)
      ensures r.Ok? <==> SCORES in predictions.Keys()
      ensures r.Ok? ==> r.value.scores == predictions.scores
      ensures r.Ok? ==> |r.value.text| == |predictions.labels|
      ensures r.Ok? ==> forall i :: 0 <= i < |predictions.labels| ==>
        Oriented(config, r.value.text[i]) == config.labelMap.decode(predictions.labels[i])
    {
      if !predictions.InferencePredictions? then Err(MissingScores)
      else
        var text := seq(|predictions.labels|, i requires 0 <= i < |predictions.labels| =>
          config.labelMap.decode(predictions.labels[i]));
        var oriented := OrientAll(config, text);
        assert forall i :: 0 <= i < |text| ==> oriented[i] == Oriented(config, text[i]);
        OrientAllTwice(config, text);
        Ok(PostprocessOutput(oriented, predictions.scores))
    }

    /** The reversal round trip: if the decoder predicts, for every text, the
        labels `provide_groundtruth` encodes for it, and the label map decodes
        those labels back, then `postprocess` returns the texts in their
        original orientation. */
    lemma PostprocessRestoresText(texts: seq<string>, predictions: Predictions)
      requires predictions.InferencePredictions?
      requires |predictions.labels| == |texts|
      requires forall i :: 0 <= i < |texts| ==>
        predictions.labels[i] == config.labelMap.encode(Oriented(config, texts[i]))
      requires forall i :: 0 <= i < |texts| ==>
        config.labelMap.decode(config.labelMap.encode(Oriented(config, texts[i]))) == Oriented(config, texts[i])
      ensures Postprocess(predictions) == Ok(PostprocessOutput(texts, predictions.scores))
    {
      var out := Postprocess(predictions).value;
      forall i | 0 <= i < |texts|
        ensures out.text[i] == texts[i]
      {
        assert Oriented(config, out.text[i]) == Oriented(config, texts[i]);
        OrientedTwice(config, out.text[i]);
        OrientedTwice(config, texts[i]);
      }
      assert out.text == texts;
    }
  }

  /** Orienting a batch and then each of its texts again gives the batch back. */
  lemma OrientAllTwice(c: Config, texts: seq<string>)
    ensures forall i :: 0 <= i < |texts| ==> Oriented(c, OrientAll(c, texts)[i]) == texts[i]
  {
    forall i | 0 <= i < |texts|
      ensures Oriented(c, OrientAll(c, texts)[i]) == texts[i]
    {
      OrientedTwice(c, texts[i]);
    }
  }
}
