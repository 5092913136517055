/** The label map (vocabulary codec) the predictor is configured with. Its
    per-text encoding and decoding are not part of this model: they are
    carried as functions. What the predictor relies on is the batch
    contract of `text_to_labels`: every text encoded, each row padded with
    `pad_value` up to the longest row of the batch, and the true lengths. */
module LabelMaps {
  import opened Sequences

  datatype LabelMap = LabelMap(
    numClasses: nat,                 // size of the vocabulary, sentinels excluded
    encode: string -> seq<int>,      // one text to its label ids
    decode: seq<int> -> string)      // one row of label ids back to text

  /** The width of a padded batch: the length of its longest row (0 for an empty batch). */
  function MaxLength(rows: seq<seq<int>>): (w: nat)
    ensures forall i :: 0 <= i < |rows| ==> |rows[i]| <= w
    ensures rows == [] ==> w == 0
    ensures rows != [] ==> exists i :: 0 <= i < |rows| && |rows[i]| == w
  {
    if rows == [] then 0
    else
      var rest := MaxLength(rows[1..]);
      assert forall i :: 1 <= i < |rows| ==> rows[i] == rows[1..][i - 1];
      if |rows[0]| >= rest then |rows[0]|
      else
        var k :| 0 <= k < |rows[1..]| && |rows[1..][k]| == rest;
        assert |rows[k + 1]| == rest;
        rest
  }

  /** The label ids of every text of the batch, unpadded. */
  function EncodeAll(lm: LabelMap, texts: seq<string>): (codes: seq<seq<int>>)
    ensures |codes| == |texts|
    ensures forall i :: 0 <= i < |texts| ==> codes[i] == lm.encode(texts[i])
  {
    seq(|texts|, i requires 0 <= i < |texts| => lm.encode(texts[i]))
  }

  /** One row of label ids, padded with `pad` up to width `w`. */
  function PadRow(code: seq<int>, w: nat, pad: int): (row: seq<int>)
    requires |code| <= w
    ensures |row| == w
    ensures row[..|code|] == code
    ensures forall j :: |code| <= j < w ==> row[j] == pad
  {
    assert (code + Repeat(pad, w - |code|))[..|code|] == code;
    code + Repeat(pad, w - |code|)
  }

  datatype EncodedBatch = EncodedBatch(labels: seq<seq<int>>, lengths: seq<int>)

  /** `text_to_labels(texts, pad_value=pad, return_lengths=True)`. */
  function TextToLabels(lm: LabelMap, texts: seq<string>, pad: int): (r: EncodedBatch)
    ensures |r.labels| == |r.lengths| == |texts|
    ensures forall i :: 0 <= i < |texts| ==>
      var w := MaxLength(EncodeAll(lm, texts));
      var code := lm.encode(texts[i]);
      && r.lengths[i] == |code| <= w
      && |r.labels[i]| == w
      && r.labels[i][..|code|] == code
      && forall j :: |code| <= j < w ==> r.labels[i][j] == pad
  {
    var codes := EncodeAll(lm, texts);
    var w := MaxLength(codes);
    EncodedBatch(
      seq(|texts|, i requires 0 <= i < |texts| => PadRow(codes[i], w, pad)),
      seq(|texts|, i requires 0 <= i < |texts| => |codes[i]|))
  }

  /** Row `i` of `text_to_labels` is the text's encoding followed by exactly
      enough `pad` values to reach the batch width. */
  lemma TextToLabelsRow(lm: LabelMap, texts: seq<string>, pad: int, i: nat)
    requires i < |texts|
    ensures
      var w := MaxLength(EncodeAll(lm, texts));
      var code := lm.encode(texts[i]);
      && |code| <= w
      && TextToLabels(lm, texts, pad).labels[i] == code + Repeat(pad, w - |code|)
      && TextToLabels(lm, texts, pad).lengths[i] == |code|
  {
    var w := MaxLength(EncodeAll(lm, texts));
    var code := lm.encode(texts[i]);
    var row := TextToLabels(lm, texts, pad).labels[i];
    var padded := code + Repeat(pad, w - |code|);
    assert |row| == |padded|;
    forall j | 0 <= j < |row|
      ensures row[j] == padded[j]
    {
      if j < |code| {
        assert row[..|code|][j] == row[j];
      }
    }
  }
}
