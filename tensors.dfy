/** The few tensor operations the predictor applies itself, on batch-major
    nested sequences: `tf.concat(..., axis=1)`, `tf.fill([batch, 1], v)` and
    `seq2seq.tile_batch`. Index 0 of every tensor is the batch index. */
module Tensors {
  import opened Sequences

  /** Row `b` of the concatenation along axis 1: the `b`-th rows of all parts, joined in order. */
  function JoinedRow<T>(parts: seq<seq<seq<T>>>, b: nat): (row: seq<T>)
    requires forall k :: 0 <= k < |parts| ==> b < |parts[k]|
  {
    if parts == [] then [] else parts[0][b] + JoinedRow(parts[1..], b)
  }

  /** Where part `k` begins inside joined row `b`: the widths of the parts before it, summed. */
  function Offset<T>(parts: seq<seq<seq<T>>>, b: nat, k: nat): (offset: nat)
    requires k <= |parts|
    requires forall j :: 0 <= j < |parts| ==> b < |parts[j]|
  {
    if k == 0 then 0 else |parts[0][b]| + Offset(parts[1..], b, k - 1)
  }

  /** A joined row is exactly as wide as all its parts together. */
  lemma {:induction false} JoinedRowLength<T>(parts: seq<seq<seq<T>>>, b: nat)
    requires forall k :: 0 <= k < |parts| ==> b < |parts[k]|
    ensures |JoinedRow(parts, b)| == Offset(parts, b, |parts|)
  {
    if parts != [] {
      JoinedRowLength(parts[1..], b);
    }
  }

  /** Part `k`'s row `b` sits, unchanged, at its offset inside joined row `b`. */
  lemma {:induction false} JoinedRowSegment<T>(parts: seq<seq<seq<T>>>, b: nat, k: nat)
    requires k < |parts|
    requires forall j :: 0 <= j < |parts| ==> b < |parts[j]|
    ensures Offset(parts, b, k) + |parts[k][b]| <= |JoinedRow(parts, b)|
    ensures JoinedRow(parts, b)[Offset(parts, b, k)..Offset(parts, b, k) + |parts[k][b]|] == parts[k][b]
  {
    JoinedRowLength(parts[1..], b);
    if k > 0 {
      JoinedRowSegment(parts[1..], b, k - 1);
      assert parts[1..][k - 1] == parts[k];
    }
  }

  /** `tf.concat(parts, axis=1)` over parts that share the batch size `batch`. */
  function ConcatAxis1<T>(parts: seq<seq<seq<T>>>, batch: nat): (r: seq<seq<T>>)
    requires forall k :: 0 <= k < |parts| ==> |parts[k]| == batch
    ensures |r| == batch
    ensures forall b :: 0 <= b < batch ==> r[b] == JoinedRow(parts, b)
  {
    seq(batch, b requires 0 <= b < batch => JoinedRow(parts, b))
  }

  /** `tf.fill([batch, 1], v)`: a one-column tensor holding `v` in every row. */
  function FillColumn<T>(batch: nat, v: T): (r: seq<seq<T>>)
    ensures |r| == batch
    ensures forall b :: 0 <= b < batch ==> r[b] == [v]
  {
    seq(batch, _ => [v])
  }

  /** `seq2seq.tile_batch(s, multiplier)`: each batch entry is repeated
      `multiplier` times in a row, one copy per beam. */
  function TileBatch<T>(s: seq<T>, multiplier: nat): (r: seq<T>)
    ensures |r| == |s| * multiplier
  {
    if s == [] then []
    else
      var rest := TileBatch(s[1..], multiplier);
      assert |rest| == (|s| - 1) * multiplier;
      Repeat(s[0], multiplier) + rest
  }

  /** Beam `j` of batch entry `b` in the tiled tensor is a copy of entry `b`. */
  lemma {:induction false} TileBatchAt<T>(s: seq<T>, multiplier: nat, b: nat, j: nat)
    requires b < |s| && j < multiplier
    ensures b * multiplier + j < |TileBatch(s, multiplier)|
    ensures TileBatch(s, multiplier)[b * multiplier + j] == s[b]
  {
    var head := Repeat(s[0], multiplier);
    var rest := TileBatch(s[1..], multiplier);
    assert TileBatch(s, multiplier) == head + rest;
    if b > 0 {
      TileBatchAt(s[1..], multiplier, b - 1, j);
      assert b * multiplier + j == multiplier + ((b - 1) * multiplier + j);
    }
  }

  lemma MulMonotone(a: nat, b: nat, m: nat)
    requires a <= b
    ensures a * m <= b * m
  {
  }

  lemma DivMod(i: nat, m: nat)
    requires m > 0
    ensures i == (i / m) * m + i % m && 0 <= i % m < m
  {
  }

  lemma DivBound(i: nat, n: nat, m: nat)
    requires m > 0 && i < n * m
    ensures i / m < n
  {
    DivMod(i, m);
    if i / m >= n {
      MulMonotone(n, i / m, m);
    }
  }

  /** Every entry of the tiled tensor is the copy of batch entry `i / multiplier`. */
  lemma TileBatchEntry<T>(s: seq<T>, multiplier: nat, i: nat)
    requires i < |TileBatch(s, multiplier)|
    ensures multiplier > 0 && i / multiplier < |s|
    ensures TileBatch(s, multiplier)[i] == s[i / multiplier]
  {
    DivMod(i, multiplier);
    DivBound(i, |s|, multiplier);
    TileBatchAt(s, multiplier, i / multiplier, i % multiplier);
  }

  /** Row `b` of the concatenation of three parts. */
  lemma JoinedRowOfThree<T>(x: seq<seq<T>>, y: seq<seq<T>>, z: seq<seq<T>>, b: nat)
    requires b < |x| && b < |y| && b < |z|
    ensures JoinedRow([x, y, z], b) == x[b] + y[b] + z[b]
  {
    var parts := [x, y, z];
    assert parts[1..] == [y, z];
    assert parts[1..][1..] == [z];
    assert parts[1..][1..][1..] == [];
    assert JoinedRow([z], b) == z[b] + [];
  }
}
