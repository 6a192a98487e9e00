/**
 * Zero padding of a batch of variable-length sequences into a rectangular
 * matrix, as done by `torch.nn.utils.rnn.pad_sequence(..., batch_first=True)`
 * and by `MiipherDataModule.custom_padding`: one row per sequence, width the
 * length of the longest sequence, each row the sequence followed by zeros.
 */
module Padding {

  /** The length of the longest sequence of the batch (0 for an empty batch). */
  function MaxLen<T>(rows: seq<seq<T>>): (r: nat)
    ensures forall i :: 0 <= i < |rows| ==> |rows[i]| <= r
    ensures |rows| == 0 ==> r == 0
    ensures |rows| > 0 ==> exists i :: 0 <= i < |rows| && |rows[i]| == r
  {
    if |rows| == 0 then 0
    else
      var rest := MaxLen(rows[1..]);
      if rest <= |rows[0]| then |rows[0]|
      else rest
  }

  /** `row` extended with `zero` up to `width` cells. */
  function PadRow<T>(row: seq<T>, width: nat, zero: T): (r: seq<T>)
    requires |row| <= width
    ensures |r| == width
    ensures r[..|row|] == row
    ensures forall j :: |row| <= j < width ==> r[j] == zero
  {
    row + seq(width - |row|, _ => zero)
  }

  /**
   * The batch as a rectangular matrix: as many rows as sequences, in batch
   * order, all as wide as the longest sequence; row `i` starts with exactly
   * the elements of sequence `i` and holds `zero` in every later cell.
   */
  function PadToLongest<T>(rows: seq<seq<T>>, zero: T): (m: seq<seq<T>>)
    ensures |m| == |rows|
    ensures forall i :: 0 <= i < |rows| ==> |m[i]| == MaxLen(rows)
    ensures forall i, j :: 0 <= i < |rows| && 0 <= j < MaxLen(rows) ==>
              m[i][j] == if j < |rows[i]| then rows[i][j] else zero
  {
    var width := MaxLen(rows);
    seq(|rows|, i requires 0 <= i < |rows| => PadRow(rows[i], width, zero))
  }

  /** The true (unpadded) length of every sequence, in batch order. */
  function Lengths<T>(rows: seq<seq<T>>): (lens: seq<nat>)
    ensures |lens| == |rows|
    ensures forall i :: 0 <= i < |rows| ==> lens[i] == |rows[i]| && lens[i] <= MaxLen(rows)
  {
    seq(|rows|, i requires 0 <= i < |rows| => |rows[i]|)
  }

  /** Cuts row `i` of a padded matrix back to `lens[i]` cells. */
  function Unpad<T>(m: seq<seq<T>>, lens: seq<nat>): seq<seq<T>>
    requires |lens| == |m|
    requires forall i :: 0 <= i < |m| ==> lens[i] <= |m[i]|
  {
    seq(|m|, i requires 0 <= i < |m| => m[i][..lens[i]])
  }

  /**
   * Padding loses nothing: the padded matrix together with the recorded
   * lengths gives back the original batch.
   */
  lemma UnpadPadToLongest<T>(rows: seq<seq<T>>, zero: T)
    ensures var m := PadToLongest(rows, zero);
            var lens := Lengths(rows);
            |lens| == |m| && (forall i :: 0 <= i < |m| ==> lens[i] <= |m[i]|) &&
            Unpad(m, lens) == rows
  {

  }
}
