/** What the statistics scripts need of a pandas table: a cell is either missing (NaN) or
    holds a value, kept as its text, and a long table is the concatenation of the blocks of
    rows one wide row turns into. */
module Tables {
  /** A cell of a CSV read by pandas. */
  datatype Cell = Missing | Text(text: string)

  /** The blocks one after the other. */
  function Flatten<T>(blocks: seq<seq<T>>): seq<T>
    decreases |blocks|
  {
    if blocks == [] then [] else Flatten(blocks[..|blocks| - 1]) + blocks[|blocks| - 1]
  }

  /** Appending one block. */
  lemma FlattenSnoc<T>(blocks: seq<seq<T>>, i: nat)
    requires i < |blocks|
    ensures Flatten(blocks[..i + 1]) == Flatten(blocks[..i]) + blocks[i]
  {
    assert blocks[..i + 1][..i] == blocks[..i];
  }

  /** With blocks of equal width `w`, element `j` of block `i` sits at `i * w + j`. */
  lemma {:induction false} FlattenUniform<T>(blocks: seq<seq<T>>, w: nat, i: nat, j: nat)
    requires forall k :: 0 <= k < |blocks| ==> |blocks[k]| == w
    requires i < |blocks| && j < w
    ensures |Flatten(blocks)| == |blocks| * w
    ensures i * w + j < |Flatten(blocks)| && Flatten(blocks)[i * w + j] == blocks[i][j]
    decreases |blocks|
  {
    var n := |blocks| - 1;
    var front := blocks[..n];
    assert Flatten(blocks) == Flatten(front) + blocks[n];
    if i < n {
      FlattenUniform(front, w, i, j);
    } else {
      if n > 0 {
        FlattenUniform(front, w, 0, j);
      } else {
        assert Flatten(front) == [];
      }
    }
  }
}
