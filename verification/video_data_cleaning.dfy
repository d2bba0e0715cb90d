/** statistics/video_data_cleaning.py: the wide → long reshape of the voice/gesture
    evaluation form. Every form row is one participant, numbered from 1; its answer columns
    alternate voice and gesture scores, one pair per repetition. Reading and writing the CSVs
    and the numeric coercion of the scores are not part of this model. */
module VideoCleaning {
  import opened Tables

  /** The two questions asked per repetition. */
  datatype Question = Voice | Gesture

  /** The question's name in the long table. */
  function QuestionName(q: Question): string {
    match q
    case Voice => "voice"
    case Gesture => "gesture"
  }

  /** The question of answer column `idx`. */
  function QuestionOf(idx: nat): Question {
    if idx % 2 == 0 then Voice else Gesture
  }

  /** The repetition of answer column `idx`, from 1. */
  function RepetitionOf(idx: nat): int {
    idx / 2 + 1
  }

  /** Every answer column is one (repetition, question) pair and every pair with a
      repetition from 1 on is one answer column: the two maps are inverse. */
  lemma ColumnIndexRoundTrip(idx: nat, repetition: int, q: Question)
    ensures RepetitionOf(idx) >= 1
    ensures 2 * (RepetitionOf(idx) - 1) + (if QuestionOf(idx) == Voice then 0 else 1) == idx
    ensures repetition >= 1 ==> var k := 2 * (repetition - 1) + (if q == Voice then 0 else 1);
                                k >= 0 && RepetitionOf(k) == repetition && QuestionOf(k) == q
  {
  }

  /** One row of the long table. */
  datatype LongRow = LongRow(participant: nat, repetition: int, question: Question, score: Cell)

  /** `df_raw.columns[1:-1]` once the participant column is added: every column but the
      timestamp. */
  function ResponseCells(row: seq<Cell>): seq<Cell> {
    if row == [] then [] else row[1..]
  }

  /** The long rows of one form row. */
  function ParticipantRows(participant: nat, row: seq<Cell>): seq<LongRow> {
    var cells := ResponseCells(row);
    seq(|cells|, idx requires 0 <= idx < |cells| => LongRow(participant, RepetitionOf(idx), QuestionOf(idx), cells[idx]))
  }

  /** Each form row's long rows, participants numbered from 1. */
  function ParticipantBlocks(table: seq<seq<Cell>>): (b: seq<seq<LongRow>>)
    ensures |b| == |table|
  {
    seq(|table|, i requires 0 <= i < |table| => ParticipantRows(i + 1, table[i]))
  }

  /** `long_rows`: the form rows' long rows, participant after participant. */
  function LongRows(table: seq<seq<Cell>>): seq<LongRow> {
    Flatten(ParticipantBlocks(table))
  }

  /** In a table whose rows all have `width >= 1` cells, exactly one long row is emitted per
      (participant, answer column), in row-major order: answer column `idx` of form row `i`
      is long row `i * (width - 1) + idx`, participant `i + 1`, repetition `idx / 2 + 1`,
      voice for an even `idx` and gesture for an odd one, with the cell after the timestamp
      as its score. */
  lemma LongRowsAt(table: seq<seq<Cell>>, width: nat, i: nat, idx: nat)
    requires width >= 1 && forall k :: 0 <= k < |table| ==> |table[k]| == width
    requires i < |table| && idx < width - 1
    ensures var rows, w := LongRows(table), width - 1;
            && |rows| == |table| * w && i * w + idx < |rows|
            && rows[i * w + idx] == LongRow(i + 1, idx / 2 + 1, if idx % 2 == 0 then Voice else Gesture, table[i][idx + 1])
  {
    FlattenUniform(ParticipantBlocks(table), width - 1, i, idx);
  }

  /** The script's nested loop over the form rows and their answer columns. */
  method Clean(table: seq<seq<Cell>>) returns (rows: seq<LongRow>)
    ensures rows == LongRows(table)
  {
    ghost var blocks := ParticipantBlocks(table);
    rows := [];
    var i := 0;
    while i < |table|
      invariant i <= |table|
      invariant rows == Flatten(blocks[..i])
    {
      var participant := i + 1;
      var cells := ResponseCells(table[i]);
      ghost var done := rows;
      var idx := 0;
      while idx < |cells|
        invariant idx <= |cells|
        invariant rows == done + blocks[i][..idx]
      {
        var repetition := idx / 2 + 1;
        var question := if idx % 2 == 0 then Voice else Gesture;
        rows := rows + [LongRow(participant, repetition, question, cells[idx])];
        assert blocks[i][..idx + 1] == blocks[i][..idx] + [blocks[i][idx]];
        idx := idx + 1;
      }
      assert blocks[i][..idx] == blocks[i];
      FlattenSnoc(blocks, i);
      i := i + 1;
    }
    assert blocks[..i] == blocks;
  }
}
