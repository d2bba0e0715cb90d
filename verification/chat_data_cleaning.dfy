/** statistics/chat_data_cleaning.py: the wide → long reshape of the chat evaluation forms.
    Every form row is one rater; its answer columns come in threes per turn (relevance to
    the current message, relevance to the history, friendliness letters). The LLM's own
    friendliness labels for the same chat are appended as rater "llm". Listing the files,
    reading and writing CSVs and the final numeric coercion are not part of this model: a
    chat is given as its id, its table of cells and, when present, the LLM file's
    `user_friendliness_score` column. */
module ChatCleaning {
  import opened Results
  import opened PyStrings
  import opened Tables

  /** `part.split(":", 1)[0]` for a part that holds a colon. */
  function BeforeColon(part: string): string {
    match IndexOf(part, ":")
    case None => part
    case Some(k) => part[..k]
  }

  /** The labels of the `;`-separated parts: for each stripped part that holds a colon, the
      text before its first colon. */
  function PartLetters(parts: seq<string>): seq<string>
    decreases |parts|
  {
    if parts == [] then []
    else
      var part := Strip(parts[|parts| - 1]);
      PartLetters(parts[..|parts| - 1]) + (if ':' in part then [BeforeColon(part)] else [])
  }

  /** `extract_friendliness_letters` */
  function FriendlinessLetters(value: Cell): string {
    if value.Missing? || value.text == "" then "" else Join(PartLetters(Split(value.text, ";")), "")
  }

  /** `extract_friendliness_letters`: the loop over the parts. */
  method ExtractFriendlinessLetters(value: Cell) returns (r: string)
    ensures r == FriendlinessLetters(value)
  {
    hide Strip, BeforeColon, Split, Join;
    if value.Missing? || value.text == "" {
      return "";
    }
    var parts := Split(value.text, ";");
    var letters: seq<string> := [];
    var i := 0;
    while i < |parts|
      invariant i <= |parts|
      invariant letters == PartLetters(parts[..i])
    {
      var part := Strip(parts[i]);
      if ':' in part {
        letters := letters + [BeforeColon(part)];
      }
      assert parts[..i + 1][..i] == parts[..i];
      i := i + 1;
    }
    assert parts[..i] == parts;
    r := Join(letters, "");
  }

  /** One answered label, as a form writes it: optional leading blanks, the label, a colon and
      a note. */
  function Answer(pad: string, tag: string, note: string): string {
    pad + tag + ":" + note
  }

  /** A label the extractor gives back: it starts with a non-space character and holds
      neither separator. */
  predicate PlainLabel(tag: string) {
    |tag| > 0 && !IsSpace(tag[0]) && ':' !in tag && ';' !in tag
  }

  predicate Blank(pad: string) {
    forall i :: 0 <= i < |pad| ==> IsSpace(pad[i])
  }

  /** The extractor recovers the label of one answered part. */
  lemma AnswerLetter(pad: string, tag: string, note: string)
    requires Blank(pad) && PlainLabel(tag)
    ensures var part := Strip(Answer(pad, tag, note));
            ':' in part && BeforeColon(part) == tag
  {
    hide Strip, IndexOf;
    var head := tag + ":";
    StripKeepsHead(pad, head, note);
    assert pad + head + note == Answer(pad, tag, note);
    var part := Strip(Answer(pad, tag, note));
    var rest := part[|head|..];
    assert part == tag + ":" + rest by {
      assert part == head + rest;
    }
    assert part[|tag|] == ':';
    IndexOfAfterPrefix(tag, ":", rest);
    assert part[..|tag|] == tag;
  }

  /** The letters of answered parts are their labels, in order. */
  lemma {:induction false} PartLettersOfAnswers(pads: seq<string>, tags: seq<string>, notes: seq<string>)
    requires |pads| == |tags| == |notes|
    requires forall i :: 0 <= i < |tags| ==> Blank(pads[i]) && PlainLabel(tags[i])
    ensures PartLetters(seq(|tags|, i requires 0 <= i < |tags| => Answer(pads[i], tags[i], notes[i]))) == tags
    decreases |tags|
  {
    hide Strip, BeforeColon, Answer;
    var parts := seq(|tags|, i requires 0 <= i < |tags| => Answer(pads[i], tags[i], notes[i]));
    if tags != [] {
      var n := |tags| - 1;
      var front := seq(n, i requires 0 <= i < n => Answer(pads[..n][i], tags[..n][i], notes[..n][i]));
      PartLettersOfAnswers(pads[..n], tags[..n], notes[..n]);
      assert parts[..n] == front;
      AnswerLetter(pads[n], tags[n], notes[n]);
      assert tags[..n] + [tags[n]] == tags;
    }
  }

  /** A friendliness answer written as `;`-separated labelled parts gives back exactly its
      labels, concatenated in order; a missing or empty answer gives no letters. */
  lemma LettersRoundTrip(pads: seq<string>, tags: seq<string>, notes: seq<string>)
    requires |pads| == |tags| == |notes| >= 1
    requires forall i :: 0 <= i < |tags| ==> Blank(pads[i]) && PlainLabel(tags[i]) && ';' !in notes[i]
    ensures var parts := seq(|tags|, i requires 0 <= i < |tags| => Answer(pads[i], tags[i], notes[i]));
            FriendlinessLetters(Text(Join(parts, ";"))) == Join(tags, "")
    ensures FriendlinessLetters(Missing) == "" && FriendlinessLetters(Text("")) == ""
  {
    hide Strip, BeforeColon, Split, IndexOf;
    var parts := seq(|tags|, i requires 0 <= i < |tags| => Answer(pads[i], tags[i], notes[i]));
    forall i | 0 <= i < |parts| ensures ";"[0] !in parts[i] {
      assert ';' !in pads[i] by {
        forall k | 0 <= k < |pads[i]| ensures pads[i][k] != ';' { assert IsSpace(pads[i][k]); }
      }
      assert parts[i] == pads[i] + tags[i] + ":" + notes[i];
    }
    SplitJoin(parts, ";");
    PartLettersOfAnswers(pads, tags, notes);
    assert Join(parts, ";") != "" by {
      assert |parts| >= 1;
      JoinNonEmpty(parts, ";");
    }
  }

  lemma {:induction false} JoinNonEmpty(parts: seq<string>, sep: string)
    requires |parts| >= 1 && |parts[0]| > 0
    ensures Join(parts, sep) != ""
  {
  }

  /** The three answers asked per turn. */
  datatype Dimension = RelevanceCurrent | RelevanceHistory | FriendlinessScore

  /** The dimension's name in the long table. */
  function DimensionName(d: Dimension): string {
    match d
    case RelevanceCurrent => "nao_relevance_current"
    case RelevanceHistory => "nao_relevance_history"
    case FriendlinessScore => "user_friendliness_score"
  }

  /** The position of a dimension within its turn's three columns. */
  function DimensionIndex(d: Dimension): nat {
    match d
    case RelevanceCurrent => 0
    case RelevanceHistory => 1
    case FriendlinessScore => 2
  }

  /** The dimension of answer column `idx`. */
  function DimensionOf(idx: nat): Dimension {
    if idx % 3 == 0 then RelevanceCurrent else if idx % 3 == 1 then RelevanceHistory else FriendlinessScore
  }

  /** The turn of answer column `idx`, from 1. */
  function TurnOf(idx: nat): int {
    idx / 3 + 1
  }

  /** Every answer column is one (turn, dimension) pair and every pair with a turn from 1 on
      is one answer column: the two maps are inverse. */
  lemma ColumnIndexRoundTrip(idx: nat, turn: int, d: Dimension)
    ensures TurnOf(idx) >= 1 && 3 * (TurnOf(idx) - 1) + DimensionIndex(DimensionOf(idx)) == idx
    ensures turn >= 1 ==> var k := 3 * (turn - 1) + DimensionIndex(d);
                          k >= 0 && TurnOf(k) == turn && DimensionOf(k) == d
  {
  }

  /** Who filled in a row: a form participant, numbered from 1, or the LLM. */
  datatype Rater = Human(number: nat) | Llm

  /** One row of the long table. */
  datatype LongRow = LongRow(chatId: string, rater: Rater, turn: int, dimension: Dimension, value: Cell)

  /** `df_raw.columns[1:-1]` once the rater column is added: every column but the timestamp. */
  function ResponseCells(row: seq<Cell>): seq<Cell> {
    if row == [] then [] else row[1..]
  }

  /** The long row of answer column `idx` of rater `rater`: friendliness answers become
      their letters, other answers pass through unchanged. */
  function CellRow(chatId: string, rater: nat, idx: nat, cell: Cell): LongRow {
    var d := DimensionOf(idx);
    LongRow(chatId, Human(rater), TurnOf(idx), d, if d == FriendlinessScore then Text(FriendlinessLetters(cell)) else cell)
  }

  /** The long rows of one form row. */
  function RaterRows(chatId: string, rater: nat, row: seq<Cell>): seq<LongRow> {
    var cells := ResponseCells(row);
    seq(|cells|, idx requires 0 <= idx < |cells| => CellRow(chatId, rater, idx, cells[idx]))
  }

  /** The long rows of a chat's form table, rater after rater, raters numbered from 1. */
  function HumanRows(chatId: string, table: seq<seq<Cell>>): seq<LongRow> {
    Flatten(RaterBlocks(chatId, table))
  }

  /** Each form row's long rows, its rater numbered from 1. */
  function RaterBlocks(chatId: string, table: seq<seq<Cell>>): (b: seq<seq<LongRow>>)
    ensures |b| == |table|
  {
    seq(|table|, i requires 0 <= i < |table| => RaterRows(chatId, i + 1, table[i]))
  }

  /** The LLM's rows: the first row of its file is skipped and row `i` after it is turn
      `i + 1`; its value is taken as it is. */
  function LlmRows(chatId: string, scores: seq<Cell>): seq<LongRow> {
    if scores == [] then []
    else seq(|scores| - 1, i requires 0 <= i < |scores| - 1 => LongRow(chatId, Llm, i + 1, FriendlinessScore, scores[i + 1]))
  }

  /** A chat's evaluation: its id, its form table and the LLM file's friendliness column. */
  datatype ChatFile = ChatFile(chatId: string, table: seq<seq<Cell>>, llm: Option<seq<Cell>>)

  /** Everything one chat contributes to the long table. */
  function FileRows(f: ChatFile): seq<LongRow> {
    HumanRows(f.chatId, f.table) + (if f.llm.Some? then LlmRows(f.chatId, f.llm.value) else [])
  }

  /** The long table of all chats, chat after chat. */
  function AllRows(files: seq<ChatFile>): seq<LongRow> {
    Flatten(FileBlocks(files))
  }

  function FileBlocks(files: seq<ChatFile>): (b: seq<seq<LongRow>>)
    ensures |b| == |files|
  {
    seq(|files|, k requires 0 <= k < |files| => FileRows(files[k]))
  }

  /** In a table whose rows all have `width >= 1` cells, answer column `idx` of form row `i`
      is long row `i * (width - 1) + idx`: rater `i + 1`, turn `idx / 3 + 1`, the dimension
      of `idx % 3`, and the cell after the timestamp, reduced to its letters exactly when it
      is a friendliness answer. */
  lemma HumanRowsAt(chatId: string, table: seq<seq<Cell>>, width: nat, i: nat, idx: nat)
    requires width >= 1 && forall k :: 0 <= k < |table| ==> |table[k]| == width
    requires i < |table| && idx < width - 1
    ensures var rows, w := HumanRows(chatId, table), width - 1;
            && |rows| == |table| * w && i * w + idx < |rows|
            && rows[i * w + idx].chatId == chatId && rows[i * w + idx].rater == Human(i + 1)
            && rows[i * w + idx].turn == idx / 3 + 1 && rows[i * w + idx].dimension == DimensionOf(idx)
            && rows[i * w + idx].value
               == (if idx % 3 == 2 then Text(FriendlinessLetters(table[i][idx + 1])) else table[i][idx + 1])
  {
    FlattenUniform(RaterBlocks(chatId, table), width - 1, i, idx);
  }

  /** The rows of one chat: the form rows rater by rater, then the LLM rows. */
  method CleanChat(f: ChatFile) returns (rows: seq<LongRow>)
    ensures rows == FileRows(f)
  {
    ghost var blocks := RaterBlocks(f.chatId, f.table);
    rows := [];
    var i := 0;
    while i < |f.table|
      invariant i <= |f.table|
      invariant rows == Flatten(blocks[..i])
    {
      var cells := ResponseCells(f.table[i]);
      ghost var done := rows;
      var idx := 0;
      while idx < |cells|
        invariant idx <= |cells|
        invariant rows == done + blocks[i][..idx]
      {
        var d := DimensionOf(idx);
        var value := cells[idx];
        if d == FriendlinessScore {
          var letters := ExtractFriendlinessLetters(cells[idx]);
          value := Text(letters);
        }
        rows := rows + [LongRow(f.chatId, Human(i + 1), idx / 3 + 1, d, value)];
        assert blocks[i][..idx + 1] == blocks[i][..idx] + [blocks[i][idx]];
        idx := idx + 1;
      }
      assert blocks[i][..idx] == blocks[i];
      FlattenSnoc(blocks, i);
      i := i + 1;
    }
    assert blocks[..i] == blocks;
    if f.llm.Some? && |f.llm.value| > 0 {
      var scores := f.llm.value;
      ghost var done := rows;
      var t := 0;
      while t < |scores| - 1
        invariant t <= |scores| - 1
        invariant rows == done + LlmRows(f.chatId, scores)[..t]
      {
        rows := rows + [LongRow(f.chatId, Llm, t + 1, FriendlinessScore, scores[t + 1])];
        t := t + 1;
      }
      assert LlmRows(f.chatId, scores)[..t] == LlmRows(f.chatId, scores);
    } else {
      assert rows == rows + [];
    }
  }

  /** The script's loop over the chat files: `all_long_rows`. */
  method CleanChats(files: seq<ChatFile>) returns (rows: seq<LongRow>)
    ensures rows == AllRows(files)
  {
    ghost var blocks := FileBlocks(files);
    rows := [];
    var k := 0;
    while k < |files|
      invariant k <= |files|
      invariant rows == Flatten(blocks[..k])
    {
      var fileRows := CleanChat(files[k]);
      FlattenSnoc(blocks, k);
      rows := rows + fileRows;
      k := k + 1;
    }
    assert blocks[..k] == blocks;
  }
}
