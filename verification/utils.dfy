/** sir_code/utils.py: `multiline_strip` and the banner line `print_section` prints. */
module Utils {
  import opened PyStrings

  function StripEach(lines: seq<string>): (r: seq<string>)
    ensures |r| == |lines|
  {
    seq(|lines|, i requires 0 <= i < |lines| => Strip(lines[i]))
  }

  /** `multiline_strip(text)`: strip every line of `text` and join the lines with newlines. */
  function MultilineStrip(text: string): string {
    Join(StripEach(SplitLines(text)), "\n")
  }

  /** Read back line by line, the result of `multiline_strip` has one line per input line
      (as `splitlines` counts them), each the stripped input line, so no line begins or ends
      with whitespace; an empty text gives an empty result. */
  lemma MultilineStripLines(text: string)
    ensures text == [] ==> MultilineStrip(text) == ""
    ensures text != [] ==> var out := Split(MultilineStrip(text), "\n");
            && |out| == |SplitLines(text)|
            && (forall i :: 0 <= i < |out| ==> out[i] == Strip(SplitLines(text)[i]))
            && (forall i :: 0 <= i < |out| && out[i] != [] ==> !IsSpace(out[i][0]) && !IsSpace(out[i][|out[i]| - 1]))
  {
    if text != [] {
      var lines := SplitLines(text);
      var stripped := StripEach(lines);
      assert forall i :: 0 <= i < |stripped| ==> '\n' !in stripped[i];
      SplitJoin(stripped, "\n");
    }
  }

  /** `s * n`, which is empty for `n <= 0`. */
  function Repeat(s: string, n: int): string
    decreases if n < 0 then 0 else n
  {
    if n <= 0 then "" else s + Repeat(s, n - 1)
  }

  lemma {:induction false} RepeatLength(s: string, n: int)
    ensures |Repeat(s, n)| == (if n <= 0 then 0 else n * |s|)
    decreases if n < 0 then 0 else n
  {
    if n > 0 { RepeatLength(s, n - 1); }
  }

  /** The line `print_section(title, length, c)` prints. */
  function PrintSection(title: string, length: int, c: string): string {
    var d, m := (length - |title| - 2) / 2, (length - |title| - 2) % 2;
    Repeat(c, d) + "|" + title + "|" + Repeat(c, d + m)
  }

  /** How many fill strings stand left of the title: half the room left beside it, rounded down,
      and none when there is no room. */
  function LeftPad(title: string, length: int): nat {
    if length < |title| + 2 then 0 else (length - |title| - 2) / 2
  }

  /** How many fill strings stand right of the title: the rest of the room. */
  function RightPad(title: string, length: int): nat {
    if length < |title| + 2 then 0 else length - |title| - 2 - LeftPad(title, length)
  }

  /** The banner is `title` between two bars, with `LeftPad` fill strings before and `RightPad`
      after; the right padding is the left one or one longer, and both are empty when the
      title does not fit. */
  lemma PrintSectionShape(title: string, length: int, c: string)
    ensures PrintSection(title, length, c)
            == Repeat(c, LeftPad(title, length)) + "|" + title + "|" + Repeat(c, RightPad(title, length))
    ensures RightPad(title, length) == LeftPad(title, length)
         || RightPad(title, length) == LeftPad(title, length) + 1
    ensures length < |title| + 2 ==> PrintSection(title, length, c) == "|" + title + "|"
  {
    var n := length - |title| - 2;
    if n < 0 {
      assert n / 2 < 0;
      assert n / 2 + n % 2 <= 0;
    }
  }

  /** With a one-character fill and room for the title, the banner is exactly `length` wide. */
  lemma PrintSectionWidth(title: string, length: int, c: string)
    requires |c| == 1 && length >= |title| + 2
    ensures |PrintSection(title, length, c)| == length
  {
    PrintSectionShape(title, length, c);
    RepeatLength(c, LeftPad(title, length));
    RepeatLength(c, RightPad(title, length));
  }
}
