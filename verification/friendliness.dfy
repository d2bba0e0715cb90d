/** sir_code/user_friendliness.py: the friendliness scorer. The agent is asked which of ten
    characterisations A..J apply to the traveller's line; the letters it names carry fixed
    weights whose sum moves a score kept in [-5, 5]. */
module Friendliness {
  import opened Results
  import opened PyStrings
  import opened Utils
  import opened Agents
  import opened LabelParser

  /** The last letter of the alphabet the scorer accepts. */
  const Top: char := 'J'

  const Descriptions: seq<(string, string)> := [
    ("A", "The traveller starts with a friendly or respectful greeting"),
    ("B", "The traveller talking in a friendly or kind tone"),
    ("C", "The traveller talking in a polite tone"),
    ("D", "The traveller talking in a cold or indifferent tone"),
    ("E", "The traveller shows appreciation or thanks during the conversation"),
    ("F", "The traveller willingly shares personal stories or experiences or tastes"),
    ("G", "The traveller engages by asking questions about your stories or preferences"),
    ("H", "The traveller expresses sympathy or understanding of your experiences or stories"),
    ("I", "The traveller demonstrates impatience, tries to rush the conversation, or demands information"),
    ("J", "The traveller makes dismissive, rude, or disrespectful remarks")
  ]

  /** The weight of one letter (the `scores` table); letters outside A..J never reach it. */
  function Weight(c: char): real {
    match c
    case 'A' => 0.5
    case 'B' => 0.25
    case 'C' => 0.25
    case 'D' => -0.25
    case 'E' => 1.0
    case 'F' => 1.0
    case 'G' => 2.0
    case 'H' => 1.0
    case 'I' => -1.0
    case 'J' => -2.0
    case _ => 0.0
  }

  /** `sum(scores[c] for c in letters)` */
  function Delta(letters: string): real
    decreases |letters|
  {
    if letters == [] then 0.0 else Weight(letters[0]) + Delta(letters[1..])
  }

  lemma {:induction false} DeltaConcat(a: string, b: string)
    ensures Delta(a + b) == Delta(a) + Delta(b)
    decreases |a|
  {
    if a == [] {
      assert a + b == b;
    } else {
      assert (a + b)[0] == a[0];
      assert (a + b)[1..] == a[1..] + b;
      DeltaConcat(a[1..], b);
    }
  }

  /** Taking the letter at `k` out of `b`. */
  lemma RemoveAt(b: string, k: nat)
    requires k < |b|
    ensures var rest := b[..k] + b[k + 1..];
            Delta(b) == Weight(b[k]) + Delta(rest) && multiset(b) == multiset{b[k]} + multiset(rest)
  {
    var tail := [b[k]] + b[k + 1..];
    assert b == b[..k] + tail;
    DeltaConcat(b[..k], tail);
    DeltaConcat(b[..k], b[k + 1..]);
    assert tail[1..] == b[k + 1..];
  }

  /** The sum of the weights does not depend on the order of the letters. */
  lemma {:induction false} DeltaPermutation(a: string, b: string)
    requires multiset(a) == multiset(b)
    ensures Delta(a) == Delta(b)
    decreases |a|
  {
    if a != [] {
      assert a[0] in multiset(b);
      var k :| 0 <= k < |b| && b[k] == a[0];
      var rest := b[..k] + b[k + 1..];
      RemoveAt(b, k);
      assert a == [a[0]] + a[1..];
      assert multiset(a) == multiset{a[0]} + multiset(a[1..]);
      assert multiset(a[1..]) == multiset(rest) by {
        forall c ensures multiset(a[1..])[c] == multiset(rest)[c] {
          assert multiset(a)[c] == multiset{a[0]}[c] + multiset(a[1..])[c];
          assert multiset(b)[c] == multiset{b[k]}[c] + multiset(rest)[c];
        }
      }
      DeltaPermutation(a[1..], rest);
    }
  }

  function PositivePart(x: real): real { if x > 0.0 then x else 0.0 }

  function NegativePart(x: real): real { if x < 0.0 then x else 0.0 }

  /** The letter after `c`. */
  function Next(c: char): char
    requires c <= Top
  {
    (c as int + 1) as char
  }

  /** The positive weights of the letters from `lo` to J. */
  function PositiveFrom(lo: char): (r: real)
    ensures r >= 0.0
    decreases 'K' as int - lo as int
  {
    if lo > Top then 0.0 else PositivePart(Weight(lo)) + PositiveFrom(Next(lo))
  }

  /** The negative weights of the letters from `lo` to J. */
  function NegativeFrom(lo: char): (r: real)
    ensures r <= 0.0
    decreases 'K' as int - lo as int
  {
    if lo > Top then 0.0 else NegativePart(Weight(lo)) + NegativeFrom(Next(lo))
  }

  lemma {:induction false} FromMonotone(lo: char, hi: char)
    requires lo <= hi
    ensures PositiveFrom(hi) <= PositiveFrom(lo) && NegativeFrom(lo) <= NegativeFrom(hi)
    decreases hi as int - lo as int
  {
    if lo < hi && lo <= Top {
      FromMonotone(Next(lo), hi);
    }
  }

  lemma {:induction false} DeltaBetween(s: string, lo: char)
    requires StrictlySorted(s)
    requires forall i :: 0 <= i < |s| ==> lo <= s[i] && IsCode(s[i], Top)
    ensures NegativeFrom(lo) <= Delta(s) <= PositiveFrom(lo)
    decreases |s|
  {
    if s != [] {
      var c, t := s[0], s[1..];
      assert forall i :: 0 <= i < |t| ==> Next(c) <= t[i] && IsCode(t[i], Top) by {
        forall i | 0 <= i < |t| ensures Next(c) <= t[i] && IsCode(t[i], Top) {
          assert t[i] == s[i + 1] && c < s[i + 1];
        }
      }
      DeltaBetween(t, Next(c));
      FromMonotone(lo, c);
      var w := Weight(c);
      assert Delta(s) == w + Delta(t);
      assert PositiveFrom(c) == PositivePart(w) + PositiveFrom(Next(c));
      assert NegativeFrom(c) == NegativePart(w) + NegativeFrom(Next(c));
    }
  }

  /** One turn with distinct letters moves the score by at least -3.25 (D, I and J) and at
      most 6 (every positive letter). */
  lemma DeltaBounds(letters: string)
    requires StrictlySorted(letters) && forall i :: 0 <= i < |letters| ==> IsCode(letters[i], Top)
    ensures -3.25 <= Delta(letters) <= 6.0
  {
    DeltaBetween(letters, 'A');
    assert PositiveFrom('A') == 6.0;
    assert NegativeFrom('A') == -3.25;
  }

  /** `max(-5, min(x, 5))` */
  function Clamp(x: real): (r: real)
    ensures -5.0 <= r <= 5.0
    ensures -5.0 <= x <= 5.0 ==> r == x
    ensures x > 5.0 ==> r == 5.0
    ensures x < -5.0 ==> r == -5.0
  {
    if x > 5.0 then 5.0 else if x < -5.0 then -5.0 else x
  }

  /** The indentation of the prompt template in the source; `multiline_strip` removes it. */
  const Indent: string := "            "

  /** `generate_prompt(nao_text, user_text)` */
  function GeneratePrompt(naoText: string, userText: string): string {
    MultilineStrip(
      "\n"
      + Indent + "The following text is an conversation between you and a traveller in a tavern:\n"
      + Indent + "you: \"" + naoText + "\"\n"
      + Indent + "traveller: \"" + userText + "\"\n"
      + Indent + "\n"
      + Indent + "Which of the following apply to what the traveller said (can be multiple or none)? \n"
      + Indent + "Please answer with comma separated letters (e.g 'A,B'), or simply 'None' if none apply:\n"
      + Indent + OptionsText(Descriptions) + "\n"
      + Indent)
  }

  /** The one message `score` sends to the agent. */
  function ScoreRequest(naoText: string, userText: string): seq<Message> {
    [Message(User, GeneratePrompt(naoText, userText))]
  }

  /** What `score` returns: the unclamped delta and the letters. */
  datatype Scored = Scored(delta: real, letters: string)

  /** `score` from the agent's reply on: parse it, then sum the letters' weights. */
  function ScoreReply(reply: string): Result<Scored, LabelError> {
    match ParseLabels(reply, Top)
    case Failure(e) => Failure(e)
    case Success(letters) => Success(Scored(Delta(letters), letters))
  }

  /** A "None" reply scores nothing. */
  lemma ScoreNone(reply: string)
    requires IsNoneWord(NormalizeReply(reply))
    ensures ScoreReply(reply) == Success(Scored(0.0, ""))
  {
  }

  /** An accepted reply gives distinct letters of A..J in ascending order, and a delta that is
      the sum of the weights of the letters the reply lists, in whatever order it lists them;
      the delta lies in [-3.25, 6]. */
  lemma ScoreAccepted(reply: string)
    requires ScoreReply(reply).Success?
    ensures var s := ScoreReply(reply).value;
            var resp := NormalizeReply(reply);
            && StrictlySorted(s.letters)
            && (forall i :: 0 <= i < |s.letters| ==> IsCode(s.letters[i], Top))
            && (!IsNoneWord(resp) ==> s.delta == Delta(FindCodes(resp, Top)))
            && -3.25 <= s.delta <= 6.0
  {
    ParseAccepted(reply, Top);
    var s := ScoreReply(reply).value;
    var resp := NormalizeReply(reply);
    if !IsNoneWord(resp) {
      DeltaPermutation(s.letters, FindCodes(resp, Top));
    }
    DeltaBounds(s.letters);
  }

  /** Any reply but "None" must be a comma list of A..J, and may not repeat a letter. */
  lemma ScoreRejected(reply: string)
    ensures var resp := NormalizeReply(reply);
            ScoreReply(reply).Failure?
            <==> !IsNoneWord(resp) && (!MatchesRegex(resp, Top) || !NoRepeats(FindCodes(resp, Top)))
  {
    ParseDuplicates(reply, Top);
  }

  class UserFriendliness {
    const agent: Agent
    var scoringHistory: seq<string>
    var currentScore: real
    var threshold: real

    /** The score has stayed inside the clamp range. */
    predicate InRange()
      reads this
    {
      -5.0 <= currentScore <= 5.0
    }

    /** `__init__`: an empty history and a score of 0. */
    constructor (agent: Agent, threshold: real)
      ensures this.agent == agent && this.threshold == threshold
      ensures scoringHistory == [] && currentScore == 0.0
      ensures InRange() && (ThresholdMet() <==> threshold <= 0.0)
    {
      this.agent := agent;
      this.threshold := threshold;
      scoringHistory := [];
      currentScore := 0.0;
    }

    /** `threshold_met` */
    predicate ThresholdMet()
      reads this
    {
      currentScore >= threshold
    }

    /** `score(nao_text, user_text, save)`: one request to the agent with a 16-token budget;
        on an accepted reply with `save`, the letters are appended to the history and the
        delta folded into the clamped score; otherwise the history and score stay as they
        were. A failure is the source's assertion error. */
    method Score(naoText: string, userText: string, save: bool) returns (r: Result<Scored, LabelError>)
      modifies this, agent
      ensures agent.requests == old(agent.requests) + [ScoreRequest(naoText, userText)]
      ensures r == ScoreReply(old(agent.NextReply(ScoreRequest(naoText, userText))))
      ensures r.Success? && save ==> scoringHistory == old(scoringHistory) + [r.value.letters]
                                     && currentScore == Clamp(old(currentScore) + r.value.delta)
                                     && InRange()
      ensures !(r.Success? && save) ==> scoringHistory == old(scoringHistory) && currentScore == old(currentScore)
      ensures threshold == old(threshold)
      ensures old(InRange()) ==> InRange()
      ensures r.Success? && r.value.delta >= 0.0 && old(InRange()) && old(ThresholdMet()) ==> ThresholdMet()
    {
      var reply := agent.Ask(ScoreRequest(naoText, userText), Some(16));
      r := ScoreReply(reply);
      if r.Success? && save {
        scoringHistory := scoringHistory + [r.value.letters];
        currentScore := Clamp(currentScore + r.value.delta);
      }
    }
  }
}
