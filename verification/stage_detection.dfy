/** sir_code/stage_detection.py: the stage tracker. Unlike the letter parsers it does not
    validate the reply: it picks the highest `Stage1`..`Stage5` token anywhere in it. */
module Stages {
  import opened Results
  import opened PyStrings
  import opened Utils
  import opened Agents

  const Descriptions: seq<(string, string)> := [
    ("Stage1", "**First Contact & Observations**\n        * Welcome them to sit.\n        * Make an observation about their appearance (tired, strong, battered, etc.).\n        * Ask where they’ve come from and what brings them to this town.\n        * Keep it casual and friendly.\n        * Do *not* mention the castle or treasure yet."),
    ("Stage2", "**Affection for the Tavern & Light Bonding**\n        * Talk about why you like this tavern (atmosphere, people, warmth, stories).\n        * Ask the user about their favorite kinds of food or drinks (purely conversational).\n        * Share a small detail about your personal tastes.\n        * Keep the mood light and human. "),
    ("Stage3", "**Trading Adventure Stories**\n        * Tell the user a brief, interesting story from your past adventures (not too long).\n        * Ask them about *their* past travels or challenges.\n        * React with curiosity or empathy. "),
    ("Stage4", "**Introducing the Castle Mystery**\n        * Casually bring up the old legend of the ancient castle.\n        * Speak of its danger and allure.\n        * Ask the user what *they* would do with a treasure if they found it.\n        * Evaluate their intentions subtly.\n        * Do **not** reveal anything about the key yet. Maintain mystery. "),
    ("Stage5", "***Rumors of the Key & The Offer**\n        * Reveal that you have heard rumours about the castle’s key.\n        * Emphasize the danger and seriousness of the journey.\n        * Deciding whether to invite the player to join.\n        * End the conversation.")
  ]

  const Indent: string := "            "

  /** `generate_prompt(nao_text)` */
  function GeneratePrompt(naoText: string): string {
    MultilineStrip(
      "\n"
      + Indent + "The following text is a reply from you to a traveller in a tavern:\n"
      + Indent + "you: \"" + naoText + "\"\n"
      + Indent + "\n"
      + Indent + "Which of the following apply (can be multiple or none)? Please answer with comma separated words (e.g 'Stage1,Stage2'),\n"
      + Indent + "or simply 'None' if none apply:\n"
      + Indent + OptionsTextOf(Descriptions) + "\n"
      + Indent)
  }

  function OptionsTextOf(entries: seq<(string, string)>): string {
    Join(seq(|entries|, i requires 0 <= i < |entries| => entries[i].0 + ") " + entries[i].1), "\n")
  }

  /** The one message `detect` sends to the agent. */
  function DetectRequest(naoText: string): seq<Message> {
    [Message(User, GeneratePrompt(naoText))]
  }

  predicate IsStageDigit(c: char) { '1' <= c <= '5' }

  /** A token `Stage<d>` with `d` in 1..5. */
  predicate IsStageToken(t: string) {
    |t| == 6 && t[..5] == "Stage" && IsStageDigit(t[5])
  }

  /** `re.findall(r"Stage[1-5]", s)`: every stage token in `s`, left to right. */
  function StageTokens(s: string): (r: seq<string>)
    ensures forall i :: 0 <= i < |r| ==> IsStageToken(r[i])
    decreases |s|
  {
    if |s| < 6 then []
    else if s[..5] == "Stage" && IsStageDigit(s[5]) then [s[..6]] + StageTokens(s[6..])
    else StageTokens(s[1..])
  }

  /** Python's `<=` on strings: lexicographic order. */
  predicate StrLe(a: string, b: string)
    decreases |a|
  {
    a == [] || (b != [] && (a[0] < b[0] || (a[0] == b[0] && StrLe(a[1..], b[1..]))))
  }

  /** `sorted(tokens)[-1]`: the greatest token under the string order. */
  function LastSorted(tokens: seq<string>): (r: string)
    requires |tokens| > 0
    ensures r in tokens
    decreases |tokens|
  {
    if |tokens| == 1 then tokens[0]
    else
      var m := LastSorted(tokens[1..]);
      if StrLe(tokens[0], m) then m else tokens[0]
  }

  /** On stage tokens the string order is the order of the stage numbers. */
  lemma StageOrder(a: string, b: string)
    requires IsStageToken(a) && IsStageToken(b)
    ensures StrLe(a, b) <==> a[5] <= b[5]
  {
    assert a == "Stage" + [a[5]] && b == "Stage" + [b[5]] by {
      assert a == a[..5] + [a[5]];
      assert b == b[..5] + [b[5]];
    }
    StrLeCommonPrefix("Stage", [a[5]], [b[5]]);
    assert [a[5]][1..] == [] && [b[5]][1..] == [];
  }

  lemma {:induction false} StrLeCommonPrefix(p: string, a: string, b: string)
    ensures StrLe(p + a, p + b) <==> StrLe(a, b)
    decreases |p|
  {
    if p != [] {
      assert (p + a)[1..] == p[1..] + a && (p + b)[1..] == p[1..] + b;
      assert (p + a)[0] == p[0] == (p + b)[0];
      StrLeCommonPrefix(p[1..], a, b);
    } else {
      assert p + a == a && p + b == b;
    }
  }

  /** The chosen token is one of the tokens, and no token names a higher stage. */
  lemma {:induction false} LastSortedIsHighest(tokens: seq<string>)
    requires |tokens| > 0 && forall i :: 0 <= i < |tokens| ==> IsStageToken(tokens[i])
    ensures IsStageToken(LastSorted(tokens))
    ensures forall i :: 0 <= i < |tokens| ==> |tokens[i]| == 6 && tokens[i][5] <= LastSorted(tokens)[5]
    decreases |tokens|
  {
    if |tokens| > 1 {
      var m := LastSorted(tokens[1..]);
      LastSortedIsHighest(tokens[1..]);
      StageOrder(tokens[0], m);
      forall i | 1 <= i < |tokens| ensures |tokens[i]| == 6 && tokens[i][5] <= LastSorted(tokens)[5] {
        assert tokens[i] == tokens[1..][i - 1];
      }
    }
  }

  datatype StageError = NoStageToken(reply: string)

  /** `detect` from the agent's reply on: "None" clears the stage; any other reply gives its
      highest stage token, and one with no token fails (the source indexes an empty list). */
  function DetectStage(reply: string): Result<string, StageError> {
    var resp := NormalizeReply(reply);
    if IsNoneWord(resp) then Success("")
    else
      var tokens := StageTokens(resp);
      if |tokens| == 0 then Failure(NoStageToken(resp)) else Success(LastSorted(tokens))
  }

  /** The outcome of the tracker for every reply: "" for "None"; otherwise the token of the
      highest stage the reply mentions, whatever surrounds or repeats it; and a failure exactly
      when a reply other than "None" mentions no stage. */
  lemma DetectStageOutcome(reply: string)
    ensures var resp := NormalizeReply(reply);
            var r := DetectStage(reply);
            && (IsNoneWord(resp) ==> r == Success(""))
            && (r.Failure? <==> !IsNoneWord(resp) && StageTokens(resp) == [])
            && (r.Success? && !IsNoneWord(resp) ==>
                  && IsStageToken(r.value) && r.value in StageTokens(resp)
                  && forall i :: 0 <= i < |StageTokens(resp)| ==> StageTokens(resp)[i][5] <= r.value[5])
  {
    var resp := NormalizeReply(reply);
    if !IsNoneWord(resp) && StageTokens(resp) != [] {
      LastSortedIsHighest(StageTokens(resp));
    }
  }

  /** A reply naming a lower stage after a higher one still reports the higher one. */
  lemma StageExample()
    ensures LastSorted(["Stage3", "Stage2"]) == "Stage3"
  {
    StageOrder("Stage3", "Stage2");
  }

  class StageDetection {
    const agent: Agent
    var stageHistory: seq<string>
    var currentStage: string

    /** `__init__`: no stage yet and an empty (and never extended) stage history. */
    constructor (agent: Agent)
      ensures this.agent == agent && stageHistory == [] && currentStage == ""
    {
      this.agent := agent;
      stageHistory := [];
      currentStage := "";
    }

    /** `detect(nao_text)`: one request with a 16-token budget; the result replaces the
        current stage, which may therefore move backwards; the history is left alone. */
    method Detect(naoText: string) returns (r: Result<string, StageError>)
      modifies this, agent
      ensures agent.requests == old(agent.requests) + [DetectRequest(naoText)]
      ensures r == DetectStage(old(agent.NextReply(DetectRequest(naoText))))
      ensures r.Success? ==> currentStage == r.value
      ensures r.Failure? ==> currentStage == old(currentStage)
      ensures stageHistory == old(stageHistory)
    {
      var reply := agent.Ask(DetectRequest(naoText), Some(16));
      r := DetectStage(reply);
      if r.Success? {
        currentStage := r.value;
      }
    }
  }
}
