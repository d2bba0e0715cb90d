/** sir_code/main_nao.py: the robot-bar conversation. The history opens with the persona and
    a fixed welcome; each of exactly ten turns scores the user's line against the previous
    reply, adds the user's line and then the threshold directive (which stays), asks the
    agent over the whole history, shows the eye colour of the current score and records the
    reply. There is no stage tracking and no gesture detection. Speech recognition is
    replaced by a sequence of inputs, and the LEDs by a log of the eye colours shown. */
module MainNao {
  import opened Results
  import opened Agents
  import opened LabelParser
  import opened NaoControls
  import Friendliness

  const NaoWelcome: string := "Welcome to the robot bar! I am your bar tender Nao. What can I do for you? Can I offer you any drink?"
  const NotAllowed: string := "Friendliness threshold not met, feign ignorance or warn them"
  const IsAllowed: string := "Friendliness threshold is met, can reveal the key location if asked"
  /** `for _ in range(10)` */
  const Turns: nat := 10
  /** `Demo(friendliness_threshold=5)`: with the score kept in [-5, 5], only a full score meets it. */
  const DefaultThreshold: real := 5.0

  /** `_get_threshold_prompt()` for a given `threshold_met`. */
  function Directive(met: bool): Message {
    ThresholdDirective(met, NotAllowed, IsAllowed)
  }

  /** The directive is a system message that grants the key exactly when the threshold is met. */
  lemma DirectiveChoice(met: bool)
    ensures Directive(met).role == System
    ensures Directive(met).content == IsAllowed <==> met
  {
    assert |NotAllowed| != |IsAllowed|;
  }

  /** One completed turn: the user's line, the reply it was scored against, the score after
      scoring and the agent's new reply. */
  datatype Turn = Turn(input: string, seen: string, score: real, reply: string)

  /** `[{"role": "system", ..._AGENT_INTRO_CONTEXT}, {"role": "assistant", ..._NAO_WELCOME}]` */
  function Opening(intro: string): (r: seq<Message>)
    ensures |r| == 2 && r[1] == Message(Assistant, NaoWelcome)
  {
    [Message(System, intro), Message(Assistant, NaoWelcome)]
  }

  /** Messages a turn adds before the agent is asked: the user's line, then the directive. */
  function TurnPrefix(t: Turn, threshold: real): seq<Message> {
    [Message(User, t.input), Directive(t.score >= threshold)]
  }

  /** Messages a turn leaves in the history: its prefix and its reply. */
  function TurnMessages(t: Turn, threshold: real): (r: seq<Message>)
    ensures |r| == 3
  {
    TurnPrefix(t, threshold) + [Message(Assistant, t.reply)]
  }

  /** The messages the turns leave in the history, three per turn. */
  function HistoryOf(turns: seq<Turn>, threshold: real): (r: seq<Message>)
    ensures |r| == 3 * |turns|
    decreases |turns|
  {
    if turns == [] then [] else HistoryOf(turns[..|turns| - 1], threshold) + TurnMessages(turns[|turns| - 1], threshold)
  }

  /** Each turn is scored against the previous reply, the fixed welcome for the first. */
  predicate Chained(turns: seq<Turn>) {
    && (|turns| > 0 ==> turns[0].seen == NaoWelcome)
    && (forall i :: 0 < i < |turns| ==> turns[i].seen == turns[i - 1].reply)
  }

  /** Turn `i` occupies positions `3i`, `3i+1` and `3i+2` of the history: its user line, its
      directive (kept for good, reflecting the score of that turn) and its reply. */
  lemma {:induction false} TurnSlots(turns: seq<Turn>, threshold: real, i: nat)
    requires i < |turns|
    ensures var h := HistoryOf(turns, threshold);
            && h[3 * i] == Message(User, turns[i].input)
            && h[3 * i + 1] == Directive(turns[i].score >= threshold)
            && h[3 * i + 2] == Message(Assistant, turns[i].reply)
    decreases |turns|
  {
    hide Directive;
    var n := |turns| - 1;
    var front := turns[..n];
    var h := HistoryOf(turns, threshold);
    assert h == HistoryOf(front, threshold) + TurnMessages(turns[n], threshold);
    if i < n {
      TurnSlots(front, threshold, i);
      assert front[i] == turns[i];
    }
  }

  /** The only system messages the turns leave are their directives, one per turn. */
  lemma SystemMessages(turns: seq<Turn>, threshold: real, k: nat)
    requires k < |HistoryOf(turns, threshold)|
    ensures HistoryOf(turns, threshold)[k].role == System <==> k % 3 == 1
  {
    hide HistoryOf, Directive;
    var i, j := k / 3, k % 3;
    assert k == 3 * i + j && 0 <= j < 3;
    TurnSlots(turns, threshold, i);
    DirectiveChoice(turns[i].score >= threshold);
  }

  /** The request a turn's reply is asked with: the history so far, then the turn's user line
      and directive. */
  function ReplyRequest(before: seq<Message>, t: Turn, threshold: real): seq<Message> {
    before + TurnPrefix(t, threshold)
  }

  /** The two requests of one turn, at positions `k` and `k + 1`: the scoring request for the
      turn's line against the reply it saw, whose accepted answer moves the score from `prev`
      to the turn's score; and the reply request, answered by the turn's reply. */
  predicate TurnAsked(answer: (nat, seq<Message>) -> string, requests: seq<seq<Message>>, k: nat,
                      before: seq<Message>, prev: real, t: Turn, threshold: real)
  {
    var scoring := Friendliness.ScoreRequest(t.seen, t.input);
    var scored := Friendliness.ScoreReply(answer(k, scoring));
    var asked := ReplyRequest(before, t, threshold);
    && k + 1 < |requests|
    && requests[k] == scoring && scored.Success? && t.score == Friendliness.Clamp(prev + scored.value.delta)
    && requests[k + 1] == asked && t.reply == answer(k + 1, asked)
  }

  /** The score a turn starts from: the score before the run for the first turn. */
  function ScoreBefore(score0: real, turns: seq<Turn>, n: nat): real
    requires n <= |turns|
  {
    if n == 0 then score0 else turns[n - 1].score
  }

  /** Each turn makes two requests, from position `at` on, as `TurnAsked` describes, each
      reply request holding the history built so far after `start`. */
  predicate FromAgent(answer: (nat, seq<Message>) -> string, requests: seq<seq<Message>>, at: nat,
                      start: seq<Message>, score0: real, turns: seq<Turn>, threshold: real)
    decreases |turns|
  {
    turns == [] ||
      var n := |turns| - 1;
      var front := turns[..n];
      && FromAgent(answer, requests, at, start, score0, front, threshold)
      && TurnAsked(answer, requests, at + 2 * n, start + HistoryOf(front, threshold),
                   ScoreBefore(score0, turns, n), turns[n], threshold)
  }

  /** More requests do not change what the earlier ones were. */
  lemma {:induction false} FromAgentExtend(answer: (nat, seq<Message>) -> string, requests: seq<seq<Message>>,
                                           more: seq<seq<Message>>, at: nat, start: seq<Message>,
                                           score0: real, turns: seq<Turn>, threshold: real)
    requires requests <= more
    requires FromAgent(answer, requests, at, start, score0, turns, threshold)
    ensures FromAgent(answer, more, at, start, score0, turns, threshold)
    decreases |turns|
  {
    hide Friendliness.ScoreRequest, Friendliness.ScoreReply, ReplyRequest, HistoryOf;
    if turns != [] {
      var n := |turns| - 1;
      FromAgentExtend(answer, requests, more, at, start, score0, turns[..n], threshold);
      assert more[at + 2 * n] == requests[at + 2 * n] && more[at + 2 * n + 1] == requests[at + 2 * n + 1];
    }
  }

  /** Read turn by turn: turn `i`'s line was scored against the reply it saw, and the accepted
      scoring moved the score, kept in [-5, 5], from the previous turn's; then the agent saw
      the whole history so far, every earlier directive included, the turn's line and its
      directive, and the turn's reply is its answer. */
  lemma {:induction false} FromAgentAt(answer: (nat, seq<Message>) -> string, requests: seq<seq<Message>>, at: nat,
                                       start: seq<Message>, score0: real, turns: seq<Turn>, threshold: real, i: nat)
    requires FromAgent(answer, requests, at, start, score0, turns, threshold)
    requires i < |turns|
    ensures var scoring := Friendliness.ScoreRequest(turns[i].seen, turns[i].input);
            var scored := Friendliness.ScoreReply(answer(at + 2 * i, scoring));
            var asked := start + HistoryOf(turns[..i], threshold) + [Message(User, turns[i].input), Directive(turns[i].score >= threshold)];
            && at + 2 * i + 1 < |requests|
            && requests[at + 2 * i] == scoring && scored.Success?
            && turns[i].score == Friendliness.Clamp(ScoreBefore(score0, turns, i) + scored.value.delta)
            && -5.0 <= turns[i].score <= 5.0
            && requests[at + 2 * i + 1] == asked && turns[i].reply == answer(at + 2 * i + 1, asked)
    decreases |turns|
  {
    hide Friendliness.ScoreRequest, Friendliness.ScoreReply, HistoryOf, Directive;
    var n := |turns| - 1;
    var front := turns[..n];
    if i < n {
      FromAgentAt(answer, requests, at, start, score0, front, threshold, i);
      assert front[..i] == turns[..i] && front[i] == turns[i];
      assert ScoreBefore(score0, front, i) == ScoreBefore(score0, turns, i);
    } else {
      assert turns[..i] == front;
    }
  }

  /** What one more turn adds to the history, the eye colours and the requests. */
  lemma AppendTurn(answer: (nat, seq<Message>) -> string, requests: seq<seq<Message>>, at: nat,
                   start: seq<Message>, score0: real, turns: seq<Turn>, t: Turn, threshold: real)
    ensures HistoryOf(turns + [t], threshold) == HistoryOf(turns, threshold) + TurnMessages(t, threshold)
    ensures Eyes(turns + [t]) == Eyes(turns) + [EyeColour(BluePalette, Trunc(t.score))]
    ensures ScoreBefore(score0, turns + [t], |turns|) == ScoreBefore(score0, turns, |turns|)
    ensures FromAgent(answer, requests, at, start, score0, turns + [t], threshold)
            <==> && FromAgent(answer, requests, at, start, score0, turns, threshold)
                 && TurnAsked(answer, requests, at + 2 * |turns|, start + HistoryOf(turns, threshold),
                              ScoreBefore(score0, turns + [t], |turns|), t, threshold)
  {
    hide Directive, TurnPrefix, TurnMessages, TurnAsked, EyeColour;
    var u := turns + [t];
    assert u[..|turns|] == turns && u[|u| - 1] == t && |u| - 1 == |turns|;
  }

  /** A run with no turns yet. */
  lemma NoTurns(answer: (nat, seq<Message>) -> string, requests: seq<seq<Message>>, at: nat,
                start: seq<Message>, score0: real, threshold: real)
    ensures HistoryOf([], threshold) == [] && Eyes([]) == []
    ensures FromAgent(answer, requests, at, start, score0, [], threshold) && Chained([])
  {
  }

  /** A turn scored against the last reply keeps the run chained. */
  lemma ChainTurn(turns: seq<Turn>, t: Turn)
    requires Chained(turns)
    requires t.seen == if turns == [] then NaoWelcome else turns[|turns| - 1].reply
    ensures Chained(turns + [t])
  {
    var u := turns + [t];
    assert u[0] == if turns == [] then t else turns[0];
    forall i | 0 < i < |u| ensures u[i].seen == u[i - 1].reply {
      if i == |turns| {
        assert u[i] == t && u[i - 1] == turns[|turns| - 1];
      } else {
        assert u[i] == turns[i] && u[i - 1] == turns[i - 1];
      }
    }
  }

  /** The eye colours shown, one per turn, for the score after that turn's scoring. */
  function Eyes(turns: seq<Turn>): (r: seq<string>)
    ensures |r| == |turns|
    decreases |turns|
  {
    if turns == [] then [] else Eyes(turns[..|turns| - 1]) + [EyeColour(BluePalette, Trunc(turns[|turns| - 1].score))]
  }

  /** Turn `i`'s eye colour is the bucket colour of its score: RED, AMBER, WHITE, BLUE or GREEN. */
  lemma {:induction false} EyesAt(turns: seq<Turn>, i: nat)
    requires i < |turns|
    ensures var h := Trunc(turns[i].score);
            Eyes(turns)[i]
            == if h <= -3 then "RED" else if h <= -1 then "AMBER" else if h == 0 then "WHITE"
               else if h <= 4 then "BLUE" else "GREEN"
    decreases |turns|
  {
    hide EyeColour;
    var n := |turns| - 1;
    if i < n {
      EyesAt(turns[..n], i);
      assert turns[..n][i] == turns[i];
    } else {
      BluePaletteEyes(turns[i].score);
    }
  }

  /** What ends `main` by an exception: no more speech, or the scorer's assertion. */
  datatype AbortReason = EndOfInput | ScoringFailed(scoring: LabelError)

  /** How `main` ends: after the ten turns, or by an exception. */
  datatype Outcome = Completed | Aborted(reason: AbortReason)

  class Demo {
    const agent: Agent
    const friendliness: Friendliness.UserFriendliness
    /** `_AGENT_INTRO_CONTEXT`: the persona instructions. */
    const intro: string
    var history: seq<Message>
    var eyeLog: seq<string>
    ghost var turns: seq<Turn>

    /** The scorer talks to this demo's agent. */
    predicate Wired() {
      friendliness.agent == agent
    }

    /** `Demo(friendliness_threshold)` */
    constructor (agent: Agent, threshold: real, intro: string)
      ensures Wired() && this.agent == agent && this.intro == intro && fresh(friendliness)
      ensures friendliness.threshold == threshold && friendliness.currentScore == 0.0 && friendliness.scoringHistory == []
      ensures history == [] && eyeLog == []
    {
      this.agent := agent;
      this.intro := intro;
      friendliness := new Friendliness.UserFriendliness(agent, threshold);
      history := [];
      eyeLog := [];
    }

    /** One pass of the loop body of `main`: score the user's line against the previous
        reply, add the line and the directive for the new score, ask for the reply over the
        whole history, show the eye colour and record the reply. A scoring failure is the
        scorer's exception and comes before anything is added; the eye colour's own check
        for a scoring history always passes, since the scoring just recorded one. */
    method PlayTurn(input: string, last: string) returns (r: Result<Turn, AbortReason>)
      requires Wired()
      modifies this, agent, friendliness
      ensures friendliness.threshold == old(friendliness.threshold) && turns == old(turns)
      ensures old(agent.requests) <= agent.requests
      ensures r.Failure? ==> history == old(history) && eyeLog == old(eyeLog) && r.error.ScoringFailed?
      ensures r.Success? ==>
                var t, threshold, k := r.value, old(friendliness.threshold), |old(agent.requests)|;
                && t.input == input && t.seen == last && t.score == friendliness.currentScore
                && history == old(history) + TurnMessages(t, threshold)
                && |agent.requests| == k + 2
                && TurnAsked(agent.answer, agent.requests, k, old(history), old(friendliness.currentScore), t, threshold)
                && eyeLog == old(eyeLog) + [EyeColour(BluePalette, Trunc(t.score))]
    {
      hide Friendliness.ScoreRequest, Friendliness.ScoreReply, Directive, EyeColour;
      var scored := friendliness.Score(last, input, true);
      if scored.Failure? {
        return Failure(ScoringFailed(scored.error));
      }
      var before := history;
      history := history + [Message(User, input)];
      history := history + [Directive(friendliness.ThresholdMet())];
      ghost var asked := history;
      var text := agent.Ask(history, None);
      var eyes := NaoEyeColour(friendliness.scoringHistory, friendliness.currentScore, BluePalette);
      assert eyes.Success?;
      eyeLog := eyeLog + [eyes.value];
      history := history + [Message(Assistant, text)];
      var t := Turn(input, last, friendliness.currentScore, text);
      assert asked == ReplyRequest(before, t, friendliness.threshold);
      assert history == before + TurnMessages(t, friendliness.threshold);
      r := Success(t);
    }

    /** One pass of the loop with the run's bookkeeping: a completed turn is appended to the
        run's turns, which stay chained, and the history, the eye log and the agent's requests
        grow by exactly that turn's. An exception leaves the turns, the history and the eye
        log as they were. */
    method Step(input: string, last: string, ghost opening: seq<Message>, ghost at: nat,
                ghost score0: real, ghost eyes0: seq<string>)
      returns (r: Result<Turn, AbortReason>)
      requires Wired()
      requires Chained(turns)
      requires last == if turns == [] then NaoWelcome else turns[|turns| - 1].reply
      requires friendliness.currentScore == ScoreBefore(score0, turns, |turns|)
      requires history == opening + HistoryOf(turns, friendliness.threshold)
      requires |agent.requests| == at + 2 * |turns|
      requires FromAgent(agent.answer, agent.requests, at, opening, score0, turns, friendliness.threshold)
      requires eyeLog == eyes0 + Eyes(turns)
      modifies this, agent, friendliness
      ensures friendliness.threshold == old(friendliness.threshold)
      ensures old(agent.requests) <= agent.requests
      ensures FromAgent(agent.answer, agent.requests, at, opening, score0, turns, friendliness.threshold)
      ensures history == opening + HistoryOf(turns, friendliness.threshold)
      ensures eyeLog == eyes0 + Eyes(turns)
      ensures r.Failure? ==> turns == old(turns) && r.error.ScoringFailed?
      ensures r.Success? ==>
                && turns == old(turns) + [r.value] && r.value.input == input
                && Chained(turns)
                && friendliness.currentScore == r.value.score
                && |agent.requests| == at + 2 * |turns|
    {
      hide Friendliness.ScoreRequest, Friendliness.ScoreReply, Directive, EyeColour, Opening;
      hide HistoryOf, Eyes, FromAgent, TurnAsked, Chained, TurnMessages, TurnPrefix, ReplyRequest;
      var threshold := friendliness.threshold;
      ghost var before := agent.requests;
      r := PlayTurn(input, last);
      FromAgentExtend(agent.answer, before, agent.requests, at, opening, score0, turns, threshold);
      if r.Success? {
        var turn := r.value;
        AppendTurn(agent.answer, agent.requests, at, opening, score0, turns, turn, threshold);
        ChainTurn(turns, turn);
        turns := turns + [turn];
      }
    }

    /** `main()`: the persona and the welcome open the history (the agent is not asked for
        the welcome), then exactly ten turns run, each taking the next spoken line. Whatever
        ends it, the history holds the opening and exactly the completed turns' messages, each
        reply is the agent's answer to the history before it, and the eye log holds one colour
        per completed turn. */
    method Run(inputs: seq<string>) returns (outcome: Outcome)
      requires Wired()
      modifies this, agent, friendliness
      ensures var start, threshold, at := old(history), old(friendliness.threshold), |old(agent.requests)|;
              var opening := start + Opening(intro);
              && friendliness.threshold == threshold
              && old(agent.requests) <= agent.requests
              && Chained(turns) && |turns| <= Turns && |turns| <= |inputs|
              && (forall i :: 0 <= i < |turns| ==> turns[i].input == inputs[i])
              && FromAgent(agent.answer, agent.requests, at, opening, old(friendliness.currentScore), turns, threshold)
              && history == opening + HistoryOf(turns, threshold)
              && |history| == |start| + 2 + 3 * |turns|
              && eyeLog == old(eyeLog) + Eyes(turns)
              && (outcome == Completed <==> |turns| == Turns)
              && (outcome == Aborted(EndOfInput) ==> |turns| == |inputs|)
              && (outcome == Completed ==> |agent.requests| == at + 2 * Turns)
    {
      hide Friendliness.ScoreRequest, Friendliness.ScoreReply, Directive, EyeColour;
      hide HistoryOf, Eyes, FromAgent, TurnAsked, Chained, TurnMessages, TurnPrefix, ReplyRequest;
      history := history + Opening(intro);
      turns := [];
      var opening := history;
      var requests0 := agent.requests;
      var score0 := friendliness.currentScore;
      var eyes0 := eyeLog;
      var threshold := friendliness.threshold;
      var last := NaoWelcome;
      var t := 0;
      NoTurns(agent.answer, agent.requests, |requests0|, opening, score0, threshold);
      outcome := Completed;
      while t < Turns
        invariant 0 <= t <= Turns && |turns| == t && t <= |inputs|
        invariant friendliness.threshold == threshold
        invariant history == opening + HistoryOf(turns, threshold)
        invariant Chained(turns)
        invariant last == if t == 0 then NaoWelcome else turns[t - 1].reply
        invariant friendliness.currentScore == ScoreBefore(score0, turns, t)
        invariant forall i :: 0 <= i < t ==> turns[i].input == inputs[i]
        invariant requests0 <= agent.requests && |agent.requests| == |requests0| + 2 * t
        invariant FromAgent(agent.answer, agent.requests, |requests0|, opening, score0, turns, threshold)
        invariant eyeLog == eyes0 + Eyes(turns)
        invariant outcome == Completed
      {
        if t >= |inputs| {
          outcome := Aborted(EndOfInput);
          break;
        }
        var played := Step(inputs[t], last, opening, |requests0|, score0, eyes0);
        if played.Failure? {
          outcome := Aborted(played.error);
          break;
        }
        last := played.value.reply;
        t := t + 1;
      }
    }
  }
}
