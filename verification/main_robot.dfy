/** sir_code/main.py with the robot attached (`RUN_ROBOT = 1`): the tavern conversation.
    Each turn scores the user's line against the previous reply and detects the stage of
    that reply, adds the threshold directive on a Stage5 turn, adds the user's line, asks
    the agent with the dynamic-speech instruction pushed on top of the history (and pops
    it again), detects the gestures for the reply, and either stops (Stage5) or records
    the reply. Speech, motion playback and LEDs are replaced by a log of what the robot
    was told to show. */
module MainRobot {
  import opened Results
  import opened Agents
  import opened LabelParser
  import opened NaoControls
  import Friendliness
  import Stages
  import Actions
  import TurnHead

  const UserWelcome: string := "Hey there! Mind if I share a table with you? this place is packed!"
  const NotAllowed: string := "Friendliness threshold not met, Find a way to end the conversation. \n                Response: It was great chatting with you. Safe travels."
  const IsAllowed: string := "Friendliness threshold is met, Find a way to end the conversation. \n                Response: Would you consider joining me on such a venture? \n                Also, tell them: Seek the oldest elm in the dark forest."
  const MaxTurns: nat := 100
  const Stage5: string := "Stage5"
  /** `Demo(friendliness_threshold=0)` */
  const DefaultThreshold: real := 0.0

  /** `_get_threshold_prompt()` for a given `threshold_met`. */
  function Directive(met: bool): Message {
    ThresholdDirective(met, NotAllowed, IsAllowed)
  }

  /** The directive is a system message that grants the key exactly when the threshold is met. */
  lemma DirectiveChoice(met: bool)
    ensures Directive(met).role == System
    ensures Directive(met).content == IsAllowed <==> met
  {
    assert |NotAllowed| != |IsAllowed|;
  }

  /** One completed turn: the user's line, the reply it was scored against, the score after
      scoring, the detected stage, the agent's reply and the gestures detected for it. */
  datatype Turn = Turn(input: string, seen: string, score: real, stage: string, reply: string, gestures: string)

  /** What the robot was told to show for one reply: gestures and eye colour. */
  datatype Cue = Cue(gestures: string, eyes: string)

  /** Messages a turn adds before the agent is asked. */
  function TurnPrefix(t: Turn, threshold: real): seq<Message> {
    (if t.stage == Stage5 then [Directive(t.score >= threshold)] else []) + [Message(User, t.input)]
  }

  /** Messages a turn leaves in the history: no reply is recorded on the Stage5 turn. */
  function TurnMessages(t: Turn, threshold: real): (r: seq<Message>)
    ensures |r| == 2
  {
    TurnPrefix(t, threshold) + (if t.stage == Stage5 then [] else [Message(Assistant, t.reply)])
  }

  /** The messages the turns leave in the history, two per turn. */
  function HistoryOf(turns: seq<Turn>, threshold: real): (r: seq<Message>)
    ensures |r| == 2 * |turns|
    decreases |turns|
  {
    if turns == [] then [] else HistoryOf(turns[..|turns| - 1], threshold) + TurnMessages(turns[|turns| - 1], threshold)
  }

  /** Each turn is scored against the previous reply (the welcome for the first), and only
      the last turn may be a Stage5 turn. */
  predicate Chained(welcome: string, turns: seq<Turn>) {
    && (|turns| > 0 ==> turns[0].seen == welcome)
    && (forall i :: 0 < i < |turns| ==> turns[i].seen == turns[i - 1].reply)
    && (forall i :: 0 <= i < |turns| - 1 ==> turns[i].stage != Stage5)
  }

  function Opening(intro: string): (r: seq<Message>)
    ensures |r| == 2
  {
    [Message(System, intro), Message(User, UserWelcome)]
  }

  /** Turn `i` occupies exactly positions `2i` and `2i+1` of the history it builds. */
  lemma {:induction false} TurnSlots(turns: seq<Turn>, threshold: real)
    ensures |HistoryOf(turns, threshold)| == 2 * |turns|
    ensures forall i :: 0 <= i < |turns| ==>
              && HistoryOf(turns, threshold)[2 * i] == TurnMessages(turns[i], threshold)[0]
              && HistoryOf(turns, threshold)[2 * i + 1] == TurnMessages(turns[i], threshold)[1]
    decreases |turns|
  {
    if turns != [] {
      var n := |turns| - 1;
      var front := turns[..n];
      TurnSlots(front, threshold);
      var h := HistoryOf(turns, threshold);
      assert h == HistoryOf(front, threshold) + TurnMessages(turns[n], threshold);
      forall i | 0 <= i < n
        ensures h[2 * i] == TurnMessages(turns[i], threshold)[0] && h[2 * i + 1] == TurnMessages(turns[i], threshold)[1]
      {
        assert front[i] == turns[i];
      }
    }
  }

  lemma TurnMessagesAt(t: Turn, threshold: real)
    ensures TurnMessages(t, threshold)[0]
            == if t.stage == Stage5 then Directive(t.score >= threshold) else Message(User, t.input)
    ensures TurnMessages(t, threshold)[1]
            == if t.stage == Stage5 then Message(User, t.input) else Message(Assistant, t.reply)
  {
  }

  /** Every message of a turn is its user line, its reply or its directive: system messages
      are directives of Stage5 turns. */
  lemma {:induction false} HistoryMessages(turns: seq<Turn>, threshold: real)
    ensures var h := HistoryOf(turns, threshold);
            && |h| == 2 * |turns|
            && forall k :: 0 <= k < |h| ==>
                 var t := turns[k / 2];
                 h[k] == if k % 2 == 1 then (if t.stage == Stage5 then Message(User, t.input) else Message(Assistant, t.reply))
                         else if t.stage == Stage5 then Directive(t.score >= threshold) else Message(User, t.input)
  {
    var h := HistoryOf(turns, threshold);
    TurnSlots(turns, threshold);
    forall k | 0 <= k < |h|
      ensures var t := turns[k / 2];
              h[k] == if k % 2 == 1 then (if t.stage == Stage5 then Message(User, t.input) else Message(Assistant, t.reply))
                      else if t.stage == Stage5 then Directive(t.score >= threshold) else Message(User, t.input)
    {
      var i := k / 2;
      TurnMessagesAt(turns[i], threshold);
      if k % 2 == 0 {
        assert k == 2 * i;
      } else {
        assert k == 2 * i + 1;
      }
    }
  }

  /** In a chained run the only system message the turns leave is the threshold directive of
      a final Stage5 turn, just before the last user line: the dynamic-speech instruction and
      any other system text never remain. */
  lemma HistorySystemMessages(welcome: string, turns: seq<Turn>, threshold: real)
    requires Chained(welcome, turns)
    ensures var h := HistoryOf(turns, threshold);
            forall k :: 0 <= k < |h| && h[k].role == System ==>
              && k == |h| - 2 && turns[|turns| - 1].stage == Stage5
              && h[k] == Directive(turns[|turns| - 1].score >= threshold)
  {
    HistoryMessages(turns, threshold);
  }

  /** Every turn leaves its user line, and every turn but a final Stage5 one leaves its reply
      right after it, which is the reply the next turn is scored against. */
  lemma HistoryTurns(welcome: string, turns: seq<Turn>, threshold: real)
    requires Chained(welcome, turns)
    ensures var h := HistoryOf(turns, threshold);
            && (forall i :: 0 <= i < |turns| ==>
                  h[2 * i + (if turns[i].stage == Stage5 then 1 else 0)] == Message(User, turns[i].input))
            && (forall i :: 0 <= i < |turns| && turns[i].stage != Stage5 ==>
                  h[2 * i + 1] == Message(Assistant, turns[i].reply)
                  && (i + 1 < |turns| ==> turns[i + 1].seen == turns[i].reply))
  {
    var h := HistoryOf(turns, threshold);
    TurnSlots(turns, threshold);
    forall i | 0 <= i < |turns|
      ensures h[2 * i + (if turns[i].stage == Stage5 then 1 else 0)] == Message(User, turns[i].input)
    {
      TurnMessagesAt(turns[i], threshold);
    }
    forall i | 0 <= i < |turns| && turns[i].stage != Stage5
      ensures h[2 * i + 1] == Message(Assistant, turns[i].reply)
    {
      TurnMessagesAt(turns[i], threshold);
    }
  }

  /** The request a turn's reply is asked with: the history so far, the turn's directive and
      user line, and the dynamic-speech instruction on top. */
  function ReplyRequest(before: seq<Message>, t: Turn, threshold: real, dynamicSpeech: string): seq<Message> {
    before + TurnPrefix(t, threshold) + [Message(System, dynamicSpeech)]
  }

  /** The score a turn starts from: the scorer's score before the run for the first turn. */
  function ScoreBefore(score0: real, turns: seq<Turn>, n: int): real
  {
    if n <= 0 || n > |turns| then score0 else turns[n - 1].score
  }

  /** The four requests of turn `t`, from position `k` of the agent's requests on: its line
      scored against the reply it saw, the stage of that reply, its own reply (asked on the
      history `before`), and the gestures of that reply. The turn's score (moved from `prev`
      and clamped), stage, reply and gestures are what those answers give. */
  predicate TurnAsked(answer: (nat, seq<Message>) -> string, requests: seq<seq<Message>>, k: int,
                      before: seq<Message>, prev: real, t: Turn, threshold: real, dynamicSpeech: string)
  {
    var scoring := Friendliness.ScoreRequest(t.seen, t.input);
    var staging := Stages.DetectRequest(t.seen);
    var asked := ReplyRequest(before, t, threshold, dynamicSpeech);
    var showing := Actions.DetectRequest(t.reply);
    && 0 <= k && k + 3 < |requests|
    && requests[k] == scoring && requests[k + 1] == staging
    && TurnHead.HeadOf(prev, answer(k, scoring), answer(k + 1, staging)) == Success((t.score, t.stage))
    && requests[k + 2] == asked && t.reply == answer(k + 2, asked)
    && requests[k + 3] == showing && ParseLabels(answer(k + 3, showing), Actions.Top) == Success(t.gestures)
  }

  /** Each turn makes four requests, from position `at` on, as `TurnAsked` describes, its
      reply request holding the history built so far after `start`, and its score moving on
      from the previous turn's (from `score0` for the first). */
  predicate RepliesFromAgent(answer: (nat, seq<Message>) -> string, requests: seq<seq<Message>>, at: nat,
                             start: seq<Message>, score0: real, turns: seq<Turn>, threshold: real, dynamicSpeech: string)
    decreases |turns|
  {
    turns == [] ||
      var n := |turns| - 1;
      var front := turns[..n];
      && RepliesFromAgent(answer, requests, at, start, score0, front, threshold, dynamicSpeech)
      && TurnAsked(answer, requests, at + 4 * n, start + HistoryOf(front, threshold),
                   ScoreBefore(score0, turns, n), turns[n], threshold, dynamicSpeech)
  }

  /** More requests do not change what the earlier ones were. */
  lemma {:induction false} RepliesExtend(answer: (nat, seq<Message>) -> string, requests: seq<seq<Message>>,
                                         more: seq<seq<Message>>, at: nat, start: seq<Message>, score0: real,
                                         turns: seq<Turn>, threshold: real, dynamicSpeech: string)
    requires requests <= more
    requires RepliesFromAgent(answer, requests, at, start, score0, turns, threshold, dynamicSpeech)
    ensures RepliesFromAgent(answer, more, at, start, score0, turns, threshold, dynamicSpeech)
    decreases |turns|
  {
    hide Friendliness.ScoreRequest, Stages.DetectRequest, Actions.DetectRequest, TurnHead.HeadOf, ParseLabels, ReplyRequest, HistoryOf;
    if turns != [] {
      var n := |turns| - 1;
      var k := at + 4 * n;
      RepliesExtend(answer, requests, more, at, start, score0, turns[..n], threshold, dynamicSpeech);
      assert more[k] == requests[k] && more[k + 1] == requests[k + 1];
      assert more[k + 2] == requests[k + 2] && more[k + 3] == requests[k + 3];
    }
  }

  /** Read turn by turn: turn `i` made its four requests from position `at + 4i` on, as
      `TurnAsked` describes, its reply asked on the history built before it and its score
      moving on from the previous turn's (from `score0` for the first). */
  lemma {:induction false} RepliesAt(answer: (nat, seq<Message>) -> string, requests: seq<seq<Message>>, at: nat,
                                     start: seq<Message>, score0: real, turns: seq<Turn>, threshold: real,
                                     dynamicSpeech: string)
    requires RepliesFromAgent(answer, requests, at, start, score0, turns, threshold, dynamicSpeech)
    ensures forall i :: 0 <= i < |turns| ==>
              TurnAsked(answer, requests, at + 4 * i, start + HistoryOf(turns[..i], threshold),
                        ScoreBefore(score0, turns, i), turns[i], threshold, dynamicSpeech)
    decreases |turns|
  {
    hide TurnAsked, HistoryOf;
    if turns != [] {
      var n := |turns| - 1;
      var front := turns[..n];
      RepliesAt(answer, requests, at, start, score0, front, threshold, dynamicSpeech);
      forall i | 0 <= i < n
        ensures TurnAsked(answer, requests, at + 4 * i, start + HistoryOf(turns[..i], threshold),
                          ScoreBefore(score0, turns, i), turns[i], threshold, dynamicSpeech)
      {
        assert front[..i] == turns[..i] && front[i] == turns[i];
        assert ScoreBefore(score0, front, i) == ScoreBefore(score0, turns, i);
      }
    }
  }

  /** The eye colour `_nao_action_and_eye_color` shows for a score: the bucket of
      `int(score)` in the first palette. */
  function Eyes(score: real): string {
    EyeColour(GreenPalette, Trunc(score))
  }

  /** What the robot was told to show for each turn's reply. */
  function Cues(turns: seq<Turn>): (r: seq<Cue>)
    ensures |r| == |turns|
    decreases |turns|
  {
    if turns == [] then []
    else Cues(turns[..|turns| - 1]) + [Cue(turns[|turns| - 1].gestures, Eyes(turns[|turns| - 1].score))]
  }

  /** What one more turn adds to the history, the requests and the cues. */
  lemma AppendTurn(answer: (nat, seq<Message>) -> string, requests: seq<seq<Message>>, at: nat,
                   start: seq<Message>, score0: real, turns: seq<Turn>, t: Turn, threshold: real, dynamicSpeech: string)
    ensures HistoryOf(turns + [t], threshold) == HistoryOf(turns, threshold) + TurnMessages(t, threshold)
    ensures Cues(turns + [t]) == Cues(turns) + [Cue(t.gestures, Eyes(t.score))]
    ensures ScoreBefore(score0, turns + [t], |turns|) == ScoreBefore(score0, turns, |turns|)
    ensures RepliesFromAgent(answer, requests, at, start, score0, turns + [t], threshold, dynamicSpeech)
            <==> && RepliesFromAgent(answer, requests, at, start, score0, turns, threshold, dynamicSpeech)
                 && TurnAsked(answer, requests, at + 4 * |turns|, start + HistoryOf(turns, threshold),
                              ScoreBefore(score0, turns, |turns|), t, threshold, dynamicSpeech)
  {
    hide Directive, Eyes, TurnPrefix, TurnMessages, ReplyRequest, TurnAsked;
    var u := turns + [t];
    assert u[..|turns|] == turns && u[|u| - 1] == t && |u| - 1 == |turns|;
  }

  /** A run with no turns yet. */
  lemma NoTurns(answer: (nat, seq<Message>) -> string, requests: seq<seq<Message>>, at: nat,
                start: seq<Message>, score0: real, welcome: string, threshold: real, dynamicSpeech: string)
    ensures HistoryOf([], threshold) == [] && Cues([]) == []
    ensures RepliesFromAgent(answer, requests, at, start, score0, [], threshold, dynamicSpeech) && Chained(welcome, [])
  {
  }

  /** A turn scored against the last reply keeps the run chained, if no earlier turn was a
      Stage5 turn. */
  lemma ChainTurn(welcome: string, turns: seq<Turn>, t: Turn)
    requires Chained(welcome, turns) && forall i :: 0 <= i < |turns| ==> turns[i].stage != Stage5
    requires t.seen == if turns == [] then welcome else turns[|turns| - 1].reply
    ensures Chained(welcome, turns + [t])
  {
    var u := turns + [t];
    assert u[0] == if turns == [] then t else turns[0];
    forall i | 0 < i < |u| ensures u[i].seen == u[i - 1].reply {
      if i == |turns| {
        assert u[i] == t && u[i - 1] == turns[|turns| - 1];
      } else {
        assert u[i] == turns[i] && u[i - 1] == turns[i - 1];
      }
    }
  }

  /** What ends `main` by an exception: no more input, a classifier of the turn's head, or
      the gesture detector. */
  datatype AbortReason =
    | EndOfInput
    | HeadFailed(head: TurnHead.HeadError)
    | GesturesFailed(gestures: LabelError)

  /** How `main` ends: on a Stage5 turn, after all 100 turns, or by an exception. */
  datatype Outcome = Stage5Exit | TurnsExhausted | Aborted(reason: AbortReason)

  class Demo {
    const agent: Agent
    const friendliness: Friendliness.UserFriendliness
    const stage: Stages.StageDetection
    const actions: Actions.Action
    /** `_AGENT_INTRO_CONTEXT` and `_DYNAMIC_SPEECH`: persona and speech-tag instructions. */
    const intro: string
    const dynamicSpeech: string
    var history: seq<Message>
    var robotLog: seq<Cue>
    ghost var welcome: string
    ghost var turns: seq<Turn>

    /** The classifiers talk to this demo's agent. */
    predicate Wired() {
      friendliness.agent == agent && stage.agent == agent && actions.agent == agent
    }

    /** `Demo(friendliness_threshold)`: one agent shared by the three classifiers. */
    constructor (agent: Agent, threshold: real, intro: string, dynamicSpeech: string)
      ensures Wired() && this.agent == agent && this.intro == intro && this.dynamicSpeech == dynamicSpeech
      ensures fresh(friendliness) && fresh(stage) && fresh(actions)
      ensures friendliness.threshold == threshold && friendliness.currentScore == 0.0 && friendliness.scoringHistory == []
      ensures stage.currentStage == "" && actions.currentActions == ""
      ensures history == [] && robotLog == []
    {
      this.agent := agent;
      this.intro := intro;
      this.dynamicSpeech := dynamicSpeech;
      friendliness := new Friendliness.UserFriendliness(agent, threshold);
      stage := new Stages.StageDetection(agent);
      actions := new Actions.Action(agent);
      history := [];
      robotLog := [];
    }

    /** `actions.detect(nao_text=resp)` and `_nao_action_and_eye_color`, seen from the loop:
        the gestures and the eye colour of the current score are shown. */
    method ShowReply(resp: string) returns (r: Result<string, AbortReason>)
      requires Wired()
      modifies this, actions, agent
      ensures history == old(history) && welcome == old(welcome) && turns == old(turns)
      ensures agent.requests == old(agent.requests) + [Actions.DetectRequest(resp)]
      ensures var shown := ParseLabels(old(agent.NextReply(Actions.DetectRequest(resp))), Actions.Top);
              && (r.Failure? <==> shown.Failure?)
              && (r.Failure? ==> r.error == GesturesFailed(shown.error))
              && (r.Success? ==> r.value == shown.value)
      ensures r.Failure? ==> robotLog == old(robotLog)
      ensures r.Success? ==> robotLog == old(robotLog) + [Cue(r.value, Eyes(friendliness.currentScore))]
    {
      hide Actions.DetectRequest, ParseLabels, Eyes;
      var shown := actions.Detect(resp);
      if shown.Failure? {
        return Failure(GesturesFailed(shown.error));
      }
      robotLog := robotLog + [Cue(shown.value, Eyes(friendliness.currentScore))];
      r := Success(shown.value);
    }

    /** The reply of a turn: the directive (on a Stage5 turn) and the user's line are added,
        and the agent is asked with the dynamic-speech instruction pushed on top of the
        history, which is popped again. */
    method Respond(input: string, stage5: bool) returns (resp: string)
      modifies this, agent
      ensures var added := (if stage5 then [Directive(friendliness.ThresholdMet())] else []) + [Message(User, input)];
              && history == old(history) + added
              && agent.requests == old(agent.requests) + [old(history) + added + [Message(System, dynamicSpeech)]]
              && resp == agent.answer(|old(agent.requests)|, old(history) + added + [Message(System, dynamicSpeech)])
      ensures robotLog == old(robotLog) && welcome == old(welcome) && turns == old(turns)
    {
      hide Directive;
      if stage5 {
        history := history + [Directive(friendliness.ThresholdMet())];
      }
      history := history + [Message(User, input)];
      history := history + [Message(System, dynamicSpeech)];
      resp := agent.Ask(history, None);
      history := history[..|history| - 1];
    }

    /** One pass of the loop body of `main`: score the user's line against the previous reply,
        detect the stage of that reply, add the directive (Stage5 only) and the user's line,
        ask for the reply with the dynamic-speech instruction pushed and then popped, detect
        its gestures and show them, and record the reply unless the stage was Stage5. An
        exception leaves at most the directive and the user's line added. */
    method PlayTurn(input: string, last: string) returns (r: Result<Turn, AbortReason>)
      requires Wired()
      modifies this, agent, friendliness, stage, actions
      ensures friendliness.threshold == old(friendliness.threshold)
      ensures welcome == old(welcome) && turns == old(turns)
      ensures old(history) <= history && |history| <= |old(history)| + 2
      ensures old(agent.requests) <= agent.requests
      ensures r.Failure? ==> robotLog == old(robotLog)
      ensures r.Success? ==>
                var t, threshold, k := r.value, old(friendliness.threshold), |old(agent.requests)|;
                && t.input == input && t.seen == last && t.score == friendliness.currentScore
                && history == old(history) + TurnMessages(t, threshold)
                && |agent.requests| == k + 4
                && TurnAsked(agent.answer, agent.requests, k, old(history), old(friendliness.currentScore), t, threshold, dynamicSpeech)
                && robotLog == old(robotLog) + [Cue(t.gestures, Eyes(t.score))]
    {
      // The texts of the requests and of the eye colour play no part in this proof.
      hide Friendliness.ScoreRequest, Stages.DetectRequest, Actions.DetectRequest, Directive, Eyes, Opening;
      hide TurnHead.HeadOf, ParseLabels;
      var threshold := friendliness.threshold;
      ghost var k := |agent.requests|;
      ghost var before := history;
      var assessed := TurnHead.Assess(friendliness, stage, agent, last, input);
      if assessed.Failure? {
        return Failure(HeadFailed(assessed.error));
      }
      ghost var headed := agent.requests;
      var (score, lastStage) := assessed.value;
      var resp := Respond(input, lastStage == Stage5);
      ghost var asked := agent.requests[k + 2];
      var shown := ShowReply(resp);
      if shown.Failure? {
        return Failure(shown.error);
      }
      var t := Turn(input, last, score, lastStage, resp, shown.value);
      if lastStage != Stage5 {
        history := history + [Message(Assistant, resp)];
      }
      assert agent.requests[..k + 2] == headed;
      assert asked == ReplyRequest(before, t, threshold, dynamicSpeech);
      assert agent.requests[k + 3] == Actions.DetectRequest(t.reply);
      assert history == before + TurnMessages(t, threshold);
      r := Success(t);
    }

    /** The welcome of `main`: the persona and the user's greeting are added, and the welcome
        is asked for with the dynamic-speech instruction pushed and then popped. */
    method AskWelcome() returns (naoWelcome: string)
      modifies this, agent
      ensures history == old(history) + Opening(intro)
      ensures agent.requests == old(agent.requests) + [old(history) + Opening(intro) + [Message(System, dynamicSpeech)]]
      ensures naoWelcome == welcome == old(agent.NextReply(history + Opening(intro) + [Message(System, dynamicSpeech)]))
      ensures turns == [] && robotLog == old(robotLog)
    {
      hide Opening;
      history := history + Opening(intro);
      history := history + [Message(System, dynamicSpeech)];
      naoWelcome := agent.Ask(history, None);
      history := history[..|history| - 1];
      welcome := naoWelcome;
      turns := [];
    }

    /** The opening of `main`: the welcome is asked for, the first input is read and
        discarded, and the welcome's gestures are shown and the welcome recorded. */
    method Greet(inputs: seq<string>) returns (r: Result<string, AbortReason>)
      requires Wired()
      modifies this, agent, actions
      ensures friendliness.currentScore == old(friendliness.currentScore)
      ensures welcome == old(agent.answer(|agent.requests|, history + Opening(intro) + [Message(System, dynamicSpeech)]))
      ensures turns == []
      ensures r.Failure? ==> history == old(history) + Opening(intro)
      ensures old(agent.requests) <= agent.requests && old(robotLog) <= robotLog
      ensures |inputs| == 0 <==> r == Failure(EndOfInput)
      ensures |inputs| > 0 ==>
                (r.Success? <==> ParseLabels(agent.answer(|old(agent.requests)| + 1, Actions.DetectRequest(welcome)), Actions.Top).Success?)
      ensures r.Success? ==>
                && r.value == welcome
                && history == old(history) + Opening(intro) + [Message(Assistant, welcome)]
                && agent.requests == old(agent.requests) + [old(history) + Opening(intro) + [Message(System, dynamicSpeech)], Actions.DetectRequest(welcome)]
      ensures r.Success? ==>
                var shown := ParseLabels(agent.answer(|old(agent.requests)| + 1, Actions.DetectRequest(welcome)), Actions.Top);
                && shown.Success?
                && robotLog == old(robotLog) + [Cue(shown.value, Eyes(friendliness.currentScore))]
    {
      hide Actions.DetectRequest, ParseLabels, Eyes, Opening;
      ghost var k := |agent.requests|;
      var naoWelcome := AskWelcome();
      if |inputs| == 0 {
        return Failure(EndOfInput);
      }
      assert agent.NextReply(Actions.DetectRequest(welcome)) == agent.answer(k + 1, Actions.DetectRequest(welcome));
      var shown := ShowReply(naoWelcome);
      if shown.Failure? {
        return Failure(shown.error);
      }
      history := history + [Message(Assistant, naoWelcome)];
      r := Success(naoWelcome);
    }

    /** The history a run has built from `start` once the welcome is recorded. */
    ghost function Transcript(start: seq<Message>, threshold: real): seq<Message>
      reads this
    {
      start + Opening(intro) + [Message(Assistant, welcome)] + HistoryOf(turns, threshold)
    }

    /** The opening of a run that got past it: the welcome was asked for at position `at`,
        on the history `start`, the persona and the greeting with the dynamic-speech
        instruction on top; the gestures of the welcome were asked for next, parsed, and
        shown after the cues `log0` with the eye colour of the score `score0`. */
    ghost predicate Welcomed(start: seq<Message>, at: nat, score0: real, log0: seq<Cue>)
      reads this, agent
    {
      && at + 1 < |agent.requests|
      && agent.requests[at] == start + Opening(intro) + [Message(System, dynamicSpeech)]
      && welcome == agent.answer(at, agent.requests[at])
      && agent.requests[at + 1] == Actions.DetectRequest(welcome)
      && var shown := ParseLabels(agent.answer(at + 1, agent.requests[at + 1]), Actions.Top);
      && shown.Success?
      && |robotLog| > |log0| && robotLog[..|log0| + 1] == log0 + [Cue(shown.value, Eyes(score0))]
    }

    /** The loop of `main`, after the welcome: up to 100 turns, each consuming the next input
        and making four requests. Unless an exception ends it, the loop stops after a Stage5
        turn or after 100 turns, with exactly each turn's messages added to the history. */
    method Converse(inputs: seq<string>, naoWelcome: string) returns (outcome: Outcome)
      requires Wired()
      requires |inputs| > 0 && turns == [] && welcome == naoWelcome
      modifies this, agent, friendliness, stage, actions
      ensures welcome == old(welcome) && friendliness.threshold == old(friendliness.threshold)
      ensures var threshold, at, opening := old(friendliness.threshold), |old(agent.requests)|, old(history);
              && old(agent.requests) <= agent.requests && |agent.requests| >= at + 4 * |turns|
              && Chained(welcome, turns) && |turns| <= MaxTurns
              && |turns| < |inputs| && (forall i :: 0 <= i < |turns| ==> turns[i].input == inputs[i + 1])
              && RepliesFromAgent(agent.answer, agent.requests, at, opening, old(friendliness.currentScore), turns, threshold, dynamicSpeech)
              && robotLog == old(robotLog) + Cues(turns)
              && opening + HistoryOf(turns, threshold) <= history
              && |history| <= |opening + HistoryOf(turns, threshold)| + 2
              && (!outcome.Aborted? ==>
                    && history == opening + HistoryOf(turns, threshold)
                    && |agent.requests| == at + 4 * |turns|
                    && (outcome == Stage5Exit <==> |turns| > 0 && turns[|turns| - 1].stage == Stage5)
                    && (outcome == TurnsExhausted ==> |turns| == MaxTurns))
    {
      hide Friendliness.ScoreRequest, Stages.DetectRequest, Actions.DetectRequest, Directive, Eyes, Opening;
      hide HistoryOf, Cues, RepliesFromAgent, Chained, TurnMessages, TurnPrefix, ReplyRequest, TurnAsked;
      hide TurnHead.HeadOf, ParseLabels;
      var threshold := friendliness.threshold;
      var opening := history;
      var requests0 := agent.requests;
      var log0 := robotLog;
      var last := naoWelcome;
      ghost var score0 := friendliness.currentScore;
      var t := 0;
      NoTurns(agent.answer, agent.requests, |requests0|, opening, score0, welcome, threshold, dynamicSpeech);
      while t < MaxTurns
        invariant 0 <= t <= MaxTurns && |turns| == t && t < |inputs|
        invariant friendliness.threshold == threshold && welcome == old(welcome)
        invariant history == opening + HistoryOf(turns, threshold)
        invariant Chained(welcome, turns) && forall i :: 0 <= i < t ==> turns[i].stage != Stage5
        invariant last == if t == 0 then welcome else turns[t - 1].reply
        invariant friendliness.currentScore == ScoreBefore(score0, turns, t)
        invariant forall i :: 0 <= i < t ==> turns[i].input == inputs[i + 1]
        invariant requests0 <= agent.requests && |agent.requests| == |requests0| + 4 * t
        invariant RepliesFromAgent(agent.answer, agent.requests, |requests0|, opening, score0, turns, threshold, dynamicSpeech)
        invariant robotLog == log0 + Cues(turns)
      {
        if t + 1 >= |inputs| {
          return Aborted(EndOfInput);
        }
        ghost var before := agent.requests;
        var played := PlayTurn(inputs[t + 1], last);
        RepliesExtend(agent.answer, before, agent.requests, |requests0|, opening, score0, turns, threshold, dynamicSpeech);
        if played.Failure? {
          return Aborted(played.error);
        }
        var turn := played.value;
        AppendTurn(agent.answer, agent.requests, |requests0|, opening, score0, turns, turn, threshold, dynamicSpeech);
        ChainTurn(welcome, turns, turn);
        turns := turns + [turn];
        if turn.stage == Stage5 {
          return Stage5Exit;
        }
        last := turn.reply;
        t := t + 1;
      }
      return TurnsExhausted;
    }

    /** `main()`. The history opens with the persona and the user's greeting; the welcome
        reply is asked for with the dynamic-speech instruction pushed and then popped; the
        first input is read and discarded; the welcome's gestures are shown; then the turns
        run. Unless an exception ends it, the run stops after a Stage5 turn or after 100
        turns, and its history is exactly the opening, the welcome and each turn's messages.
        Every reply is the agent's answer to the history so far with the dynamic-speech
        instruction on top. */
    method Run(inputs: seq<string>) returns (outcome: Outcome)
      requires Wired()
      modifies this, agent, friendliness, stage, actions
      ensures var start := old(history);
              var threshold := old(friendliness.threshold);
              var at := |old(agent.requests)|;
              var opening := start + Opening(intro) + [Message(Assistant, welcome)];
              && friendliness.threshold == threshold
              && |history| >= |start| + 2 && history[..|start| + 2] == start + Opening(intro)
              && old(agent.requests) <= agent.requests
              && (|history| > |start| + 2 ==>
                    && |agent.requests| >= at + 2 + 4 * |turns|
                    && Welcomed(start, at, old(friendliness.currentScore), old(robotLog))
                    && Chained(welcome, turns) && |turns| <= MaxTurns
                    && |turns| < |inputs| && (forall i :: 0 <= i < |turns| ==> turns[i].input == inputs[i + 1])
                    && RepliesFromAgent(agent.answer, agent.requests, at + 2, opening, old(friendliness.currentScore), turns, threshold, dynamicSpeech)
                    && robotLog == robotLog[..|old(robotLog)| + 1] + Cues(turns)
                    && Transcript(start, threshold) <= history
                    && |history| <= |Transcript(start, threshold)| + 2)
              && (!outcome.Aborted? ==>
                    && history == Transcript(start, threshold)
                    && |agent.requests| == at + 2 + 4 * |turns|
                    && (outcome == Stage5Exit <==> |turns| > 0 && turns[|turns| - 1].stage == Stage5)
                    && (outcome == TurnsExhausted ==> |turns| == MaxTurns))
    {
      hide Friendliness.ScoreRequest, Stages.DetectRequest, Actions.DetectRequest, Directive, Eyes, Opening;
      hide HistoryOf, Cues, RepliesFromAgent, Chained, TurnMessages, TurnPrefix, ReplyRequest;
      hide ParseLabels;
      var start := history;
      var requests0 := agent.requests;
      var log0 := robotLog;
      var greeted := Greet(inputs);
      if greeted.Failure? {
        return Aborted(greeted.error);
      }
      assert agent.requests[|requests0|] == start + Opening(intro) + [Message(System, dynamicSpeech)];
      assert agent.requests[|requests0| + 1] == Actions.DetectRequest(welcome);
      assert Welcomed(start, |requests0|, friendliness.currentScore, log0);
      ghost var greetedRequests, greetedLog := agent.requests, robotLog;
      outcome := Converse(inputs, greeted.value);
      assert agent.requests[..|greetedRequests|] == greetedRequests;
      assert robotLog[..|greetedLog|] == greetedLog;
    }
  }
}
