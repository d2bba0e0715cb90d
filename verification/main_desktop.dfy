/** sir_code/main_desktop.py as configured (`RUN_ROBOT = 0`): the tavern conversation at a
    terminal. Each of up to 100 turns scores the user's line against the previous reply and
    detects the stage of that reply, adds the threshold directive on a Stage5 turn, adds the
    user's line, asks the agent (streamed, no token budget) and records the reply. Unlike
    sir_code/main.py nothing is ever popped: every directive stays in the history, and a
    Stage5 turn does not end the conversation. */
module MainDesktop {
  import opened Results
  import opened Agents
  import opened NaoControls
  import Friendliness
  import Stages
  import TurnHead

  const UserWelcome: string := "Hey there! Mind if I share a table with you? this place is packed!"
  const NotAllowed: string := "Friendliness threshold not met, Find a way to end the conversation. \n                Response: It was great chatting with you. Safe travels."
  const IsAllowed: string := "Friendliness threshold is met, Find a way to end the conversation. \n                Response: Would you consider joining me on such a venture? \n                Also, tell them: Seek the oldest elm in the dark forest."
  const MaxTurns: nat := 100
  const Stage5: string := "Stage5"
  /** `Demo(friendliness_threshold=5)`: with the score kept in [-5, 5], only a full score meets it. */
  const DefaultThreshold: real := 5.0

  /** `_get_threshold_prompt()` for a given `threshold_met`. */
  function Directive(met: bool): Message {
    ThresholdDirective(met, NotAllowed, IsAllowed)
  }

  /** The directive is a system message that grants the key exactly when the threshold is met. */
  lemma DirectiveChoice(met: bool)
    ensures Directive(met).role == System
    ensures Directive(met).content == IsAllowed <==> met
  {
    assert |NotAllowed| != |IsAllowed|;
  }

  /** One completed turn: the user's line, the reply it was scored against, the score after
      scoring, the detected stage of that reply and the agent's new reply. */
  datatype Turn = Turn(input: string, seen: string, score: real, stage: string, reply: string)

  /** Messages a turn adds before the agent is asked: the directive on a Stage5 turn, then
      the user's line. */
  function TurnPrefix(t: Turn, threshold: real): seq<Message> {
    (if t.stage == Stage5 then [Directive(t.score >= threshold)] else []) + [Message(User, t.input)]
  }

  /** Messages a turn leaves in the history: its prefix and its reply, three on a Stage5 turn
      and two otherwise. */
  function TurnMessages(t: Turn, threshold: real): (r: seq<Message>)
    ensures |r| == if t.stage == Stage5 then 3 else 2
  {
    TurnPrefix(t, threshold) + [Message(Assistant, t.reply)]
  }

  /** How many of the turns were Stage5 turns. */
  function Stage5Turns(turns: seq<Turn>): nat
    decreases |turns|
  {
    if turns == [] then 0
    else Stage5Turns(turns[..|turns| - 1]) + (if turns[|turns| - 1].stage == Stage5 then 1 else 0)
  }

  /** The messages the turns leave in the history: two per turn and one more per directive. */
  function HistoryOf(turns: seq<Turn>, threshold: real): (r: seq<Message>)
    ensures |r| == 2 * |turns| + Stage5Turns(turns)
    decreases |turns|
  {
    if turns == [] then [] else HistoryOf(turns[..|turns| - 1], threshold) + TurnMessages(turns[|turns| - 1], threshold)
  }

  /** Each turn is scored against the previous reply, the welcome for the first. */
  predicate Chained(welcome: string, turns: seq<Turn>) {
    && (|turns| > 0 ==> turns[0].seen == welcome)
    && (forall i :: 0 < i < |turns| ==> turns[i].seen == turns[i - 1].reply)
  }

  /** `[{"role": "system", ...intro}, {"role": "user", ..._USER_WELCOME}]` */
  function Opening(intro: string): (r: seq<Message>)
    ensures |r| == 2
  {
    [Message(System, intro), Message(User, UserWelcome)]
  }

  /** Nothing is removed from the history: the messages of turn `i` stay in place after
      all later turns. */
  lemma {:induction false} TurnKept(turns: seq<Turn>, threshold: real, i: nat)
    requires i < |turns|
    ensures HistoryOf(turns[..i], threshold) + TurnMessages(turns[i], threshold) <= HistoryOf(turns, threshold)
    decreases |turns|
  {
    hide Directive, TurnPrefix, TurnMessages, Stage5Turns;
    var n := |turns| - 1;
    var front := turns[..n];
    assert HistoryOf(turns, threshold) == HistoryOf(front, threshold) + TurnMessages(turns[n], threshold);
    if i < n {
      TurnKept(front, threshold, i);
      assert front[..i] == turns[..i] && front[i] == turns[i];
    } else {
      assert turns[..i] == front;
    }
  }

  /** The directive of every Stage5 turn persists: it sits right before that turn's user line
      in the final history, and reflects the score of that turn. */
  lemma DirectivesPersist(turns: seq<Turn>, threshold: real)
    ensures forall i :: 0 <= i < |turns| && turns[i].stage == Stage5 ==>
              var k := |HistoryOf(turns[..i], threshold)|;
              && k + 1 < |HistoryOf(turns, threshold)|
              && HistoryOf(turns, threshold)[k] == Directive(turns[i].score >= threshold)
              && HistoryOf(turns, threshold)[k + 1] == Message(User, turns[i].input)
  {
    hide Directive;
    forall i | 0 <= i < |turns| && turns[i].stage == Stage5
      ensures var k := |HistoryOf(turns[..i], threshold)|;
              && k + 1 < |HistoryOf(turns, threshold)|
              && HistoryOf(turns, threshold)[k] == Directive(turns[i].score >= threshold)
              && HistoryOf(turns, threshold)[k + 1] == Message(User, turns[i].input)
    {
      TurnKept(turns, threshold, i);
      var p := HistoryOf(turns[..i], threshold);
      var m := TurnMessages(turns[i], threshold);
      var h := HistoryOf(turns, threshold);
      assert p + m <= h;
      assert h[|p|] == (p + m)[|p|] == m[0];
      assert h[|p| + 1] == (p + m)[|p| + 1] == m[1];
    }
  }

  /** The only system messages the turns leave are directives of Stage5 turns: a system
      message at position `k` is the directive of some Stage5 turn. */
  lemma {:induction false} SystemMessagesAreDirectives(turns: seq<Turn>, threshold: real, k: nat)
    requires k < |HistoryOf(turns, threshold)| && HistoryOf(turns, threshold)[k].role == System
    ensures exists i :: 0 <= i < |turns| && turns[i].stage == Stage5
                        && HistoryOf(turns, threshold)[k] == Directive(turns[i].score >= threshold)
    decreases |turns|
  {
    hide Directive;
    var n := |turns| - 1;
    var front := turns[..n];
    var h := HistoryOf(turns, threshold);
    var p := HistoryOf(front, threshold);
    var t := turns[n];
    assert h == p + TurnMessages(t, threshold);
    if k < |p| {
      assert h[k] == p[k];
      SystemMessagesAreDirectives(front, threshold, k);
      var i :| 0 <= i < |front| && front[i].stage == Stage5 && p[k] == Directive(front[i].score >= threshold);
      assert turns[i] == front[i];
    } else {
      DirectiveChoice(t.score >= threshold);
      assert h[k] == TurnMessages(t, threshold)[k - |p|];
      assert k == |p| && t.stage == Stage5;
    }
  }

  /** The request a turn's reply is asked with: the history so far, then the turn's directive
      and user line. */
  function ReplyRequest(before: seq<Message>, t: Turn, threshold: real): seq<Message> {
    before + TurnPrefix(t, threshold)
  }

  /** The score a turn starts from: the scorer's score before the run for the first turn. */
  function ScoreBefore(score0: real, turns: seq<Turn>, n: int): real {
    if n <= 0 || n > |turns| then score0 else turns[n - 1].score
  }

  /** The three requests of turn `t`, from position `k` of the agent's requests on: its line
      scored against the reply it saw, the stage of that reply, and its own reply (asked on
      the history `before`). The turn's score (moved from `prev` and clamped), stage and
      reply are what those answers give. */
  predicate TurnAsked(answer: (nat, seq<Message>) -> string, requests: seq<seq<Message>>, k: int,
                      before: seq<Message>, prev: real, t: Turn, threshold: real)
  {
    var scoring := Friendliness.ScoreRequest(t.seen, t.input);
    var staging := Stages.DetectRequest(t.seen);
    var asked := ReplyRequest(before, t, threshold);
    && 0 <= k && k + 2 < |requests|
    && requests[k] == scoring && requests[k + 1] == staging
    && TurnHead.HeadOf(prev, answer(k, scoring), answer(k + 1, staging)) == Success((t.score, t.stage))
    && requests[k + 2] == asked && t.reply == answer(k + 2, asked)
  }

  /** Each turn makes three requests, from position `at` on, as `TurnAsked` describes, its
      reply request holding the history built so far after `start`, and its score moving on
      from the previous turn's (from `score0` for the first). */
  predicate RepliesFromAgent(answer: (nat, seq<Message>) -> string, requests: seq<seq<Message>>, at: nat,
                             start: seq<Message>, score0: real, turns: seq<Turn>, threshold: real)
    decreases |turns|
  {
    turns == [] ||
      var n := |turns| - 1;
      var front := turns[..n];
      && RepliesFromAgent(answer, requests, at, start, score0, front, threshold)
      && TurnAsked(answer, requests, at + 3 * n, start + HistoryOf(front, threshold),
                   ScoreBefore(score0, turns, n), turns[n], threshold)
  }

  /** More requests do not change what the earlier ones were. */
  lemma {:induction false} RepliesExtend(answer: (nat, seq<Message>) -> string, requests: seq<seq<Message>>,
                                         more: seq<seq<Message>>, at: nat, start: seq<Message>, score0: real,
                                         turns: seq<Turn>, threshold: real)
    requires requests <= more
    requires RepliesFromAgent(answer, requests, at, start, score0, turns, threshold)
    ensures RepliesFromAgent(answer, more, at, start, score0, turns, threshold)
    decreases |turns|
  {
    hide Friendliness.ScoreRequest, Stages.DetectRequest, TurnHead.HeadOf, ReplyRequest, HistoryOf;
    if turns != [] {
      var n := |turns| - 1;
      var k := at + 3 * n;
      RepliesExtend(answer, requests, more, at, start, score0, turns[..n], threshold);
      assert more[k] == requests[k] && more[k + 1] == requests[k + 1] && more[k + 2] == requests[k + 2];
    }
  }

  /** Read turn by turn: turn `i` made its three requests from position `at + 3i` on, as
      `TurnAsked` describes: the agent saw the whole history so far, every earlier directive
      included, and then the turn's directive and user line, and the turn's score moved on
      from the previous turn's (from `score0` for the first). */
  lemma {:induction false} RepliesAt(answer: (nat, seq<Message>) -> string, requests: seq<seq<Message>>, at: nat,
                                     start: seq<Message>, score0: real, turns: seq<Turn>, threshold: real)
    requires RepliesFromAgent(answer, requests, at, start, score0, turns, threshold)
    ensures forall i :: 0 <= i < |turns| ==>
              TurnAsked(answer, requests, at + 3 * i, start + HistoryOf(turns[..i], threshold),
                        ScoreBefore(score0, turns, i), turns[i], threshold)
    decreases |turns|
  {
    hide TurnAsked, HistoryOf, Directive, TurnPrefix, TurnMessages, Stage5Turns;
    if turns != [] {
      var n := |turns| - 1;
      var front := turns[..n];
      RepliesAt(answer, requests, at, start, score0, front, threshold);
      forall i | 0 <= i < n
        ensures TurnAsked(answer, requests, at + 3 * i, start + HistoryOf(turns[..i], threshold),
                          ScoreBefore(score0, turns, i), turns[i], threshold)
      {
        assert front[..i] == turns[..i] && front[i] == turns[i];
        assert ScoreBefore(score0, front, i) == ScoreBefore(score0, turns, i);
      }
    }
  }

  /** What one more turn adds to the history and the requests. */
  lemma AppendTurn(answer: (nat, seq<Message>) -> string, requests: seq<seq<Message>>, at: nat,
                   start: seq<Message>, score0: real, turns: seq<Turn>, t: Turn, threshold: real)
    ensures HistoryOf(turns + [t], threshold) == HistoryOf(turns, threshold) + TurnMessages(t, threshold)
    ensures ScoreBefore(score0, turns + [t], |turns|) == ScoreBefore(score0, turns, |turns|)
    ensures RepliesFromAgent(answer, requests, at, start, score0, turns + [t], threshold)
            <==> && RepliesFromAgent(answer, requests, at, start, score0, turns, threshold)
                 && TurnAsked(answer, requests, at + 3 * |turns|, start + HistoryOf(turns, threshold),
                              ScoreBefore(score0, turns, |turns|), t, threshold)
  {
    hide Directive, TurnPrefix, TurnMessages, ReplyRequest, TurnAsked;
    var u := turns + [t];
    assert u[..|turns|] == turns && u[|u| - 1] == t && |u| - 1 == |turns|;
  }

  /** A run with no turns yet. */
  lemma NoTurns(answer: (nat, seq<Message>) -> string, requests: seq<seq<Message>>, at: nat,
                start: seq<Message>, score0: real, welcome: string, threshold: real)
    ensures HistoryOf([], threshold) == []
    ensures RepliesFromAgent(answer, requests, at, start, score0, [], threshold) && Chained(welcome, [])
  {
  }

  /** A turn scored against the last reply keeps the run chained. */
  lemma ChainTurn(welcome: string, turns: seq<Turn>, t: Turn)
    requires Chained(welcome, turns)
    requires t.seen == if turns == [] then welcome else turns[|turns| - 1].reply
    ensures Chained(welcome, turns + [t])
  {
    var u := turns + [t];
    assert u[0] == if turns == [] then t else turns[0];
    forall i | 0 < i < |u| ensures u[i].seen == u[i - 1].reply {
      if i == |turns| {
        assert u[i] == t && u[i - 1] == turns[|turns| - 1];
      } else {
        assert u[i] == turns[i] && u[i - 1] == turns[i - 1];
      }
    }
  }

  /** What ends `main` by an exception: no more input, or a classifier of the turn's head. */
  datatype AbortReason = EndOfInput | HeadFailed(head: TurnHead.HeadError)

  /** How `main` ends: after all 100 turns, or by an exception. */
  datatype Outcome = TurnsExhausted | Aborted(reason: AbortReason)

  class Demo {
    const agent: Agent
    const friendliness: Friendliness.UserFriendliness
    const stage: Stages.StageDetection
    /** `_AGENT_INTRO_CONTEXT`: the persona instructions. */
    const intro: string
    var history: seq<Message>
    ghost var welcome: string
    ghost var turns: seq<Turn>

    /** The classifiers talk to this demo's agent. */
    predicate Wired() {
      friendliness.agent == agent && stage.agent == agent
    }

    /** `Demo(friendliness_threshold)`: one agent shared by the two classifiers. */
    constructor (agent: Agent, threshold: real, intro: string)
      ensures Wired() && this.agent == agent && this.intro == intro
      ensures fresh(friendliness) && fresh(stage)
      ensures friendliness.threshold == threshold && friendliness.currentScore == 0.0 && friendliness.scoringHistory == []
      ensures stage.currentStage == "" && history == []
    {
      this.agent := agent;
      this.intro := intro;
      friendliness := new Friendliness.UserFriendliness(agent, threshold);
      stage := new Stages.StageDetection(agent);
      history := [];
    }

    /** The reply of a turn: the directive (on a Stage5 turn) and the user's line are added,
        the agent is asked over the whole history, and its reply is added. */
    method Respond(input: string, stage5: bool) returns (resp: string)
      modifies this, agent
      ensures var added := (if stage5 then [Directive(friendliness.ThresholdMet())] else []) + [Message(User, input)];
              && agent.requests == old(agent.requests) + [old(history) + added]
              && resp == agent.answer(|old(agent.requests)|, old(history) + added)
              && history == old(history) + added + [Message(Assistant, resp)]
      ensures welcome == old(welcome) && turns == old(turns)
    {
      hide Directive;
      if stage5 {
        history := history + [Directive(friendliness.ThresholdMet())];
      }
      history := history + [Message(User, input)];
      assert history == old(history) + ((if stage5 then [Directive(friendliness.ThresholdMet())] else []) + [Message(User, input)]);
      resp := agent.Ask(history, None);
      history := history + [Message(Assistant, resp)];
    }

    /** One pass of the loop body of `main`: score the user's line against the previous reply,
        detect the stage of that reply, add the directive (Stage5 only) and the user's line,
        ask for the reply over the whole history and record it. An exception comes from the
        classifiers, before anything is added. */
    method PlayTurn(input: string, last: string) returns (r: Result<Turn, TurnHead.HeadError>)
      requires Wired()
      modifies this, agent, friendliness, stage
      ensures friendliness.threshold == old(friendliness.threshold)
      ensures welcome == old(welcome) && turns == old(turns)
      ensures old(agent.requests) <= agent.requests
      ensures r.Failure? ==> history == old(history)
      ensures r.Success? ==>
                var t, threshold, k := r.value, old(friendliness.threshold), |old(agent.requests)|;
                && t.input == input && t.seen == last && t.score == friendliness.currentScore
                && history == old(history) + TurnMessages(t, threshold)
                && |agent.requests| == k + 3
                && TurnAsked(agent.answer, agent.requests, k, old(history), old(friendliness.currentScore), t, threshold)
    {
      // The texts of the classifier requests play no part in this proof.
      hide Friendliness.ScoreRequest, Stages.DetectRequest, Directive, TurnHead.HeadOf;
      var threshold := friendliness.threshold;
      ghost var k := |agent.requests|;
      ghost var before := history;
      var assessed := TurnHead.Assess(friendliness, stage, agent, last, input);
      if assessed.Failure? {
        return Failure(assessed.error);
      }
      ghost var headed := agent.requests;
      var (score, lastStage) := assessed.value;
      var resp := Respond(input, lastStage == Stage5);
      var t := Turn(input, last, score, lastStage, resp);
      assert agent.requests[..k + 2] == headed;
      assert agent.requests[k + 2] == ReplyRequest(before, t, threshold);
      r := Success(t);
    }

    /** The loop of `main`, after the welcome: 100 turns, each consuming the next input and
        making three requests, with no early exit. Whatever ends it, the history holds
        exactly the completed turns' messages after the opening. */
    method Converse(inputs: seq<string>, naoWelcome: string) returns (outcome: Outcome)
      requires Wired()
      requires turns == [] && welcome == naoWelcome
      modifies this, agent, friendliness, stage
      ensures welcome == old(welcome) && friendliness.threshold == old(friendliness.threshold)
      ensures var threshold, at, opening := old(friendliness.threshold), |old(agent.requests)|, old(history);
              && old(agent.requests) <= agent.requests
              && Chained(welcome, turns) && |turns| <= MaxTurns && |turns| <= |inputs|
              && (forall i :: 0 <= i < |turns| ==> turns[i].input == inputs[i])
              && RepliesFromAgent(agent.answer, agent.requests, at, opening, old(friendliness.currentScore), turns, threshold)
              && history == opening + HistoryOf(turns, threshold)
              && (outcome == TurnsExhausted <==> |turns| == MaxTurns)
              && (outcome == Aborted(EndOfInput) ==> |turns| == |inputs|)
              && (!outcome.Aborted? ==> |agent.requests| == at + 3 * |turns|)
    {
      hide Friendliness.ScoreRequest, Stages.DetectRequest, Directive, Opening;
      hide HistoryOf, RepliesFromAgent, Chained, TurnMessages, TurnPrefix, ReplyRequest, TurnAsked, TurnHead.HeadOf;
      var threshold := friendliness.threshold;
      var opening := history;
      var requests0 := agent.requests;
      var last := naoWelcome;
      ghost var score0 := friendliness.currentScore;
      var t := 0;
      NoTurns(agent.answer, agent.requests, |requests0|, opening, score0, welcome, threshold);
      outcome := TurnsExhausted;
      while t < MaxTurns
        invariant 0 <= t <= MaxTurns && |turns| == t && t <= |inputs|
        invariant friendliness.threshold == threshold && welcome == old(welcome)
        invariant history == opening + HistoryOf(turns, threshold)
        invariant Chained(welcome, turns)
        invariant last == if t == 0 then welcome else turns[t - 1].reply
        invariant friendliness.currentScore == ScoreBefore(score0, turns, t)
        invariant forall i :: 0 <= i < t ==> turns[i].input == inputs[i]
        invariant requests0 <= agent.requests && |agent.requests| == |requests0| + 3 * t
        invariant RepliesFromAgent(agent.answer, agent.requests, |requests0|, opening, score0, turns, threshold)
        invariant outcome == TurnsExhausted
      {
        if t >= |inputs| {
          outcome := Aborted(EndOfInput);
          break;
        }
        ghost var before := agent.requests;
        var played := PlayTurn(inputs[t], last);
        RepliesExtend(agent.answer, before, agent.requests, |requests0|, opening, score0, turns, threshold);
        if played.Failure? {
          outcome := Aborted(HeadFailed(played.error));
          break;
        }
        var turn := played.value;
        AppendTurn(agent.answer, agent.requests, |requests0|, opening, score0, turns, turn, threshold);
        ChainTurn(welcome, turns, turn);
        turns := turns + [turn];
        last := turn.reply;
        t := t + 1;
      }
    }

    /** `main()`. The history opens with the persona and the user's greeting, the welcome is
        the agent's answer to exactly that and is recorded, and the turns run. The history
        then holds the opening, the welcome and every completed turn's messages, two per turn
        and one more per Stage5 turn. */
    method Run(inputs: seq<string>) returns (outcome: Outcome)
      requires Wired()
      modifies this, agent, friendliness, stage
      ensures var start, threshold, at := old(history), old(friendliness.threshold), |old(agent.requests)|;
              var opening := start + Opening(intro) + [Message(Assistant, welcome)];
              && friendliness.threshold == threshold
              && old(agent.requests) <= agent.requests && |agent.requests| > at
              && agent.requests[at] == start + Opening(intro)
              && welcome == agent.answer(at, start + Opening(intro))
              && Chained(welcome, turns) && |turns| <= |inputs|
              && (forall i :: 0 <= i < |turns| ==> turns[i].input == inputs[i])
              && RepliesFromAgent(agent.answer, agent.requests, at + 1, opening, old(friendliness.currentScore), turns, threshold)
              && history == opening + HistoryOf(turns, threshold)
              && |history| == |start| + 3 + 2 * |turns| + Stage5Turns(turns)
              && (outcome == TurnsExhausted <==> |turns| == MaxTurns)
              && (outcome == Aborted(EndOfInput) ==> |turns| == |inputs|)
              && (!outcome.Aborted? ==> |agent.requests| == at + 1 + 3 * |turns|)
    {
      hide Friendliness.ScoreRequest, Stages.DetectRequest, Directive;
      hide RepliesFromAgent, Chained, TurnMessages, TurnPrefix, ReplyRequest, TurnAsked, TurnHead.HeadOf;
      var start := history;
      var requests0 := agent.requests;
      history := history + Opening(intro);
      var naoWelcome := agent.Ask(history, None);
      history := history + [Message(Assistant, naoWelcome)];
      welcome := naoWelcome;
      turns := [];
      assert agent.requests[|requests0|] == start + Opening(intro);
      outcome := Converse(inputs, naoWelcome);
    }
  }
}
