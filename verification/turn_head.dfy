/** The head of a turn in sir_code/main.py and sir_code/main_desktop.py: the user's line is
    scored against the previous reply, then the stage of that reply is detected. Both
    drivers run these two calls, in this order, before the user's line enters the history. */
module TurnHead {
  import opened Results
  import opened Agents
  import opened LabelParser
  import Friendliness
  import Stages

  /** The exception that ends a turn's head: the scorer's or the stage tracker's assertion. */
  datatype HeadError = ScoringFailed(scoring: LabelError) | StageFailed(stage: Stages.StageError)

  /** What the head of a turn yields from the scorer's answer and, when scoring succeeded,
      the stage tracker's answer: the score moved by the reply's delta and clamped, and the
      detected stage; or the assertion that failed first. */
  function HeadOf(prev: real, scoreAnswer: string, stageAnswer: string): Result<(real, string), HeadError> {
    match Friendliness.ScoreReply(scoreAnswer)
    case Failure(e) => Failure(ScoringFailed(e))
    case Success(scored) =>
      match Stages.DetectStage(stageAnswer)
      case Failure(e) => Failure(StageFailed(e))
      case Success(detected) => Success((Friendliness.Clamp(prev + scored.delta), detected))
  }

  /** A head that succeeds keeps a score in [-5, 5] and reports either no stage or a stage
      token the tracker's answer names, the highest one; it fails on scoring exactly when the
      scorer's answer is refused, whatever the tracker answered. */
  lemma HeadOutcome(prev: real, scoreAnswer: string, stageAnswer: string)
    ensures HeadOf(prev, scoreAnswer, stageAnswer).Failure? && HeadOf(prev, scoreAnswer, stageAnswer).error.ScoringFailed?
            <==> Friendliness.ScoreReply(scoreAnswer).Failure?
    ensures var r := HeadOf(prev, scoreAnswer, stageAnswer);
            r.Success? ==>
              && -5.0 <= r.value.0 <= 5.0
              && (r.value.1 == "" || Stages.IsStageToken(r.value.1))
  {
    var r := HeadOf(prev, scoreAnswer, stageAnswer);
    if r.Success? {
      Stages.DetectStageOutcome(stageAnswer);
    }
  }

  /** `friendliness.score(nao_text=last, user_text=input)`, seen from a driver: one request;
      the turn ends when the reply is refused, and otherwise the new score is the old one
      moved by the reply's delta, clamped. */
  method ScoreLine(friendliness: Friendliness.UserFriendliness, agent: Agent, last: string, input: string)
    returns (r: Result<real, HeadError>)
    requires friendliness.agent == agent
    modifies friendliness, agent
    ensures friendliness.threshold == old(friendliness.threshold)
    ensures agent.requests == old(agent.requests) + [Friendliness.ScoreRequest(last, input)]
    ensures var scored := Friendliness.ScoreReply(old(agent.NextReply(Friendliness.ScoreRequest(last, input))));
            && (r.Failure? <==> scored.Failure?)
            && (r.Failure? ==> r.error == ScoringFailed(scored.error)
                               && friendliness.currentScore == old(friendliness.currentScore))
            && (r.Success? ==> r.value == friendliness.currentScore
                               && friendliness.currentScore == Friendliness.Clamp(old(friendliness.currentScore) + scored.value.delta))
  {
    var scored := friendliness.Score(last, input, true);
    if scored.Failure? {
      return Failure(ScoringFailed(scored.error));
    }
    r := Success(friendliness.currentScore);
  }

  /** `stage.detect(nao_text=last)`, seen from a driver: one request, whose answer decides the
      stage or ends the turn. */
  method StageOf(stage: Stages.StageDetection, agent: Agent, last: string) returns (r: Result<string, HeadError>)
    requires stage.agent == agent
    modifies stage, agent
    ensures agent.requests == old(agent.requests) + [Stages.DetectRequest(last)]
    ensures var detected := Stages.DetectStage(old(agent.NextReply(Stages.DetectRequest(last))));
            && (r.Failure? <==> detected.Failure?)
            && (r.Failure? ==> r.error == StageFailed(detected.error))
            && (r.Success? ==> r.value == detected.value)
  {
    var detected := stage.Detect(last);
    if detected.Failure? {
      return Failure(StageFailed(detected.error));
    }
    r := Success(detected.value);
  }

  /** The two classifier calls, scoring first: the tracker is asked only when scoring
      succeeded, and the outcome is `HeadOf` the two answers. The score is saved before the
      stage is detected, so a refused stage answer leaves the new score in place. */
  method Assess(friendliness: Friendliness.UserFriendliness, stage: Stages.StageDetection, agent: Agent,
                last: string, input: string)
    returns (r: Result<(real, string), HeadError>)
    requires friendliness.agent == agent && stage.agent == agent
    modifies friendliness, stage, agent
    ensures friendliness.threshold == old(friendliness.threshold)
    ensures var k, scoring, staging := |old(agent.requests)|, Friendliness.ScoreRequest(last, input), Stages.DetectRequest(last);
            var scored := Friendliness.ScoreReply(agent.answer(k, scoring));
            && |agent.requests| > k && agent.requests[..k + 1] == old(agent.requests) + [scoring]
            && (scored.Failure? ==> agent.requests == old(agent.requests) + [scoring]
                                    && friendliness.currentScore == old(friendliness.currentScore))
            && (scored.Success? ==> agent.requests == old(agent.requests) + [scoring, staging]
                                    && friendliness.currentScore == Friendliness.Clamp(old(friendliness.currentScore) + scored.value.delta))
            && r == HeadOf(old(friendliness.currentScore), agent.answer(k, scoring), agent.answer(k + 1, staging))
    ensures r.Success? ==>
              && agent.requests == old(agent.requests) + [Friendliness.ScoreRequest(last, input), Stages.DetectRequest(last)]
              && r.value.0 == friendliness.currentScore
  {
    hide Friendliness.ScoreRequest, Stages.DetectRequest;
    var scored := ScoreLine(friendliness, agent, last, input);
    if scored.Failure? {
      return Failure(scored.error);
    }
    var detected := StageOf(stage, agent, last);
    if detected.Failure? {
      return Failure(detected.error);
    }
    r := Success((scored.value, detected.value));
  }
}
