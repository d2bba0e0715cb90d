# Friendliness-gated robot bartender: a Dafny model

This project models the decision-making core of a social-robot experiment. A NAO robot (or a terminal stand-in) plays a tavern keeper or bartender. A language agent is asked, on every turn, three questions:

- which of ten friendliness characterisations (letters A..J) apply to the guest's line;
- which pre-recorded gestures (letters A..H) fit the robot's reply;
- which conversation stage (`Stage1`..`Stage5`) the robot's reply has reached.

The answers move a friendliness score clamped to [-5, 5]. A threshold on that score decides whether the robot may reveal a secret. The conversation drivers assemble an append-only message history around these classifications. A separate prototype (`demo2.py`) runs a countdown game with money, happiness and intimacy. The statistics scripts reshape the evaluation forms into long tables and compare the LLM's friendliness labels with human raters' labels by a soft Jaccard index.

The agent is an oracle. `Agents.Agent` keeps an arbitrary function `answer(n, messages)`, the reply to the n-th request, and a log of every request it received. Every contract can therefore say what the agent was shown and that a reply is the agent's answer to exactly that request. Keyboard or speech input is a sequence of strings: running out of input is an abort, like Python's `EOFError`. A Python assertion or `ValueError` that ends a run is an `Aborted`/`Failure` outcome, and the contracts say what state it leaves.

Modules, one per source file, plus shared helpers:

- `Results` is `Option` and `Result`.
- `PyStrings` holds the Python `str` built-ins the code relies on: `strip`, `lower`, `split`, `join`, `splitlines` and `int`.
- `Tables` holds a pandas cell and row-block flattening.
- `Agents` is `sir_code/lib.py` and `sir_code/chatgpt_wrapper.py`.
- `LabelParser` is the strict regex-plus-sort-plus-duplicate parser that the scorer and the gesture detector share.
- `Friendliness`, `Actions` and `Stages` are the three classifiers.
- `Utils` is `sir_code/utils.py`.
- `NaoControls` holds the directive, eye-colour and gesture-map helpers the drivers share.
- `TurnHead` is the score-then-detect head of a turn.
- `MainRobot` is `sir_code/main.py`, with `RUN_ROBOT = 1` as the file sets it.
- `MainDesktop` is `sir_code/main_desktop.py`, with `RUN_ROBOT = 0` as the file sets it.
- `MainNao` is `sir_code/main_nao.py`.
- `Demo2` is `sir_code/demo2.py`.
- `ChatCleaning`, `VideoCleaning` and `FriendlinessEval` are the three statistics scripts.

The code is followed where it departs from a tidier design:

- The stage tracker does not validate its reply.
- A non-"none" stage reply without a stage token fails, on the empty list.
- `main_desktop.py` and `main_nao.py` keep every threshold directive in the history.
- `main.py` pops its speech-tag instruction after each request.
- In `demo2.py` an intimacy of exactly 5 falls into the reveal branch. The branch test is `< 5`, then `5 < x < 9`, then everything else.
- Negative intents index `[3, -0.5, 1, 2]` from the end, as Python does.
- `int(current_score)` truncates toward zero.

## Model

| member | source | states |
|---|---|---|
| Agents.Agent.constructor | sir_code/lib.py:5-11 | a fresh agent has answered no requests and replies by the given oracle |
| Agents.Agent.Ask | sir_code/chatgpt_wrapper.py:16-22 | a token budget, when given, must be positive; the reply is the oracle's answer to this request and the request is appended to the log |
| PyStrings.StripBy | sir_code/user_friendliness.py:76 | `strip(chars)`: the result starts and ends with a kept character, is empty only when every character is stripped, and holds only characters of the input |
| PyStrings.Lower | sir_code/user_friendliness.py:78 | ASCII `lower()` keeps the length |
| PyStrings.NoneWordCases | sir_code/user_friendliness.py:78 | `resp.lower() == "none"` holds exactly for the sixteen upper/lower-case spellings of "none": no other character lowers to one of its letters |
| PyStrings.IndexOf | statistics/chat_data_cleaning.py:22-23 | the first position at which the separator occurs, with no occurrence before it; none exactly when it occurs nowhere |
| PyStrings.Split | statistics/chat_data_cleaning.py:20 | `split(sep)` gives at least one piece |
| PyStrings.JoinSplit | statistics/chat_data_cleaning.py:20-25 | joining the pieces of `split(sep)` with `sep` gives the original string back |
| PyStrings.SplitJoin | sir_code/demo2.py:240 | splitting a join of pieces that lack the separator's first character gives the pieces back |
| PyStrings.SplitLines | sir_code/utils.py:3 | `splitlines()`: no line holds a line break, and only the empty string has no lines |
| PyStrings.ParseIntDecimal | sir_code/demo2.py:215 | `int(str(n)) == n` for every integer, negative ones included |
| PyStrings.ParseIntDigits | sir_code/demo2.py:215 | `int` of a digit string is its decimal value |
| PyStrings.ParseIntNegative | sir_code/demo2.py:215 | `int` of a minus sign and digits is the negated value |
| PyStrings.StripKeepsHead | statistics/chat_data_cleaning.py:21 | stripping leading blanks never cuts into a head that starts and ends with a non-space character |
| PyStrings.Decimal | sir_code/demo2.py:240 | `str(n)` of a natural number is a non-empty digit string |
| LabelParser.RemoveSpace | sir_code/user_friendliness.py:42 | removing whitespace never lengthens the string |
| LabelParser.CommaListUnfold | sir_code/user_friendliness.py:42 | a comma list is a code followed by nothing or by a comma and another comma list |
| LabelParser.ListFromCharacterization | sir_code/user_friendliness.py:42 | the left-to-right reading of the regex accepts exactly the strings whose whitespace-free form is a comma list |
| LabelParser.RegexCharacterization | sir_code/user_friendliness.py:42 | `^\s*([A-J])(?:\s*,\s*([A-J]))*\s*$` (and the A-H twin) matches iff the reply without whitespace alternates codes and commas, starting and ending with a code |
| LabelParser.FindCodes | sir_code/user_friendliness.py:82 | `re.findall(r"[A-J]")` returns only codes of the alphabet |
| LabelParser.ListFromHasCode | sir_code/action.py:55-56 | a reply the regex accepts holds at least one code |
| LabelParser.SortChars | sir_code/user_friendliness.py:82 | `sorted` gives an ascending permutation of the letters |
| LabelParser.SortedUnique | sir_code/user_friendliness.py:82 | there is only one ascending arrangement of a multiset of letters |
| LabelParser.CharSetSize | sir_code/user_friendliness.py:83 | `len(set(s)) == len(s)` holds exactly when no letter repeats |
| LabelParser.ParseAccepted | sir_code/user_friendliness.py:78-83 | an accepted reply gives strictly ascending codes of the alphabet: none for "none" (any case, periods stripped), otherwise exactly the codes of the reply |
| LabelParser.ParseDuplicates | sir_code/user_friendliness.py:83 | a well-formed reply naming a code twice fails as a duplicate, never deduplicated |
| LabelParser.ParseStrayCharacter | sir_code/user_friendliness.py:81 | any other non-"none" reply holding a character that is not whitespace, a comma or a code fails as malformed |
| LabelParser.ParseCanonical | sir_code/action.py:55-57 | two well-formed replies with the same codes are accepted or refused alike, and give the same result |
| LabelParser.OptionsTextLines | sir_code/user_friendliness.py:61 | the prompt's option list reads back as one `code) description` line per entry, in order |
| Friendliness.DeltaConcat | sir_code/user_friendliness.py:85 | the weight sum is additive over concatenation |
| Friendliness.DeltaPermutation | sir_code/user_friendliness.py:82-85 | the weight sum does not depend on the letters' order |
| Friendliness.DeltaBounds | sir_code/user_friendliness.py:30-41 | distinct letters move the score by at least -3.25 and at most 6 |
| Friendliness.Clamp | sir_code/user_friendliness.py:89 | `max(-5, min(x, 5))` lies in [-5, 5], is `x` inside the range and the nearer bound outside |
| Friendliness.ScoreNone | sir_code/user_friendliness.py:76-85 | a "none" reply gives no letters and a delta of 0 |
| Friendliness.ScoreAccepted | sir_code/user_friendliness.py:82-101 | an accepted reply gives distinct ascending letters of A..J, and its delta is their unclamped weight sum, between -3.25 and 6 |
| Friendliness.ScoreRejected | sir_code/user_friendliness.py:78-83 | any other reply fails unless the regex matches, and fails as a duplicate when a letter repeats |
| Friendliness.UserFriendliness.constructor | sir_code/user_friendliness.py:50-58 | empty history, score 0, the given threshold; the score is in range and the threshold is met iff it is at most 0 |
| Friendliness.UserFriendliness.Score | sir_code/user_friendliness.py:74-101 | one request; the result is the parse of the agent's reply; with `save` the letters are appended and the score becomes the clamped sum, otherwise nothing changes; the score stays in [-5, 5]; a non-negative delta keeps a met threshold met |
| Actions.UndescribedLettersAccepted | sir_code/action.py:16-25 | D and H are codes the parser accepts, though no description names them |
| Actions.Action.constructor | sir_code/action.py:30-32 | no gestures at first |
| Actions.Action.Detect | sir_code/action.py:48-67 | one request; the result is the strict A..H parse of the reply; on success it overwrites `current_actions` (no accumulation) and is returned, on failure nothing changes |
| Stages.StageTokens | sir_code/stage_detection.py:82 | `re.findall(r"Stage[1-5]")` returns only stage tokens |
| Stages.LastSorted | sir_code/stage_detection.py:82-83 | `sorted(tokens)[-1]` is one of the tokens |
| Stages.StageOrder | sir_code/stage_detection.py:82-83 | on stage tokens, string order is the order of the stage digits |
| Stages.LastSortedIsHighest | sir_code/stage_detection.py:82-83 | the chosen token names the highest stage present |
| Stages.DetectStageOutcome | sir_code/stage_detection.py:76-94 | "none" gives ""; any other reply gives its highest stage token, whatever surrounds or repeats it, and fails when it holds no token |
| Stages.StageExample | sir_code/stage_detection.py:82-83 | "Stage3,Stage2" reports Stage3 |
| Stages.StageDetection.constructor | sir_code/stage_detection.py:56-59 | no stage and an empty stage history |
| Stages.StageDetection.Detect | sir_code/stage_detection.py:74-94 | one request; the result replaces the current stage (it may move backwards); the stage history is never extended |
| Utils.StripEach | sir_code/utils.py:3 | one stripped line per line |
| Utils.MultilineStripLines | sir_code/utils.py:2-3 | the output has as many newline-separated lines as the input has `splitlines`, each the stripped input line, without edge whitespace |
| Utils.RepeatLength | sir_code/utils.py:7 | `s * n` has length `n * len(s)`, or 0 for `n <= 0` |
| Utils.PrintSectionShape | sir_code/utils.py:5-7 | the banner is the fill, the title between two bars, and the fill again; the right padding is the left one or one longer; with no room both are empty |
| Utils.PrintSectionWidth | sir_code/utils.py:5-7 | with a one-character fill and room for the title the banner is exactly `length` wide |
| NaoControls.ThresholdDirective | sir_code/main.py:219-220 | a system message whose content is the granting text iff the threshold is met |
| NaoControls.Trunc | sir_code/main.py:230 | `int(x)` truncates toward zero |
| NaoControls.TruncInRange | sir_code/main.py:230 | a clamped score truncates into [-5, 5] |
| NaoControls.Eligible | sir_code/main.py:233-235 | the comprehension is never empty when the first threshold is `-inf` |
| NaoControls.EyeColourBucket | sir_code/main.py:233-235 | the last eligible colour is the colour of the happiness's bucket |
| NaoControls.GreenPaletteEyes | sir_code/main_desktop.py:178-180 | RED for <= -3, AMBER for -2..-1, WHITE for 0, GREEN for 1..4, BRIGHT-GREEN for 5 |
| NaoControls.BluePaletteEyes | sir_code/main_nao.py:134-136 | RED, AMBER, WHITE, BLUE for 1..4, GREEN for 5 |
| NaoControls.NaoActions | sir_code/main_desktop.py:167-184 | refused exactly when there is no scoring yet; otherwise the actions are exactly the mapped A/B/H letters of the last scoring plus the eye colour |
| NaoControls.NaoEyeColour | sir_code/main_nao.py:143-153 | refused exactly when there is no scoring yet; otherwise the bucket colour of `int(current_score)` |
| TurnHead.HeadOutcome | sir_code/main.py:286-287 | a head fails on scoring exactly when the scorer's answer is refused; a successful head has a score in [-5, 5] and no stage or a stage token |
| TurnHead.ScoreLine | sir_code/main.py:286 | one scoring request against the previous reply; a refused answer ends the turn with the score unchanged, otherwise the new score is the old one plus the answer's delta, clamped |
| TurnHead.StageOf | sir_code/main.py:287 | one stage request on the previous reply; the result is the tracker's reading of its answer, or its failure |
| TurnHead.Assess | sir_code/main_desktop.py:215-216 | scoring first, then the stage request only if scoring succeeded; the outcome is the score and stage those two answers give, and a success made exactly the two requests |
| MainRobot.DirectiveChoice | sir_code/main.py:219-220 | the directive is a system message granting the secret iff the threshold is met |
| MainRobot.TurnMessages | sir_code/main.py:289-321 | a turn leaves two messages: the directive and the user line on a Stage5 turn, the user line and the reply otherwise |
| MainRobot.HistoryOf | sir_code/main.py:279-322 | two messages per turn |
| MainRobot.Opening | sir_code/main.py:254-255 | the history opens with two messages |
| MainRobot.TurnSlots | sir_code/main.py:289-321 | turn `i` occupies exactly positions `2i` and `2i+1` |
| MainRobot.TurnMessagesAt | sir_code/main.py:289-321 | which message sits in which slot of a turn |
| MainRobot.HistoryMessages | sir_code/main.py:299-301 | every message the turns leave is a user line, a reply or a directive; the speech-tag instruction never persists |
| MainRobot.HistorySystemMessages | sir_code/main.py:289-318 | in a chained run the only system message the turns leave is the final Stage5 turn's directive |
| MainRobot.HistoryTurns | sir_code/main.py:294-322 | every turn leaves its user line, and every turn but a final Stage5 one leaves its reply |
| MainRobot.RepliesExtend | sir_code/main.py:300 | later requests do not change what the earlier turns asked |
| MainRobot.RepliesAt | sir_code/main.py:285-306 | turn `i` made four requests from `at + 4i`: its line scored against the reply it saw and that reply's stage, whose answers give the turn's score (moved on from the previous turn's and clamped) and stage; its reply, the agent's answer to the history so far, its directive and line and the speech-tag instruction; and that reply's gestures, which are the turn's |
| MainRobot.Cues | sir_code/main.py:303-306 | one cue per turn |
| MainRobot.AppendTurn | sir_code/main.py:279-322 | one more turn adds its messages, its cue (its gestures and the eye colour of its score) and its four requests, its score moving on from the previous turn's |
| MainRobot.NoTurns | sir_code/main.py:276 | an empty run has no messages, cues or requests and is chained |
| MainRobot.ChainTurn | sir_code/main.py:286-322 | a turn scored against the last reply keeps the run chained |
| MainRobot.Demo.constructor | sir_code/main.py:173-181 | one agent shared by three fresh classifiers at their initial state, and an empty history |
| MainRobot.Demo.ShowReply | sir_code/main.py:303-306 | one gesture request for the reply; it fails exactly when the strict A..H parse of the answer fails; on success the gestures are that parse and the cue logged is them with the bucket colour of `int(current_score)` |
| MainRobot.Demo.Respond | sir_code/main.py:294-302 | the directive (Stage5 only) and the user line are added, the speech-tag instruction is pushed for the request and popped afterwards; the reply is the agent's answer to that request |
| MainRobot.Demo.PlayTurn | sir_code/main.py:280-322 | score, then stage, then directive and user line, then the reply request, then the gestures: four requests whose answers give the turn's score, stage, reply and gestures; the scorer keeps the turn's score; the history grows by exactly the turn's two messages and the cue is logged |
| MainRobot.Demo.AskWelcome | sir_code/main.py:254-262 | the persona and the user's greeting are added; the welcome is the agent's answer to them plus the speech-tag instruction, which is popped again |
| MainRobot.Demo.Greet | sir_code/main.py:254-277 | the welcome is asked for and the first input is consumed (no input is an abort); the welcome's gestures are asked for next, and the opening succeeds exactly when their parse does, logging them with the eye colour of the unchanged score |
| MainRobot.Demo.Converse | sir_code/main.py:279-322 | at most 100 turns, each on the next input and scored against the previous reply; every turn's four requests and answers are as `RepliesAt` reads them, the scores chained from the score before the loop; the cues are one per turn; the loop ends on a Stage5 turn or after 100 turns, with exactly each turn's messages added |
| MainRobot.Demo.Run | sir_code/main.py:253-322 | the history is the opening, the welcome and each turn's messages; the welcome and its gestures are the answers to the first two requests, and every later turn's requests and answers are as `RepliesAt` reads them; the robot's cues are the welcome's and then one per turn |
| MainDesktop.DirectiveChoice | sir_code/main_desktop.py:164-165 | the directive is a system message granting the secret iff the threshold is met |
| MainDesktop.TurnMessages | sir_code/main_desktop.py:219-241 | a turn leaves three messages on a Stage5 turn and two otherwise |
| MainDesktop.HistoryOf | sir_code/main_desktop.py:212-242 | two messages per turn and one more per Stage5 turn |
| MainDesktop.Opening | sir_code/main_desktop.py:198-199 | the history opens with two messages |
| MainDesktop.TurnKept | sir_code/main_desktop.py:212-242 | nothing is ever removed: each turn's messages stay in place |
| MainDesktop.DirectivesPersist | sir_code/main_desktop.py:219-223 | every Stage5 turn's directive stays in the history, right before that turn's user line |
| MainDesktop.SystemMessagesAreDirectives | sir_code/main_desktop.py:219-220 | every system message the turns leave is the directive of a Stage5 turn |
| MainDesktop.RepliesExtend | sir_code/main_desktop.py:235 | later requests do not change what the earlier turns asked |
| MainDesktop.RepliesAt | sir_code/main_desktop.py:214-241 | turn `i` made three requests from `at + 3i`: its line scored against the reply it saw and that reply's stage, whose answers give the turn's score (moved on from the previous turn's and clamped) and stage; and its reply, the agent's answer to the whole history so far, earlier directives included |
| MainDesktop.AppendTurn | sir_code/main_desktop.py:212-242 | one more turn adds its messages and its three requests, its score moving on from the previous turn's |
| MainDesktop.NoTurns | sir_code/main_desktop.py:203 | an empty run has no messages or requests and is chained |
| MainDesktop.ChainTurn | sir_code/main_desktop.py:215-242 | a turn scored against the last reply keeps the run chained |
| MainDesktop.Demo.constructor | sir_code/main_desktop.py:127-131 | one agent shared by two fresh classifiers, an empty history |
| MainDesktop.Demo.Respond | sir_code/main_desktop.py:219-241 | the directive (Stage5 only) and the user line are added, the reply is the agent's answer to exactly that history and is recorded |
| MainDesktop.Demo.PlayTurn | sir_code/main_desktop.py:212-242 | score, then stage, then directive and user line, then the reply request: three requests whose answers give the turn's score, stage and reply; the scorer keeps the turn's score; the history grows by exactly the turn's messages |
| MainDesktop.Demo.Converse | sir_code/main_desktop.py:212-242 | the loop runs 100 turns with no early exit, each on the next input and scored against the previous reply; every turn's requests and answers are as `RepliesAt` reads them, the scores chained from the score before the loop |
| MainDesktop.Demo.Run | sir_code/main_desktop.py:197-242 | the welcome is the agent's answer to the opening; the history is the opening, the welcome and each turn's messages, of length 3 + 2·turns + Stage5 turns; every turn's requests and answers are as `RepliesAt` reads them |
| MainNao.DirectiveChoice | sir_code/main_nao.py:118-119 | the directive is a system message granting the secret iff the threshold is met |
| MainNao.Opening | sir_code/main_nao.py:156-157 | the history opens with the persona and the fixed assistant welcome, with no user line |
| MainNao.TurnMessages | sir_code/main_nao.py:171-189 | three messages per turn |
| MainNao.HistoryOf | sir_code/main_nao.py:165-190 | three messages per turn |
| MainNao.TurnSlots | sir_code/main_nao.py:171-189 | turn `i` leaves its user line, its directive and its reply at `3i`, `3i+1`, `3i+2` |
| MainNao.SystemMessages | sir_code/main_nao.py:172 | a message of the turns is a system message iff it is a directive slot: every directive persists |
| MainNao.FromAgentExtend | sir_code/main_nao.py:180 | later requests do not change what earlier ones were |
| MainNao.FromAgentAt | sir_code/main_nao.py:168-180 | turn `i` was scored against the reply it saw, its score is the clamped sum in [-5, 5], and its reply answers the history so far |
| MainNao.AppendTurn | sir_code/main_nao.py:165-190 | one more turn adds its messages, its eye colour and its two requests |
| MainNao.NoTurns | sir_code/main_nao.py:163 | an empty run has no messages, colours or requests |
| MainNao.ChainTurn | sir_code/main_nao.py:163-190 | a turn scored against the last reply keeps the run chained |
| MainNao.Eyes | sir_code/main_nao.py:182 | one eye colour per turn |
| MainNao.EyesAt | sir_code/main_nao.py:143-153 | turn `i`'s colour is the RED/AMBER/WHITE/BLUE/GREEN bucket of its truncated score |
| MainNao.Demo.constructor | sir_code/main_nao.py:85-88 | one agent and a fresh scorer, an empty history |
| MainNao.Demo.PlayTurn | sir_code/main_nao.py:166-190 | score, then user line, then directive, then the reply request and the eye colour; only the scorer's assertion ends a turn |
| MainNao.Demo.Step | sir_code/main_nao.py:165-190 | a completed turn is appended, the run stays chained, the score is the turn's |
| MainNao.Demo.Run | sir_code/main_nao.py:155-190 | exactly ten turns unless input runs out or scoring fails; the history is the opening and three messages per turn |
| Demo2.ParseAll | sir_code/demo2.py:240 | `map(int, parts)` succeeds iff every part parses, and then gives each part's value |
| Demo2.ParseIntents | sir_code/demo2.py:240 | a parsed intent list is never empty |
| Demo2.IntStrParses | sir_code/demo2.py:240 | `str(n)` has no comma and parses back to `n` |
| Demo2.IntentsRoundTrip | sir_code/demo2.py:230-240 | intents written as `", ".join(map(str, ...))` parse back to the same list |
| Demo2.IntentDeltaTable | sir_code/demo2.py:191 | drink +3, key -0.5, chat +1, compliment +2; -3..0 wrap around; anything else is an `IndexError` |
| Demo2.FirstInvalid | sir_code/demo2.py:190-191 | the loop stops at the first intent without a delta |
| Demo2.DeltaSumStep | sir_code/demo2.py:190-191 | each intent adds its delta |
| Demo2.RevealWhen | sir_code/demo2.py:114-147 | the reveal branch is taken iff the intent is 2 and the intimacy is exactly 5 or at least 9; ignorance iff intent 2 below 5; chat iff the intent is neither 1 nor 2 |
| Demo2.Assistants | sir_code/demo2.py:181 | one assistant message per reply |
| Demo2.RepliesAskedAt | sir_code/demo2.py:174-181 | each reply of a round is the agent's answer to the history so far plus that intent's two prompts |
| Demo2.RepliesAskedGrow | sir_code/demo2.py:174 | later requests do not change what earlier replies were asked with |
| Demo2.RoundAskedGrow | sir_code/demo2.py:62-110 | later requests do not change what a round asked |
| Demo2.NextStatusRules | sir_code/demo2.py:184-191 | a round fails exactly on an out-of-range intent; otherwise money grows by 3 iff a drink is ordered, and the game ends iff it had ended or the key was asked at a revealing intimacy |
| Demo2.StatusStep | sir_code/demo2.py:184-191 | the status update composes the happiness, intimacy and reveal rules |
| Demo2.FirstRoundKeepsKey | sir_code/demo2.py:114-127 | asking only for the key in the first round never reveals it |
| Demo2.MoneyFromDrinks | sir_code/demo2.py:185-186 | money is 3 per round that orders a drink, however many drinks it orders |
| Demo2.EndedStays | sir_code/demo2.py:147 | once the key is revealed the game stays ended |
| Demo2.NoRounds | sir_code/demo2.py:37-48 | no rounds, no messages, no status change |
| Demo2.AppendRound | sir_code/demo2.py:62-110 | one more round adds its messages and its status update |
| Demo2.GameAskedGrow | sir_code/demo2.py:50-59 | later requests do not change what the earlier rounds asked |
| Demo2.GameAskedAt | sir_code/demo2.py:50-110 | round `i` asked its intents and politeness from its line right after the earlier rounds' requests, then one reply per intent over the conversation up to its line, at the intimacy its own status update computed |
| Demo2.AppendAsked | sir_code/demo2.py:50-59 | one more round adds its 2 + intents requests, asked after the earlier rounds' |
| Demo2.GameStep | sir_code/demo2.py:50-59 | a round asked after the earlier rounds, over the conversation they left, extends what the rounds asked |
| Demo2.NaoState.constructor | sir_code/demo2.py:22-26 | no money, happiness 5 |
| Demo2.Guest.constructor | sir_code/demo2.py:28-33 | politeness 5, intents `[3]` |
| Demo2.Demo.constructor | sir_code/demo2.py:37-48 | the initial status, not started, an empty history |
| Demo2.Demo.DetectIntents | sir_code/demo2.py:220-243 | one request; the intents are the parse of the reply or its `ValueError`; politeness untouched |
| Demo2.Demo.DetectPoliteness | sir_code/demo2.py:195-217 | one request; the politeness is `int()` of the reply or its `ValueError`; intents untouched |
| Demo2.Demo.UpdateStatus | sir_code/demo2.py:184-193 | money +3 iff a drink; happiness rescaled plus the deltas up to the first bad intent, which fails |
| Demo2.Demo.Respond | sir_code/demo2.py:112-182 | one request with the branch's prompts; the reply is recorded; `ended` is set iff the reveal branch is taken |
| Demo2.Demo.RespondAll | sir_code/demo2.py:96-98 | one reply per intent, in order, each asked with the replies before it in the history |
| Demo2.Demo.PlayRound | sir_code/demo2.py:86-98 | intents, politeness, status update, then replies: 2 + intents requests; on success the status is the round's update |
| Demo2.Demo.RunConversation | sir_code/demo2.py:62-110 | the welcome is recorded only on the first round, the user's line before any detection, then the replies |
| Demo2.Demo.RunGame | sir_code/demo2.py:50-59 | the countdown decrements before each round and, from a non-negative start, never goes below 0; no round follows the one that ended the game; every completed round's requests and answers are as `GameAskedAt` reads them; a finished run made exactly those requests and has the status of its rounds and exactly their messages |
| ChatCleaning.ExtractFriendlinessLetters | statistics/chat_data_cleaning.py:14-25 | the loop returns the text before the first colon of each stripped part, in order, "" for a missing or empty cell |
| ChatCleaning.AnswerLetter | statistics/chat_data_cleaning.py:21-23 | the extractor recovers the label of one answered part |
| ChatCleaning.PartLettersOfAnswers | statistics/chat_data_cleaning.py:20-25 | the letters of answered parts are their labels, in order |
| ChatCleaning.LettersRoundTrip | statistics/chat_data_cleaning.py:14-25 | an answer written as `;`-separated labelled parts gives back exactly its labels, concatenated |
| ChatCleaning.ColumnIndexRoundTrip | statistics/chat_data_cleaning.py:73-80 | column `idx` is turn `idx//3+1` and dimension `idx%3`, and the map is a bijection |
| ChatCleaning.RaterBlocks | statistics/chat_data_cleaning.py:62-88 | one block of rows per rater |
| ChatCleaning.FileBlocks | statistics/chat_data_cleaning.py:46-100 | one block of rows per chat file |
| ChatCleaning.HumanRowsAt | statistics/chat_data_cleaning.py:62-88 | column `idx` of form row `i` is long row `i·w+idx`, rater `i+1`, with its turn and dimension, and only friendliness cells go through the extractor |
| ChatCleaning.CleanChat | statistics/chat_data_cleaning.py:55-100 | the nested loops emit the raters' rows in row-major order, then the LLM's rows, its first row skipped and row `i` as turn `i+1` |
| ChatCleaning.CleanChats | statistics/chat_data_cleaning.py:41-100 | `all_long_rows` is the chats' rows, chat after chat |
| VideoCleaning.ColumnIndexRoundTrip | statistics/video_data_cleaning.py:44-45 | column `idx` is repetition `idx//2+1`, voice if even and gesture if odd, and the map is a bijection |
| VideoCleaning.ParticipantBlocks | statistics/video_data_cleaning.py:24-52 | one block of rows per participant |
| VideoCleaning.LongRowsAt | statistics/video_data_cleaning.py:24-52 | exactly one long row per (participant, answer column), in row-major order, participants numbered from 1 |
| VideoCleaning.Clean | statistics/video_data_cleaning.py:37-52 | the nested loops build exactly the long table |
| FriendlinessEval.LettersToSet | statistics/friendliness_eval.py:20-27 | the empty set for a missing cell; otherwise exactly the characters of the stripped text |
| FriendlinessEval.CleanedLetters | statistics/friendliness_eval.py:20-27 | a friendliness answer cleaned and read back gives exactly the letters of its labels |
| FriendlinessEval.SoftJaccard | statistics/friendliness_eval.py:30-48 | the loop computes the soft Jaccard index: Σ min(p,y) / Σ max(p,y), NaN when the denominator is 0 |
| FriendlinessEval.SoftSums | statistics/friendliness_eval.py:30-37 | with p in [0,1] the numerator is the predicted labels' mass and the denominator their count plus the others' mass |
| FriendlinessEval.SoftJaccardRange | statistics/friendliness_eval.py:45-48 | a defined index lies in [0, 1] |
| FriendlinessEval.UndefinedExactly | statistics/friendliness_eval.py:45-47 | the index is NaN iff no label of the universe is predicted or has human mass |
| FriendlinessEval.PerfectMatch | statistics/friendliness_eval.py:30-48 | a distribution equal to the prediction, with one predicted label, scores 1 |
| FriendlinessEval.Count | statistics/friendliness_eval.py:93-97 | a label is chosen by at most every rater |
| FriendlinessEval.CountLabels | statistics/friendliness_eval.py:93-97 | the double loop counts, for each label of the universe and no other, the raters that chose it |
| FriendlinessEval.Distribution | statistics/friendliness_eval.py:99 | p(l) = count/n, defined on the universe and lying in [0, 1] |
| FriendlinessEval.DistributionProbabilities | statistics/friendliness_eval.py:99 | the distribution is a probability assignment on the universe |
| FriendlinessEval.HumanDistribution | statistics/friendliness_eval.py:93-99 | the computed dictionary is the distribution |
| FriendlinessEval.OthersCount | statistics/friendliness_eval.py:119-125 | leaving rater `i` out removes exactly that rater's vote |
| FriendlinessEval.LeaveOneOut | statistics/friendliness_eval.py:119-126 | the others' distribution is (count − [l ∈ s_i]) / (n − 1) |
| FriendlinessEval.BaselineScores | statistics/friendliness_eval.py:115-127 | a score per human when there are two or more, none otherwise |
| FriendlinessEval.BaselineRange | statistics/friendliness_eval.py:115-127 | defined baseline scores lie in [0, 1] |
| FriendlinessEval.Baseline | statistics/friendliness_eval.py:115-127 | the loop compares each human with the others' distribution |
| FriendlinessEval.MeanRange | statistics/friendliness_eval.py:129 | the mean is defined iff the list is non-empty and NaN-free, and then lies in [0, 1] |
| FriendlinessEval.SetsAt | statistics/friendliness_eval.py:86-88 | a group has at most as many sets as rows, and at least one for a present key |
| FriendlinessEval.TurnRange | statistics/friendliness_eval.py:86-137 | a scored turn counts its humans and its scores lie in [0, 1] where defined |
| FriendlinessEval.ScoredAt | statistics/friendliness_eval.py:101-111 | a key with exactly one LLM row is scored with that row's set |
| FriendlinessEval.ScoreTurn | statistics/friendliness_eval.py:86-137 | the loop body yields the group's outcome: skipped without an LLM row, an error with several, scored otherwise |
| FriendlinessEval.EvaluateTurns | statistics/friendliness_eval.py:81-139 | an error iff some key has several LLM rows, naming such a key; otherwise one row per key with exactly one LLM row, each its scored outcome |
| FriendlinessEval.Sorted | statistics/friendliness_eval.py:74 | `sorted(set)` lists each label once, in increasing order |
| FriendlinessEval.SoftCountSums | statistics/friendliness_eval.py:217-237 | TP + FP = Σ y and TP + FN = Σ p over the turns |
| FriendlinessEval.LabelStats | statistics/friendliness_eval.py:208-256 | the loop computes the label's row: rates, soft counts, precision, recall and F1 |
| FriendlinessEval.CountBounds | statistics/friendliness_eval.py:217-228 | TP lies between 0 and both Σ y and Σ p, which lie between 0 and the number of turns |
| FriendlinessEval.F1Range | statistics/friendliness_eval.py:241-243 | a defined F1 of values in [0, 1] lies in [0, 1] |
| FriendlinessEval.LabelSummaryFacts | statistics/friendliness_eval.py:230-243 | precision is TP/Σy, defined iff Σy > 0; recall is TP/Σp, defined iff Σp > 0; every defined figure lies in [0, 1] |
| FriendlinessEval.Friendliness | statistics/friendliness_eval.py:61-63 | the friendliness rows, in order; empty iff there are none |
| FriendlinessEval.SplitPartitions | statistics/friendliness_eval.py:66-67 | every row goes to exactly one side of the LLM/human split |
| FriendlinessEval.ReportRanges | statistics/friendliness_eval.py:131-137 | every turn score and label figure reported lies in [0, 1] where defined |
| FriendlinessEval.EmptyTable | statistics/friendliness_eval.py:101-139 | the turn table is empty exactly when no human group has an LLM row |
| FriendlinessEval.Evaluate | statistics/friendliness_eval.py:54-258 | fails with no friendliness rows exactly when there are none, with an empty universe exactly when no label was chosen, and with no scored turns (the sort of an empty turn table) exactly when no human group has an LLM row; fails with several LLM rows exactly when some (chat, turn) key has more than one LLM row (and the earlier checks passed), naming such a key; a success means every key has at most one LLM row and reports the sorted universe, a non-empty turn table and one label row per label |
| FriendlinessEval.RebuildSignals | statistics/friendliness_eval.py:184-203 | the rebuilt map holds each scored key's distribution and its LLM set |

## Left out

- I/O is not modelled: keyboard input, speech-to-text, text-to-speech, LEDs, motion-file playback, printing, logging, CSV reading and writing, and the `Saver`. Inputs are a sequence of strings, and the robot's actions are a log of cues or eye colours.
- `MainRobot.Demo.PlayTurn` does not model the `ThreadPoolExecutor` dispatch in `sir_code/main.py`. The pool runs the gesture and LED requests concurrently and waits for all of them when the `with` block ends; only their exceptions are ignored. The model records what the robot was told to show, in the order it was submitted, not how the requests interleave.
- `PyStrings.Lower` lowers ASCII letters only. Python's `lower()` also lowers other letters, and some change length (`'İ'` becomes two characters).
- `PyStrings.ParseInt` accepts optional blanks, an optional sign and ASCII digits. Python's `int()` also accepts `_` between digits (`"1_0"`) and non-ASCII decimal digits, which the model refuses.
- `perf_counter` timings are left out, because they only feed log lines.
- `_describe_game` is left out, because it only prints a banner around the intro. `Utils.PrintSectionShape` models the banner itself.
- Streaming is not modelled. `ask_stream` and the concatenation of its chunks are modelled as one `ask`, whose reply is the concatenated text.
- `Agents.Agent.Ask` leaves out the network client in `sir_code/chatgpt_wrapper.py`; its reply is arbitrary.
- `main_desktop.py` is modelled with `RUN_ROBOT = 0`, as the file sets it. Its robot branch (`_nao_eye_color` after each reply) is covered only by `NaoControls.NaoEyeColour`.
- `main.py` is modelled with `RUN_ROBOT = 1`, as it sets it. Its streaming branch, with the `Saver` calls, is not modelled.
- The prompt and persona texts are kept as constants. Where they do not matter to a contract they are hidden from the proofs.
- Real numbers stand in for Python floats, so rounding is not modelled. In particular, `Demo2.RevealWhen` compares the intimacy with 5 and 9 exactly.
- `Demo2.Demo.constructor` takes how `f"{self.intimacy}"` prints a float as a parameter.
- `Demo2.Demo.constructor` takes a working agent in place of the `self.client = None` placeholder of `sir_code/demo2.py:46`, which nothing in the file assigns. As written, the first `self.client.responses.create` call raises `AttributeError`, so `main()` never completes a round. The model describes the prototype with a configured client, as its author intended.
- `Demo2.NaoState.constructor` leaves out the random busyness of `demo2.py`, which is drawn but never used.
- `Demo2.Demo.RunGame` leaves the history of an aborted run partly open. It states that the completed rounds' messages form a prefix, not what the interrupted round added.
- `MainRobot.Demo.Run` is weaker for an aborted run. The completed turns' messages form a prefix, and the interrupted turn may add at most its directive and user line.
- `FriendlinessEval.EvaluateTurns` does not fix the order of the turn table. The script sorts it by (chat_id, turn).
- `FriendlinessEval.EvaluateTurns` does not fix which key the multiple-LLM error names when several keys qualify. The script names the first in its group order.
- `FriendlinessEval.Evaluate` leaves out the chat-level and overall aggregation: per-chat means, the across-chat mean and the sample standard deviation (`statistics/friendliness_eval.py:150-175`). These are only written to files.
- The `dropped_*` counters are left out, because they are only printed.
- The `n_humans == 0` branch is left out, because a group produced by `groupby` is never empty.
- `FriendlinessEval.Evaluate` takes rows with typed columns. The script's test for missing required columns therefore cannot fail and is left out.
- `pd.to_numeric` coercion of the relevance and video scores is not modelled. The cells keep their text.
- `ChatCleaning.CleanChats` leaves out how the chat files are listed and how a chat id is cut out of a file name. A chat is given as its id, its table and its optional LLM column.
- NaN is `None` throughout. `np.mean` of a list holding NaN is NaN.
- `statistics/chat_eval_stats.py`, `statistics/voice_gesture_eval_stats.py`, `statistics/dot_ci_plots.py` and `statistics/friendliness_figures.py` are not part of this model. They hold statistical tests and plots.
- `sir_code/loggers.py` and `sir_code/saver.py` are not part of this model.
