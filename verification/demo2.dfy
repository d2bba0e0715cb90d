/** sir_code/demo2.py: the prototype bar game without the robot. A countdown of rounds; in
    each, the user's line is recorded, two requests classify its intents and its politeness,
    Nao's money, happiness and the intimacy are updated by fixed rules, and one reply per
    intent is generated and recorded. Asking for the key when the intimacy is high enough
    (or exactly 5) reveals it and ends the game. Float formatting of the intimacy inside
    the prompts is a parameter of the demo. */
module Demo2 {
  import opened Results
  import opened PyStrings
  import opened Agents

  /** `NUM_TURN` */
  const NumTurn: int := 10
  const Welcome: string := "Welcome to the robot bar! I am your bar tender Nao. What can I do for you? Can I offer you any drink?"
  const IntentSystem: string := "output should only contain numbers: 1, 2, 3 or 4"
  const PolitenessSystem: string := "only output a number between -5 and 5."

  // The prompt texts of demo2.py, kept as constants so that the functions that splice
  // the guest input into them stay small.
  /** The opening of the intent prompt, up to the quoted guest input. */
  const IntentLead: string :=
    "\n            You are a bar tender, provide a brief intent detection to the guest's input below.\n            Please detect the guest's intent among: 1. having a drink, 2. ask the key, 3. randomly chat, 4. complimenting you or the drink you made.\n\n            Guest's input:\n            \""
  /** What follows the quoted guest input in both classifier prompts. */
  const DetectionTail: string :=
    "\"\n\n            Your detection:\n            "
  /** The opening of the politeness prompt, up to the quoted guest input. */
  const PolitenessLead: string :=
    "\n            You are a bar tender, provide a brief politeness detection to the guest's input below.\n            Please detect how polite the guest is, the politeness is scaled -5 to 5.\n\n            Guest's input:\n            \""
  /** The prompt for a drink order. */
  const DrinkPrompt: string :=
    "\n                    You are a bar tender. The guest is asking for having a drink. Please provide a drink to the guest\n                    without asking the guest what he wants.\n                    "
  /** The opening of the prompt that feigns ignorance of the key. */
  const IgnoranceLead: string :=
    "\n                    You are a bar tender, who is the only one knows the location of the key to the castle is. \n                    The guest is asking where the key is, but you show you know nothing about the key.\n                    Generate your reply to what the guest said.\n\n                    Guest's input:\n                    \""
  /** The opening of the prompt that hints at the key. */
  const HintLead: string :=
    "\n                    You are a bar tender, who is the only one knows the location of the key to the castle is. \n                    The guest is asking where the key is, but you show you only know something about the key.\n                    \n                    Also imply to the guest that if he expresses compliment to you or buy more drinks, you could\n                    reveal some information about the key.\n                    \n                    Generate your reply to what the guest said.\n\n                    Guest's input:\n                    \""
  /** The opening of the prompt that reveals where the key is. */
  const RevealLead: string :=
    "\n                        You are a bar tender, who is the only one knows the location of the key to the castle is: the cave ended in\n                        the dark forest. The guest is asking where the key is. You want to tell him the location of the key.\n                        Generate your reply to what the guest said.\n\n                        Guest's input:\n                        \""
  /** The opening of the chatting prompt, up to the intimacy. */
  const ChatLead: string :=
    "\n                    You are a bar tender, who is randomly chatting with the guest and always trying to sell more drinks. \n                    \n                    if "
  /** The chatting prompt between the intimacy and the quoted guest input. */
  const ChatMiddle: string :=
    " > 7: Also imply to the guest that if he expresses compliment to you or buy more drinks, you could\n                    reveal some information about the key.\n                    \n                    Generate your reply to what the guest said. \n\n                    Guest's input:\n                    \""
  /** The opening of the tone prompt, up to the intimacy. */
  const ToneLead: string :=
    "\n        1. generate the response tone based on the intimacy level you have with the guest.\n        the intimacy level scaled from 1 to 10. The current intimacy level is "
  /** The end of the tone prompt. */
  const ToneTail: string :=
    ".\n        2. No drink recipe included in the response."

  /** The user prompt of `intent_detection_and_update`. */
  function IntentPrompt(userInput: string): string {
    IntentLead
    + userInput + DetectionTail
  }

  /** The user prompt of `politeness_detection_and_update`. */
  function PolitenessPrompt(userInput: string): string {
    PolitenessLead
    + userInput + DetectionTail
  }

  /** The messages of the intent request. */
  function IntentRequest(userInput: string): seq<Message> {
    [Message(User, IntentPrompt(userInput)), Message(System, IntentSystem)]
  }

  /** The messages of the politeness request. */
  function PolitenessRequest(userInput: string): seq<Message> {
    [Message(User, PolitenessPrompt(userInput)), Message(System, PolitenessSystem)]
  }

  /** `[int(x) for x in parts]`: every part must parse, or the whole fails. */
  function ParseAll(parts: seq<string>): (r: Option<seq<int>>)
    ensures r.Some? <==> forall i :: 0 <= i < |parts| ==> ParseInt(parts[i]).Some?
    ensures r.Some? ==> |r.value| == |parts| && forall i :: 0 <= i < |parts| ==> ParseInt(parts[i]) == Some(r.value[i])
    decreases |parts|
  {
    if parts == [] then Some([])
    else
      var head := ParseInt(parts[0]);
      var tail := ParseAll(parts[1..]);
      assert forall i :: 1 <= i < |parts| ==> parts[i] == parts[1..][i - 1];
      if head.None? || tail.None? then None else Some([head.value] + tail.value)
  }

  /** `list(map(int, text.split(", ")))`; `None` is the `ValueError` of a piece that is not
      an integer. */
  function ParseIntents(text: string): (r: Option<seq<int>>)
    ensures r.Some? ==> |r.value| >= 1
  {
    ParseAll(Split(text, ", "))
  }

  /** `str(n)` */
  function IntStr(n: int): string {
    if n < 0 then "-" + Decimal(-n) else Decimal(n)
  }

  /** `str(n)` has no comma and parses back to `n`. */
  lemma IntStrParses(n: int)
    ensures ',' !in IntStr(n) && ParseInt(IntStr(n)) == Some(n)
  {
    ParseIntDecimal(n);
    var d := Decimal(if n < 0 then -n else n);
    assert ',' !in d by {
      forall k | 0 <= k < |d| ensures d[k] != ',' { assert '0' <= d[k] <= '9'; }
    }
    assert IntStr(n) == if n < 0 then "-" + d else d;
  }

  /** Intents written back as the prompt asks for them, `", ".join(map(str, intents))`, parse
      to the same intents. */
  lemma IntentsRoundTrip(intents: seq<int>)
    requires |intents| >= 1
    ensures ParseIntents(Join(seq(|intents|, i requires 0 <= i < |intents| => IntStr(intents[i])), ", ")) == Some(intents)
  {
    hide IntStr, ParseInt, Join, Split;
    var parts := seq(|intents|, i requires 0 <= i < |intents| => IntStr(intents[i]));
    forall i | 0 <= i < |parts| ensures ", "[0] !in parts[i] && ParseInt(parts[i]) == Some(intents[i]) {
      IntStrParses(intents[i]);
    }
    SplitJoin(parts, ", ");
    var r := ParseAll(parts);
    assert r.value == intents;
  }

  /** `[3, -0.5, 1, 2][intent - 1]`, with Python's indexing: 0 and the negative intents down
      to -3 count from the end; anything else is an `IndexError` (`None`). */
  function IntentDelta(intent: int): Option<real> {
    var table := [3.0, -0.5, 1.0, 2.0];
    var k := intent - 1;
    if 0 <= k < 4 then Some(table[k]) else if -4 <= k < 0 then Some(table[k + 4]) else None
  }

  /** Drink +3, key -0.5, chat +1, compliment +2; intents -3..0 wrap around to the same
      deltas as 1..4; every other intent is out of range. */
  lemma IntentDeltaTable(intent: int)
    ensures IntentDelta(intent).Some? <==> -3 <= intent <= 4
    ensures IntentDelta(1) == Some(3.0) && IntentDelta(2) == Some(-0.5)
    ensures IntentDelta(3) == Some(1.0) && IntentDelta(4) == Some(2.0)
    ensures -3 <= intent <= 0 ==> IntentDelta(intent) == IntentDelta(intent + 4)
  {
  }

  /** The number of leading intents whose delta exists: where `update_Nao_status` stops. */
  function FirstInvalid(intents: seq<int>): (k: nat)
    ensures k <= |intents|
    ensures forall i :: 0 <= i < k ==> IntentDelta(intents[i]).Some?
    ensures k < |intents| ==> IntentDelta(intents[k]).None?
    decreases |intents|
  {
    if intents == [] || IntentDelta(intents[0]).None? then 0
    else
      assert forall i :: 1 <= i < |intents| ==> intents[i] == intents[1..][i - 1];
      1 + FirstInvalid(intents[1..])
  }

  predicate AllInRange(intents: seq<int>) {
    forall i :: 0 <= i < |intents| ==> IntentDelta(intents[i]).Some?
  }

  /** The sum of the intents' happiness deltas. */
  function DeltaSum(intents: seq<int>): real
    requires AllInRange(intents)
    decreases |intents|
  {
    if intents == [] then 0.0 else DeltaSum(intents[..|intents| - 1]) + IntentDelta(intents[|intents| - 1]).value
  }

  /** One more intent adds its delta. */
  lemma DeltaSumStep(intents: seq<int>, i: nat)
    requires i < |intents| && AllInRange(intents[..i + 1])
    ensures AllInRange(intents[..i]) && DeltaSum(intents[..i + 1]) == DeltaSum(intents[..i]) + IntentDelta(intents[i]).value
  {
    assert intents[..i + 1][..i] == intents[..i];
  }

  /** `Nao.happiness = You.politeness * 0.3 + Nao.happiness * 0.8`, before the deltas. */
  function Happiness(politeness: int, previous: real): real {
    politeness as real * 0.3 + previous * 0.8
  }

  /** `intimacy = Nao.money * 0.3 + Nao.happiness * 0.5 + intimacy * 0.3` */
  function Intimacy(money: int, happiness: real, previous: real): real {
    money as real * 0.3 + happiness * 0.5 + previous * 0.3
  }

  /** The five prompts of `generate_robot_response`. */
  datatype Branch = Drink | Ignorance | Hint | Reveal | Chat

  /** The prompt chosen for an intent at the current intimacy. */
  function BranchOf(intent: int, intimacy: real): Branch {
    if intent == 1 then Drink
    else if intent == 2 then
      if intimacy < 5.0 then Ignorance else if 5.0 < intimacy < 9.0 then Hint else Reveal
    else Chat
  }

  /** The key is revealed exactly when the guest asks for it and the intimacy is 5 or at
      least 9: the "otherwise" branch also catches an intimacy of exactly 5. */
  lemma RevealWhen(intent: int, intimacy: real)
    ensures BranchOf(intent, intimacy) == Reveal <==> intent == 2 && (intimacy == 5.0 || intimacy >= 9.0)
    ensures BranchOf(intent, intimacy) == Ignorance <==> intent == 2 && intimacy < 5.0
    ensures BranchOf(intent, intimacy) == Chat <==> intent != 1 && intent != 2
  {
  }

  /** The user prompt of `generate_robot_response` for a branch; `intimacy` is the text the
      intimacy is formatted as. */
  function UserPrompt(branch: Branch, intimacy: string, userInput: string): string {
    match branch
    case Drink =>
      DrinkPrompt
    case Ignorance =>
      IgnoranceLead
      + userInput + "\"\n                    "
    case Hint =>
      HintLead
      + userInput + "\"\n                    "
    case Reveal =>
      RevealLead
      + userInput + "\"\n                        "
    case Chat =>
      ChatLead
      + intimacy + ChatMiddle
      + userInput + "\"\n                    "
  }

  /** The system prompt of `generate_robot_response`. */
  function TonePrompt(intimacy: string): string {
    ToneLead
    + intimacy + ToneTail
  }

  /** The messages a reply is asked with: the conversation so far and the two prompts. */
  function ResponseRequest(before: seq<Message>, intent: int, intimacy: real, userInput: string,
                           showReal: real -> string): seq<Message>
  {
    before + [Message(User, UserPrompt(BranchOf(intent, intimacy), showReal(intimacy), userInput)),
              Message(System, TonePrompt(showReal(intimacy)))]
  }

  /** The replies as assistant messages. */
  function Assistants(replies: seq<string>): (r: seq<Message>)
    ensures |r| == |replies|
  {
    seq(|replies|, j requires 0 <= j < |replies| => Message(Assistant, replies[j]))
  }

  lemma AssistantsSnoc(replies: seq<string>, text: string)
    ensures Assistants(replies + [text]) == Assistants(replies) + [Message(Assistant, text)]
  {
  }

  /** The replies of a round so far: reply `j` is the agent's answer to request `at + j`,
      which holds the conversation `before` plus the round's earlier replies, and the
      prompts for intent `j`. */
  predicate RepliesAsked(answer: (nat, seq<Message>) -> string, requests: seq<seq<Message>>, at: nat,
                         before: seq<Message>, intents: seq<int>, intimacy: real, userInput: string,
                         showReal: real -> string, replies: seq<string>)
    decreases |replies|
  {
    && |replies| <= |intents| && at + |replies| <= |requests|
    && (replies == [] ||
        var n := |replies| - 1;
        && RepliesAsked(answer, requests, at, before, intents, intimacy, userInput, showReal, replies[..n])
        && requests[at + n] == ResponseRequest(before + Assistants(replies[..n]), intents[n], intimacy, userInput, showReal)
        && replies[n] == answer(at + n, requests[at + n]))
  }

  /** Further requests leave the round's replies as they were asked. */
  lemma {:induction false} RepliesAskedGrow(answer: (nat, seq<Message>) -> string, requests: seq<seq<Message>>,
                                            more: seq<seq<Message>>, at: nat, before: seq<Message>, intents: seq<int>,
                                            intimacy: real, userInput: string, showReal: real -> string, replies: seq<string>)
    requires RepliesAsked(answer, requests, at, before, intents, intimacy, userInput, showReal, replies)
    requires requests <= more
    ensures RepliesAsked(answer, more, at, before, intents, intimacy, userInput, showReal, replies)
    decreases |replies|
  {
    hide ResponseRequest, Assistants;
    if replies != [] {
      var n := |replies| - 1;
      RepliesAskedGrow(answer, requests, more, at, before, intents, intimacy, userInput, showReal, replies[..n]);
      assert more[at + n] == requests[at + n];
    }
  }

  /** Every reply of the round, one by one: what it was asked with and what it is. */
  lemma {:induction false} RepliesAskedAt(answer: (nat, seq<Message>) -> string, requests: seq<seq<Message>>, at: nat,
                                          before: seq<Message>, intents: seq<int>, intimacy: real, userInput: string,
                                          showReal: real -> string, replies: seq<string>, j: nat)
    requires RepliesAsked(answer, requests, at, before, intents, intimacy, userInput, showReal, replies)
    requires j < |replies|
    ensures j < |intents| && at + j < |requests|
    ensures requests[at + j] == ResponseRequest(before + Assistants(replies[..j]), intents[j], intimacy, userInput, showReal)
    ensures replies[j] == answer(at + j, requests[at + j])
    decreases |replies|
  {
    hide ResponseRequest, Assistants;
    var n := |replies| - 1;
    if j < n {
      RepliesAskedAt(answer, requests, at, before, intents, intimacy, userInput, showReal, replies[..n], j);
      assert replies[..n][..j] == replies[..j];
    }
  }

  /** One more reply, asked after the earlier ones, extends the round's replies. */
  lemma RepliesAskedStep(answer: (nat, seq<Message>) -> string, requests: seq<seq<Message>>, more: seq<seq<Message>>,
                         at: nat, before: seq<Message>, intents: seq<int>, intimacy: real, userInput: string,
                         showReal: real -> string, replies: seq<string>, text: string)
    requires RepliesAsked(answer, requests, at, before, intents, intimacy, userInput, showReal, replies)
    requires |replies| < |intents| && |requests| == at + |replies|
    requires more == requests + [ResponseRequest(before + Assistants(replies), intents[|replies|], intimacy, userInput, showReal)]
    requires text == answer(at + |replies|, more[at + |replies|])
    ensures RepliesAsked(answer, more, at, before, intents, intimacy, userInput, showReal, replies + [text])
  {
    hide ResponseRequest, Assistants;
    RepliesAskedGrow(answer, requests, more, at, before, intents, intimacy, userInput, showReal, replies);
    assert (replies + [text])[..|replies|] == replies;
  }

  /** The requests of one round from request `at` on: the intent and politeness requests
      and the replies they got, then one reply request per intent after the conversation
      `before`, which ends with the user's line. */
  predicate RoundAsked(answer: (nat, seq<Message>) -> string, requests: seq<seq<Message>>, at: nat,
                       before: seq<Message>, r: Round, intimacy: real, showReal: real -> string)
  {
    && at + 2 + |r.intents| <= |requests|
    && requests[at] == IntentRequest(r.input)
    && ParseIntents(answer(at, requests[at])) == Some(r.intents)
    && requests[at + 1] == PolitenessRequest(r.input)
    && ParseInt(answer(at + 1, requests[at + 1])) == Some(r.politeness)
    && |r.replies| == |r.intents|
    && RepliesAsked(answer, requests, at + 2, before, r.intents, intimacy, r.input, showReal, r.replies)
  }

  lemma RoundAskedIntro(answer: (nat, seq<Message>) -> string, requests: seq<seq<Message>>, at: nat,
                        before: seq<Message>, r: Round, intimacy: real, showReal: real -> string)
    requires at + 2 <= |requests| && requests[at] == IntentRequest(r.input) && requests[at + 1] == PolitenessRequest(r.input)
    requires ParseIntents(answer(at, IntentRequest(r.input))) == Some(r.intents)
    requires ParseInt(answer(at + 1, PolitenessRequest(r.input))) == Some(r.politeness)
    requires |requests| == at + 2 + |r.intents| && |r.replies| == |r.intents|
    requires RepliesAsked(answer, requests, at + 2, before, r.intents, intimacy, r.input, showReal, r.replies)
    ensures RoundAsked(answer, requests, at, before, r, intimacy, showReal)
  {
  }

  /** Further requests leave a round as it was asked. */
  lemma RoundAskedGrow(answer: (nat, seq<Message>) -> string, requests: seq<seq<Message>>, more: seq<seq<Message>>,
                       at: nat, before: seq<Message>, r: Round, intimacy: real, showReal: real -> string)
    requires RoundAsked(answer, requests, at, before, r, intimacy, showReal)
    requires requests <= more
    ensures RoundAsked(answer, more, at, before, r, intimacy, showReal)
  {
    hide IntentRequest, PolitenessRequest, ParseIntents, ParseInt, RepliesAsked;
    RepliesAskedGrow(answer, requests, more, at + 2, before, r.intents, intimacy, r.input, showReal, r.replies);
    assert more[at] == requests[at] && more[at + 1] == requests[at + 1];
  }

  /** Nao's money and happiness, the intimacy and whether the key was revealed. */
  datatype Status = Status(money: int, happiness: real, intimacy: real, ended: bool)

  /** `Nao()` and `Demo()`: no money, happiness 5, intimacy 0, not ended. */
  const Initial: Status := Status(0, 5.0, 0.0, false)

  /** What a round does to the status once its intents and politeness are known:
      `update_Nao_status`, the intimacy formula and the reveal branch. `None` is the
      `IndexError` of an intent out of range. */
  function NextStatus(s: Status, intents: seq<int>, politeness: int): Option<Status> {
    if FirstInvalid(intents) < |intents| then None
    else
      var money := s.money + (if 1 in intents then 3 else 0);
      var happiness := Happiness(politeness, s.happiness) + DeltaSum(intents);
      var intimacy := Intimacy(money, happiness, s.intimacy);
      Some(Status(money, happiness, intimacy,
                  s.ended || exists j :: 0 <= j < |intents| && BranchOf(intents[j], intimacy) == Reveal))
  }

  lemma StatusStep(s: Status, intents: seq<int>, politeness: int, t: Status)
    requires FirstInvalid(intents) == |intents|
    requires t.money == s.money + (if 1 in intents then 3 else 0)
    requires t.happiness == Happiness(politeness, s.happiness) + DeltaSum(intents[..FirstInvalid(intents)])
    requires t.intimacy == Intimacy(t.money, t.happiness, s.intimacy)
    requires t.ended == (s.ended || exists j :: 0 <= j < |intents| && BranchOf(intents[j], t.intimacy) == Reveal)
    ensures NextStatus(s, intents, politeness) == Some(t)
  {
    hide BranchOf, Happiness, Intimacy, DeltaSum, IntentDelta;
    assert intents[..|intents|] == intents;
  }

  /** A round fails exactly on an intent out of range; otherwise money grows by 3 exactly when
      a drink is among the intents, an ended game stays ended, and the game ends in this
      round exactly when the guest asks for the key at an intimacy of 5 or at least 9. */
  lemma NextStatusRules(s: Status, intents: seq<int>, politeness: int)
    ensures NextStatus(s, intents, politeness).None? <==> exists i :: 0 <= i < |intents| && !(-3 <= intents[i] <= 4)
    ensures var n := NextStatus(s, intents, politeness);
            n.Some? ==>
              && n.value.money == s.money + (if 1 in intents then 3 else 0)
              && (n.value.ended <==> s.ended || (2 in intents && (n.value.intimacy == 5.0 || n.value.intimacy >= 9.0)))
  {
    var k := FirstInvalid(intents);
    if k < |intents| {
      IntentDeltaTable(intents[k]);
    } else {
      forall i | 0 <= i < |intents| ensures -3 <= intents[i] <= 4 {
        IntentDeltaTable(intents[i]);
      }
      var n := NextStatus(s, intents, politeness);
      forall j | 0 <= j < |intents| {
        RevealWhen(intents[j], n.value.intimacy);
      }
      if 2 in intents && (n.value.intimacy == 5.0 || n.value.intimacy >= 9.0) {
        var j :| 0 <= j < |intents| && intents[j] == 2;
        assert BranchOf(intents[j], n.value.intimacy) == Reveal;
      }
    }
  }

  /** Asking for the key, and nothing else, in the first round never reveals it for a
      politeness in the range the prompt asks for: the intimacy is then at most 2.5. */
  lemma FirstRoundKeepsKey(politeness: int)
    requires -5 <= politeness <= 5
    ensures var n := NextStatus(Initial, [2], politeness);
            n.Some? && !n.value.ended && n.value.intimacy <= 2.5 && BranchOf(2, n.value.intimacy) == Ignorance
  {
    assert FirstInvalid([2]) == 1;
    assert DeltaSum([2]) == -0.5 by { assert [2][..0] == []; }
    var n := NextStatus(Initial, [2], politeness);
    assert n.value.intimacy == (politeness as real * 0.3 + 4.0 - 0.5) * 0.5;
    assert !(exists j :: 0 <= j < 1 && BranchOf([2][j], n.value.intimacy) == Reveal);
  }

  /** One completed round: the user's line, the parsed intents and politeness, and one reply
      per intent. */
  datatype Round = Round(input: string, intents: seq<int>, politeness: int, replies: seq<string>)

  /** The messages a round leaves in the conversation: the user's line, then the replies. */
  function RoundMessages(r: Round): seq<Message> {
    [Message(User, r.input)] + Assistants(r.replies)
  }

  /** The messages the rounds leave in the conversation. */
  function HistoryOf(rounds: seq<Round>): seq<Message>
    decreases |rounds|
  {
    if rounds == [] then [] else HistoryOf(rounds[..|rounds| - 1]) + RoundMessages(rounds[|rounds| - 1])
  }

  /** The status after the rounds, from `s0`; `None` if some round's intents were out of range. */
  function StatusAfter(s0: Status, rounds: seq<Round>): Option<Status>
    decreases |rounds|
  {
    if rounds == [] then Some(s0)
    else
      var r := rounds[|rounds| - 1];
      match StatusAfter(s0, rounds[..|rounds| - 1])
      case None => None
      case Some(s) => NextStatus(s, r.intents, r.politeness)
  }

  /** How many rounds ordered a drink. */
  function DrinkRounds(rounds: seq<Round>): nat
    decreases |rounds|
  {
    if rounds == [] then 0 else DrinkRounds(rounds[..|rounds| - 1]) + (if 1 in rounds[|rounds| - 1].intents then 1 else 0)
  }

  /** Nao earns 3 per round that orders a drink, however many drinks it orders. */
  lemma {:induction false} MoneyFromDrinks(s0: Status, rounds: seq<Round>)
    requires StatusAfter(s0, rounds).Some?
    ensures StatusAfter(s0, rounds).value.money == s0.money + 3 * DrinkRounds(rounds)
    decreases |rounds|
  {
    hide Happiness, Intimacy, DeltaSum, BranchOf;
    if rounds != [] {
      var front := rounds[..|rounds| - 1];
      var r := rounds[|rounds| - 1];
      MoneyFromDrinks(s0, front);
      NextStatusRules(StatusAfter(s0, front).value, r.intents, r.politeness);
    }
  }

  /** Once the key is revealed the game stays ended. */
  lemma {:induction false} EndedStays(s0: Status, rounds: seq<Round>)
    requires s0.ended && StatusAfter(s0, rounds).Some?
    ensures StatusAfter(s0, rounds).value.ended
    decreases |rounds|
  {
    hide Happiness, Intimacy, DeltaSum, BranchOf;
    if rounds != [] {
      EndedStays(s0, rounds[..|rounds| - 1]);
    }
  }

  lemma NoRounds(s0: Status)
    ensures HistoryOf([]) == [] && StatusAfter(s0, []) == Some(s0)
  {
  }

  lemma AppendRound(s0: Status, rounds: seq<Round>, r: Round)
    ensures HistoryOf(rounds + [r]) == HistoryOf(rounds) + RoundMessages(r)
    ensures StatusAfter(s0, rounds + [r])
            == if StatusAfter(s0, rounds).None? then None
               else NextStatus(StatusAfter(s0, rounds).value, r.intents, r.politeness)
  {
    hide RoundMessages, NextStatus;
    assert (rounds + [r])[..|rounds|] == rounds;
  }

  /** The intimacy after the rounds, from `s0` (kept at `s0`'s once a round failed). */
  function IntimacyAfter(s0: Status, rounds: seq<Round>): real {
    match StatusAfter(s0, rounds)
    case Some(s) => s.intimacy
    case None => s0.intimacy
  }

  /** How many requests the rounds made: the intent and politeness requests, then one per
      intent. */
  function RequestCount(rounds: seq<Round>): nat
    decreases |rounds|
  {
    if rounds == [] then 0 else RequestCount(rounds[..|rounds| - 1]) + 2 + |rounds[|rounds| - 1].intents|
  }

  /** The rounds were asked one after the other from request `at` on, as `RoundAsked`
      describes: each round's requests follow the earlier rounds', its replies hold the
      conversation `start`, the earlier rounds' messages and its own line, and they use the
      intimacy the round's status update computed. */
  predicate GameAsked(answer: (nat, seq<Message>) -> string, requests: seq<seq<Message>>, at: nat,
                      start: seq<Message>, s0: Status, rounds: seq<Round>, showReal: real -> string)
    decreases |rounds|
  {
    rounds == [] ||
      var n := |rounds| - 1;
      var front := rounds[..n];
      && GameAsked(answer, requests, at, start, s0, front, showReal)
      && RoundAsked(answer, requests, at + RequestCount(front), start + HistoryOf(front) + [Message(User, rounds[n].input)],
                    rounds[n], IntimacyAfter(s0, rounds), showReal)
  }

  /** More requests do not change what the earlier rounds asked. */
  lemma {:induction false} GameAskedGrow(answer: (nat, seq<Message>) -> string, requests: seq<seq<Message>>,
                                         more: seq<seq<Message>>, at: nat, start: seq<Message>, s0: Status,
                                         rounds: seq<Round>, showReal: real -> string)
    requires GameAsked(answer, requests, at, start, s0, rounds, showReal)
    requires requests <= more
    ensures GameAsked(answer, more, at, start, s0, rounds, showReal)
    decreases |rounds|
  {
    hide RoundAsked, HistoryOf, IntimacyAfter, RequestCount;
    if rounds != [] {
      var n := |rounds| - 1;
      GameAskedGrow(answer, requests, more, at, start, s0, rounds[..n], showReal);
      RoundAskedGrow(answer, requests, more, at + RequestCount(rounds[..n]),
                     start + HistoryOf(rounds[..n]) + [Message(User, rounds[n].input)], rounds[n], IntimacyAfter(s0, rounds), showReal);
    }
  }

  /** Read round by round: round `i` asked its intents and politeness from its line at
      position `at` plus the earlier rounds' requests, then one reply per intent after the
      conversation up to its line, at the intimacy after round `i`. */
  lemma {:induction false} GameAskedAt(answer: (nat, seq<Message>) -> string, requests: seq<seq<Message>>, at: nat,
                                       start: seq<Message>, s0: Status, rounds: seq<Round>, showReal: real -> string, i: nat)
    requires GameAsked(answer, requests, at, start, s0, rounds, showReal)
    requires i < |rounds|
    ensures RoundAsked(answer, requests, at + RequestCount(rounds[..i]),
                       start + HistoryOf(rounds[..i]) + [Message(User, rounds[i].input)],
                       rounds[i], IntimacyAfter(s0, rounds[..i + 1]), showReal)
    decreases |rounds|
  {
    hide RoundAsked, HistoryOf, IntimacyAfter, RequestCount;
    var n := |rounds| - 1;
    var front := rounds[..n];
    if i < n {
      GameAskedAt(answer, requests, at, start, s0, front, showReal, i);
      assert front[..i] == rounds[..i] && front[..i + 1] == rounds[..i + 1] && front[i] == rounds[i];
    } else {
      assert rounds[..i] == front && rounds[..i + 1] == rounds;
    }
  }

  /** What one more round adds to the requests the rounds are known to have made. */
  lemma AppendAsked(answer: (nat, seq<Message>) -> string, requests: seq<seq<Message>>, at: nat,
                    start: seq<Message>, s0: Status, rounds: seq<Round>, r: Round, showReal: real -> string)
    ensures RequestCount(rounds + [r]) == RequestCount(rounds) + 2 + |r.intents|
    ensures GameAsked(answer, requests, at, start, s0, rounds + [r], showReal)
            <==> && GameAsked(answer, requests, at, start, s0, rounds, showReal)
                 && RoundAsked(answer, requests, at + RequestCount(rounds), start + HistoryOf(rounds) + [Message(User, r.input)],
                               r, IntimacyAfter(s0, rounds + [r]), showReal)
  {
    hide RoundAsked, HistoryOf, IntimacyAfter;
    var u := rounds + [r];
    assert u[..|rounds|] == rounds && u[|u| - 1] == r && |u| - 1 == |rounds|;
  }

  lemma NothingAsked(answer: (nat, seq<Message>) -> string, requests: seq<seq<Message>>, at: nat,
                     start: seq<Message>, s0: Status, showReal: real -> string)
    ensures GameAsked(answer, requests, at, start, s0, [], showReal) && RequestCount([]) == 0
  {
  }

  /** A round asked after the earlier rounds' requests, over the conversation they left,
      at the intimacy its status update computed, extends what the rounds asked. */
  lemma GameStep(answer: (nat, seq<Message>) -> string, asked: seq<seq<Message>>, requests: seq<seq<Message>>, at: nat,
                 start: seq<Message>, s0: Status, rounds: seq<Round>, r: Round, s: Status, showReal: real -> string)
    requires GameAsked(answer, asked, at, start, s0, rounds, showReal) && |asked| == at + RequestCount(rounds)
    requires asked <= requests && |requests| == |asked| + 2 + |r.intents|
    requires RoundAsked(answer, requests, |asked|, start + HistoryOf(rounds) + [Message(User, r.input)], r, s.intimacy, showReal)
    requires StatusAfter(s0, rounds + [r]) == Some(s)
    ensures GameAsked(answer, requests, at, start, s0, rounds + [r], showReal)
    ensures |requests| == at + RequestCount(rounds + [r])
  {
    hide RoundAsked, HistoryOf, StatusAfter;
    GameAskedGrow(answer, asked, requests, at, start, s0, rounds, showReal);
    AppendAsked(answer, requests, at, start, s0, rounds, r, showReal);
  }

  /** Whether the game had ended after these rounds. */
  predicate EndedAfter(s0: Status, rounds: seq<Round>) {
    StatusAfter(s0, rounds).Some? && StatusAfter(s0, rounds).value.ended
  }

  /** What ends `main` by an exception: no more input, a reply that is not a list of
      integers or not an integer, or an intent out of range. */
  datatype RoundError = EndOfInput | BadIntents(reply: string) | BadPoliteness(reply: string) | IntentOutOfRange(intent: int)

  /** How `main` ends: the loop is left (countdown over or key revealed), or an exception. */
  datatype Outcome = Finished | Aborted(reason: RoundError)

  /** The intents read from the classifier's reply, or the `ValueError` of a reply that is
      not a comma-separated list of integers. */
  predicate IntentsRead(reply: string, r: Result<seq<int>, RoundError>) {
    match ParseIntents(reply)
    case None => r == Failure(BadIntents(reply))
    case Some(intents) => r == Success(intents)
  }

  /** The politeness read from the classifier's reply, or the `ValueError` of a reply that is
      not an integer. */
  predicate PolitenessRead(reply: string, r: Result<int, RoundError>) {
    match ParseInt(reply)
    case None => r == Failure(BadPoliteness(reply))
    case Some(p) => r == Success(p)
  }

  /** `Nao`: its busyness is drawn at random and never used, and is not modelled. */
  class NaoState {
    var money: int
    var happiness: real

    constructor ()
      ensures money == 0 && happiness == 5.0
    {
      money := 0;
      happiness := 5.0;
    }
  }

  /** `You` */
  class Guest {
    var politeness: int
    var intents: seq<int>

    constructor ()
      ensures politeness == 5 && intents == [3]
    {
      politeness := 5;
      intents := [3];
    }
  }

  class Demo {
    const agent: Agent
    const nao: NaoState
    const you: Guest
    /** How `f"{self.intimacy}"` renders the intimacy. */
    const showReal: real -> string
    var numTurn: int
    var started: bool
    var ended: bool
    var intimacy: real
    var history: seq<Message>
    ghost var rounds: seq<Round>

    /** The status of the game. */
    function Current(): Status
      reads this, nao
    {
      Status(nao.money, nao.happiness, intimacy, ended)
    }

    /** `Demo(NUM_TURN)` */
    constructor (agent: Agent, numTurn: int, showReal: real -> string)
      ensures this.agent == agent && this.numTurn == numTurn && this.showReal == showReal
      ensures fresh(nao) && fresh(you) && you.politeness == 5 && you.intents == [3]
      ensures Current() == Initial && !started && history == [] && rounds == []
    {
      this.agent := agent;
      this.numTurn := numTurn;
      this.showReal := showReal;
      nao := new NaoState();
      you := new Guest();
      started := false;
      ended := false;
      intimacy := 0.0;
      history := [];
      rounds := [];
    }

    /** `intent_detection_and_update`: one request with a 16-token budget; the parsed list
        replaces the intents. */
    method DetectIntents(userInput: string) returns (r: Result<seq<int>, RoundError>)
      modifies you, agent
      ensures agent.requests == old(agent.requests) + [IntentRequest(userInput)]
      ensures IntentsRead(agent.answer(|old(agent.requests)|, IntentRequest(userInput)), r)
      ensures you.intents == if r.Success? then r.value else old(you.intents)
      ensures you.politeness == old(you.politeness)
    {
      hide IntentRequest, ParseIntents, ParseAll, Split;
      var reply := agent.Ask(IntentRequest(userInput), Some(16));
      var parsed := ParseIntents(reply);
      if parsed.None? {
        return Failure(BadIntents(reply));
      }
      you.intents := parsed.value;
      r := Success(parsed.value);
    }

    /** `politeness_detection_and_update`: one request with a 16-token budget; `int()` of
        the reply replaces the politeness. */
    method DetectPoliteness(userInput: string) returns (r: Result<int, RoundError>)
      modifies you, agent
      ensures agent.requests == old(agent.requests) + [PolitenessRequest(userInput)]
      ensures PolitenessRead(agent.answer(|old(agent.requests)|, PolitenessRequest(userInput)), r)
      ensures you.politeness == if r.Success? then r.value else old(you.politeness)
      ensures you.intents == old(you.intents)
    {
      hide PolitenessRequest, ParseInt;
      var reply := agent.Ask(PolitenessRequest(userInput), Some(16));
      var parsed := ParseInt(reply);
      if parsed.None? {
        return Failure(BadPoliteness(reply));
      }
      you.politeness := parsed.value;
      r := Success(parsed.value);
    }

    /** `update_Nao_status`: money +3 if a drink is among the intents, happiness rescaled by
        the politeness, then each intent's delta added in turn. An intent out of range stops
        the loop with an `IndexError`, the earlier deltas already added. */
    method UpdateStatus() returns (r: Result<(), RoundError>)
      modifies nao
      ensures nao.money == old(nao.money) + (if 1 in you.intents then 3 else 0)
      ensures var k := FirstInvalid(you.intents);
              && nao.happiness == Happiness(you.politeness, old(nao.happiness)) + DeltaSum(you.intents[..k])
              && (r.Failure? <==> k < |you.intents|)
              && (r.Failure? ==> r.error == IntentOutOfRange(you.intents[k]))
    {
      if 1 in you.intents {
        nao.money := nao.money + 3;
      }
      nao.happiness := you.politeness as real * 0.3 + nao.happiness * 0.8;
      ghost var base := nao.happiness;
      var i := 0;
      while i < |you.intents|
        invariant i <= FirstInvalid(you.intents)
        invariant nao.money == old(nao.money) + (if 1 in you.intents then 3 else 0)
        invariant nao.happiness == base + DeltaSum(you.intents[..i])
      {
        var delta := IntentDelta(you.intents[i]);
        if delta.None? {
          assert i == FirstInvalid(you.intents);
          return Failure(IntentOutOfRange(you.intents[i]));
        }
        DeltaSumStep(you.intents, i);
        nao.happiness := nao.happiness + delta.value;
        i := i + 1;
      }
      assert you.intents[..i] == you.intents;
      r := Success(());
    }

    /** `generate_robot_response(intent, user_input)`: the branch for the intent at the
        current intimacy (the reveal ends the game), one request without a token budget over
        the conversation and the two prompts, and the reply recorded. */
    method Respond(intent: int, userInput: string) returns (text: string)
      modifies this, agent
      ensures var asked := ResponseRequest(old(history), intent, intimacy, userInput, showReal);
              && agent.requests == old(agent.requests) + [asked]
              && text == agent.answer(|old(agent.requests)|, asked)
              && history == old(history) + [Message(Assistant, text)]
      ensures ended == (old(ended) || BranchOf(intent, intimacy) == Reveal)
      ensures numTurn == old(numTurn) && started == old(started) && intimacy == old(intimacy) && rounds == old(rounds)
    {
      hide UserPrompt, TonePrompt;
      var branch := BranchOf(intent, intimacy);
      if branch == Reveal {
        ended := true;
      }
      var asked := history + [Message(User, UserPrompt(branch, showReal(intimacy), userInput)),
                              Message(System, TonePrompt(showReal(intimacy)))];
      text := agent.Ask(asked, None);
      history := history + [Message(Assistant, text)];
    }

    /** The loop over the intents in `run_conversation`: one reply per intent, each asked
        over the conversation including the round's earlier replies, and concatenated. */
    method RespondAll(userInput: string) returns (response: string, replies: seq<string>)
      modifies this, agent
      ensures var at, before := |old(agent.requests)|, old(history);
              && old(agent.requests) <= agent.requests && |agent.requests| == at + |you.intents|
              && |replies| == |you.intents|
              && RepliesAsked(agent.answer, agent.requests, at, before, you.intents, intimacy, userInput, showReal, replies)
              && history == before + Assistants(replies)
      ensures ended == (old(ended) || exists j :: 0 <= j < |you.intents| && BranchOf(you.intents[j], intimacy) == Reveal)
      ensures numTurn == old(numTurn) && started == old(started) && intimacy == old(intimacy) && rounds == old(rounds)
    {
      hide UserPrompt, TonePrompt, ResponseRequest;
      ghost var at, before := |agent.requests|, history;
      response := "";
      replies := [];
      var i := 0;
      while i < |you.intents|
        invariant i <= |you.intents|
        invariant old(agent.requests) <= agent.requests && |agent.requests| == at + i
        invariant |replies| == i
        invariant RepliesAsked(agent.answer, agent.requests, at, before, you.intents, intimacy, userInput, showReal, replies)
        invariant history == before + Assistants(replies)
        invariant ended == (old(ended) || exists j :: 0 <= j < i && BranchOf(you.intents[j], intimacy) == Reveal)
        invariant numTurn == old(numTurn) && started == old(started) && intimacy == old(intimacy) && rounds == old(rounds)
      {
        ghost var requests := agent.requests;
        var text := Respond(you.intents[i], userInput);
        RepliesAskedStep(agent.answer, requests, agent.requests, at, before, you.intents, intimacy, userInput, showReal, replies, text);
        AssistantsSnoc(replies, text);
        response := response + text;
        replies := replies + [text];
        i := i + 1;
      }
    }

    /** The body of `run_conversation` once the user's line is recorded: the intents and the
        politeness are classified, the status updated, the intimacy recomputed and one reply
        per intent recorded. On success the new status is `NextStatus` of the old one. */
    method PlayRound(userInput: string) returns (r: Result<Round, RoundError>)
      modifies this, nao, you, agent
      ensures started == old(started) && numTurn == old(numTurn) && rounds == old(rounds)
      ensures old(history) <= history
      ensures r.Failure? ==> ended == old(ended) && r.error != EndOfInput
      ensures old(agent.requests) <= agent.requests
      ensures r.Success? ==>
                && r.value.input == userInput
                && |agent.requests| == |old(agent.requests)| + 2 + |r.value.intents|
                && history == old(history) + Assistants(r.value.replies)
                && NextStatus(old(Current()), r.value.intents, r.value.politeness) == Some(Current())
                && RoundAsked(agent.answer, agent.requests, |old(agent.requests)|, old(history), r.value, intimacy, showReal)
    {
      hide IntentRequest, PolitenessRequest, UserPrompt, TonePrompt, ResponseRequest, RepliesAsked;
      hide ParseIntents, ParseInt, ParseAll, Split, IntentDelta, BranchOf, NextStatus, RoundAsked;
      hide Happiness, DeltaSum, FirstInvalid;
      var intents := DetectIntents(userInput);
      if intents.Failure? {
        return Failure(intents.error);
      }
      var politeness := DetectPoliteness(userInput);
      if politeness.Failure? {
        return Failure(politeness.error);
      }
      var updated := UpdateStatus();
      if updated.Failure? {
        return Failure(updated.error);
      }
      ghost var status := old(Current());
      ghost var money, happiness := nao.money, nao.happiness;
      intimacy := Intimacy(nao.money, nao.happiness, intimacy);
      ghost var at, asked := |old(agent.requests)|, agent.requests;
      assert asked == old(agent.requests) + [IntentRequest(userInput), PolitenessRequest(userInput)];
      var response, replies := RespondAll(userInput);
      assert agent.requests[at] == IntentRequest(userInput) && agent.requests[at + 1] == PolitenessRequest(userInput) by {
        assert asked <= agent.requests && asked[at] == IntentRequest(userInput) && asked[at + 1] == PolitenessRequest(userInput);
      }
      r := Success(Round(userInput, you.intents, you.politeness, replies));
      StatusStep(status, you.intents, you.politeness, Current());
      RoundAskedIntro(agent.answer, agent.requests, at, old(history), r.value, intimacy, showReal);
    }

    /** `run_conversation` with the round's line (`None` when input runs out): the welcome is
        recorded on the first round only, then the user's line, then the round is played. */
    method RunConversation(input: Option<string>) returns (r: Result<Round, RoundError>)
      modifies this, nao, you, agent
      ensures started && numTurn == old(numTurn) && rounds == old(rounds)
      ensures var opening := if old(started) then [] else [Message(Assistant, Welcome)];
              old(history) + opening <= history
      ensures r == Failure(EndOfInput) <==> input.None?
      ensures r.Failure? ==> ended == old(ended)
      ensures old(agent.requests) <= agent.requests
      ensures r.Success? ==>
                var opening := if old(started) then [] else [Message(Assistant, Welcome)];
                && input == Some(r.value.input)
                && |agent.requests| == |old(agent.requests)| + 2 + |r.value.intents|
                && history == old(history) + opening + RoundMessages(r.value)
                && NextStatus(old(Current()), r.value.intents, r.value.politeness) == Some(Current())
                && RoundAsked(agent.answer, agent.requests, |old(agent.requests)|,
                              old(history) + opening + [Message(User, r.value.input)], r.value, intimacy, showReal)
    {
      hide NextStatus, RoundAsked, Assistants;
      if !started {
        started := true;
        history := history + [Message(Assistant, Welcome)];
      }
      if input.None? {
        return Failure(EndOfInput);
      }
      history := history + [Message(User, input.value)];
      ghost var opening := if old(started) then [] else [Message(Assistant, Welcome)];
      assert history == old(history) + opening + [Message(User, input.value)];
      r := PlayRound(input.value);
    }

    /** `main()`: the countdown. Each round first decrements `NUM_TURN`; the loop runs while
        it is non-zero and is left right after a round that ended the game. Every completed
        round but the last left the game running, a non-negative countdown bounds the number
        of rounds, and, unless an exception ends it, the status is the rules applied to the
        rounds and the conversation is the welcome and the rounds' messages. */
    method RunGame(inputs: seq<string>) returns (outcome: Outcome)
      modifies this, nao, you, agent
      ensures var s0, begun := old(Current()), |rounds| + (if outcome.Aborted? then 1 else 0);
              var opening := if old(started) || begun == 0 then [] else [Message(Assistant, Welcome)];
              && numTurn == old(numTurn) - begun
              && (old(numTurn) >= 0 ==> numTurn >= 0)
              && started == (old(started) || begun > 0)
              && |rounds| <= |inputs| && (forall i :: 0 <= i < |rounds| ==> rounds[i].input == inputs[i])
              && (forall i :: 0 < i < |rounds| ==> !EndedAfter(s0, rounds[..i]))
              && old(history) + opening + HistoryOf(rounds) <= history
              && (outcome == Aborted(EndOfInput) ==> |rounds| == |inputs|)
              && (outcome == Finished ==>
                    && (numTurn == 0 || ended)
                    && StatusAfter(s0, rounds) == Some(Current())
                    && history == old(history) + opening + HistoryOf(rounds))
      ensures var start := old(history) + if old(started) then [] else [Message(Assistant, Welcome)];
              && old(agent.requests) <= agent.requests
              && GameAsked(agent.answer, agent.requests, |old(agent.requests)|, start, old(Current()), rounds, showReal)
              && (outcome == Finished ==> |agent.requests| == |old(agent.requests)| + RequestCount(rounds))
    {
      hide IntentRequest, PolitenessRequest, UserPrompt, TonePrompt, ResponseRequest, RepliesAsked;
      hide NextStatus, RoundMessages, HistoryOf, StatusAfter, Assistants, RoundAsked;
      hide GameAsked, RequestCount, IntimacyAfter, IntentsRead, PolitenessRead, ParseIntents, ParseInt;
      ghost var s0 := Current();
      ghost var started0 := started;
      ghost var h0 := history;
      ghost var n0 := numTurn;
      ghost var requests0 := agent.requests;
      ghost var start := h0 + if started0 then [] else [Message(Assistant, Welcome)];
      rounds := [];
      var t := 0;
      outcome := Finished;
      NoRounds(s0);
      NothingAsked(agent.answer, agent.requests, |requests0|, start, s0, showReal);
      while numTurn != 0
        invariant t <= |inputs| && |rounds| == t && numTurn == n0 - t
        invariant n0 >= 0 ==> numTurn >= 0
        invariant started == (started0 || t > 0)
        invariant forall i :: 0 <= i < t ==> rounds[i].input == inputs[i]
        invariant forall i :: 0 < i <= t ==> !EndedAfter(s0, rounds[..i])
        invariant StatusAfter(s0, rounds) == Some(Current())
        invariant history == h0 + (if started0 || t == 0 then [] else [Message(Assistant, Welcome)]) + HistoryOf(rounds)
        invariant outcome == Finished
        invariant requests0 <= agent.requests && |agent.requests| == |requests0| + RequestCount(rounds)
        invariant GameAsked(agent.answer, agent.requests, |requests0|, start, s0, rounds, showReal)
        decreases |inputs| - t
      {
        numTurn := numTurn - 1;
        ghost var asked := agent.requests;
        ghost var ahead := history + if started then [] else [Message(Assistant, Welcome)];
        assert ahead == start + HistoryOf(rounds);
        var played := RunConversation(if t < |inputs| then Some(inputs[t]) else None);
        if played.Failure? {
          GameAskedGrow(agent.answer, asked, agent.requests, |requests0|, start, s0, rounds, showReal);
          assert start + HistoryOf(rounds) <= history;
          outcome := Aborted(played.error);
          break;
        }
        ghost var before := rounds;
        AppendRound(s0, rounds, played.value);
        GameStep(agent.answer, asked, agent.requests, |requests0|, start, s0, rounds, played.value, Current(), showReal);
        rounds := rounds + [played.value];
        t := t + 1;
        assert history == start + HistoryOf(rounds);
        forall i | 0 < i < t ensures !EndedAfter(s0, rounds[..i]) {
          assert rounds[..i] == before[..i];
        }
        if ended {
          break;
        }
        assert StatusAfter(s0, rounds) == Some(Current()) && rounds[..t] == rounds;
      }
    }
  }
}
