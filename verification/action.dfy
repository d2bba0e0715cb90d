/** sir_code/action.py: the gesture detector. The agent is asked which pre-recorded gestures
    fit the robot's reply; the accepted letters replace the current gesture string. */
module Actions {
  import opened Results
  import opened PyStrings
  import opened Utils
  import opened Agents
  import opened LabelParser

  /** The last letter the detector accepts: D and H have no description but pass. */
  const Top: char := 'H'

  const Descriptions: seq<(string, string)> := [
    ("A", "Nod your head"),
    ("B", "Lift one arm to your chest"),
    ("C", "Open one arm widely"),
    ("E", "Lift one arm to your chin, pointing to yourself"),
    ("F", "Place a hand over your heart, show respect"),
    ("G", "Gently tap your lips or temple to suggest secrecy or whispering")
  ]

  const Indent: string := "            "

  /** `generate_prompt(nao_text)` */
  function GeneratePrompt(naoText: string): string {
    MultilineStrip(
      "\n"
      + Indent + "The following text is a reply from you to a traveller in a tavern:\n"
      + Indent + "you: \"" + naoText + "\"\n"
      + Indent + "\n"
      + Indent + "Which of the following actions apply while speaking the text(can be multiple or none)? \n"
      + Indent + "Please answer with comma separated letters (e.g 'A,B'), or simply 'None' if none apply:\n"
      + Indent + OptionsText(Descriptions) + "\n"
      + Indent)
  }

  /** The one message `detect` sends to the agent. */
  function DetectRequest(naoText: string): seq<Message> {
    [Message(User, GeneratePrompt(naoText))]
  }

  /** A letter with no description in the prompt is still accepted by the parser. */
  lemma UndescribedLettersAccepted()
    ensures IsCode('D', Top) && IsCode('H', Top)
    ensures forall i :: 0 <= i < |Descriptions| ==> Descriptions[i].0 != "D" && Descriptions[i].0 != "H"
  {
  }

  class Action {
    const agent: Agent
    var currentActions: string

    /** `__init__`: no gestures yet. */
    constructor (agent: Agent)
      ensures this.agent == agent && currentActions == ""
    {
      this.agent := agent;
      currentActions := "";
    }

    /** `detect(nao_text)`: one request with a 16-token budget; an accepted reply's sorted
        letters replace the current gestures (nothing accumulates) and are returned. A failure
        is the source's assertion error and leaves the gestures as they were. */
    method Detect(naoText: string) returns (r: Result<string, LabelError>)
      modifies this, agent
      ensures agent.requests == old(agent.requests) + [DetectRequest(naoText)]
      ensures r == ParseLabels(old(agent.NextReply(DetectRequest(naoText))), Top)
      ensures r.Success? ==> currentActions == r.value
      ensures r.Failure? ==> currentActions == old(currentActions)
    {
      var reply := agent.Ask(DetectRequest(naoText), Some(16));
      r := ParseLabels(reply, Top);
      if r.Success? {
        currentActions := r.value;
      }
    }
  }
}
