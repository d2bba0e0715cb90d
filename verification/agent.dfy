/** The language agent every classifier and conversation loop talks to
    (sir_code/lib.py `Agent`, implemented by sir_code/chatgpt_wrapper.py). Its replies
    are not specified, so the agent is an oracle: `answer(n, messages)` is whatever it
    replies to the n-th request, whose messages were `messages`. The agent also keeps
    the requests it received, so that what the model was shown can be stated. */
module Agents {
  import opened Results

  datatype Role = System | User | Assistant

  /** One `{"role": ..., "content": ...}` entry of a message list. */
  datatype Message = Message(role: Role, content: string)

  class Agent {
    const answer: (nat, seq<Message>) -> string
    var requests: seq<seq<Message>>

    constructor (answer: (nat, seq<Message>) -> string)
      ensures this.answer == answer && requests == []
    {
      this.answer := answer;
      requests := [];
    }

    /** The reply the next request with these messages receives. */
    function NextReply(messages: seq<Message>): string
      reads this
    {
      answer(|requests|, messages)
    }

    /** `ask(messages, max_output_tokens)`: a token budget, when one is given, must be positive.
        `ask_stream` yields pieces whose concatenation is this same reply. */
    method Ask(messages: seq<Message>, maxOutputTokens: Option<int>) returns (reply: string)
      requires maxOutputTokens.Some? ==> maxOutputTokens.value > 0
      modifies this
      ensures reply == old(NextReply(messages))
      ensures requests == old(requests) + [messages]
    {
      reply := answer(|requests|, messages);
      requests := requests + [messages];
    }
  }
}
