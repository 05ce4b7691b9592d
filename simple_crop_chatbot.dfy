/**
 * The conversational crop-advice chat bot
 * (backend/ai/implementations/Crop_recd/simple_crop_chatbot.py):
 * its bounded history and the order in which a question, the model call and
 * the reply touch it. The language model is a function from the messages
 * sent to its reply or the text of the exception it raised.
 */
module SimpleCropChatbot {
  import opened Wrappers
  import opened ChatHistory

  class CropChatBot {
    /** `conversation_history`. */
    var history: seq<Message>
    /** `system_prompt`; its wording is not part of this model. */
    const systemPrompt: string

    predicate Valid()
      reads this
    {
      |history| <= MaxHistory
    }

    constructor (systemPrompt: string)
      ensures history == [] && this.systemPrompt == systemPrompt
      ensures Valid()
    {
      this.systemPrompt := systemPrompt;
      history := [];
    }

    /** `add_to_history`: append, then keep the last 10. */
    method AddToHistory(role: string, content: string)
      modifies this
      ensures history == Add(old(history), Message(role, content))
      ensures Valid()
    {
      history := history + [Message(role, content)];
      if |history| > MaxHistory {
        history := history[|history| - MaxHistory..];
      }
    }

    /** `get_response`: the question is recorded before the model is asked;
        a reply is recorded and returned; a failure returns the error text
        and leaves the question without a reply. */
    method GetResponse(userMessage: string, llm: seq<Message> -> Result<string, string>) returns (answer: string)
      modifies this
      ensures var sent := Request(systemPrompt, old(history), userMessage);
        var asked := Add(old(history), Message("user", userMessage));
        match llm(sent)
        case Ok(reply) => answer == reply && history == Add(asked, Message("assistant", reply))
        case Err(e) => answer == ErrorReply(e) && history == asked
      ensures Valid()
    {
      ghost var sent := Request(systemPrompt, history, userMessage);
      AddToHistory("user", userMessage);
      var messages := [Message("system", systemPrompt)] + history;
      assert messages == sent;
      match llm(messages)
      case Ok(reply) =>
        AddToHistory("assistant", reply);
        answer := reply;
      case Err(e) =>
        answer := ErrorReply(e);
    }
  
    /** `start_chat` opens the conversation by asking "Let's begin." through
        `get_response`, so a fresh history starts with that question. */
    method Open(llm: seq<Message> -> Result<string, string>) returns (greeting: string)
      requires history == []
      modifies this
      ensures history != [] && history[0] == Message("user", OpeningLine)
      ensures match llm([Message("system", systemPrompt), Message("user", OpeningLine)])
        case Ok(reply) => greeting == reply && history == [Message("user", OpeningLine), Message("assistant", reply)]
        case Err(e) => greeting == ErrorReply(e) && history == [Message("user", OpeningLine)]
      ensures Valid()
    {
      var question := Message("user", OpeningLine);
      assert Request(systemPrompt, history, OpeningLine) == [Message("system", systemPrompt), question];
      greeting := GetResponse(OpeningLine, llm);
      assert Add([], question) == [question];
    }
  }

  const OpeningLine: string := "Let's begin."
}
