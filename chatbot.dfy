/**
 * The React chatbot page (frontend/src/pages/Chatbot.jsx): a message list, the
 * text area's content and a loading flag. Submitting non-blank input appends
 * it as a user message; the simulated reply appends a fixed assistant message.
 */
module Chatbot {
  import opened Text

  datatype Role = User | Assistant

  datatype Message = Message(role: Role, content: string)

  /** The fixed content of every simulated reply. */
  const ReplyText := "This is a simulated response. The actual API integration will be implemented later."

  /** The send button's `disabled` condition, negated. */
  function SubmitEnabled(isLoading: bool, input: string): (enabled: bool)
    ensures enabled <==> !isLoading && exists i :: 0 <= i < |input| && !IsJsWhitespace(input[i])
  {
    !isLoading && Trim(input) != []
  }

  class Chat {
    var messages: seq<Message>
    var input: string
    var isLoading: bool

    /** Every user message carries some non-whitespace text. */
    predicate Valid()
      reads this
    {
      forall i :: 0 <= i < |messages| && messages[i].role == User ==> !IsBlank(messages[i].content)
    }

    constructor ()
      ensures Valid() && messages == [] && input == "" && !isLoading
    {
      messages := [];
      input := "";
      isLoading := false;
    }

    /** The text area's `onChange`. */
    method SetInput(text: string)
      modifies this
      ensures input == text && messages == old(messages) && isLoading == old(isLoading)
    {
      input := text;
    }

    /**
     * The synchronous part of `handleSubmit`: blank input changes nothing;
     * otherwise the untrimmed input is appended as a user message, the text
     * area is cleared and loading starts.
     */
    method HandleSubmit()
      requires Valid()
      modifies this
      ensures Valid()
      ensures IsBlank(old(input)) ==>
        messages == old(messages) && input == old(input) && isLoading == old(isLoading)
      ensures !IsBlank(old(input)) ==>
        messages == old(messages) + [Message(User, old(input))] && input == "" && isLoading
    {
      if Trim(input) == [] {
        return;
      }
      var userMessage := Message(User, input);
      messages := messages + [userMessage];
      input := "";
      isLoading := true;
    }

    /**
     * The awaited part of `handleSubmit`: the reply is appended unless the
     * wait failed, and loading stops either way (the `finally`).
     */
    method FinishReply(failed: bool)
      requires Valid()
      modifies this
      ensures Valid() && !isLoading && input == old(input)
      ensures messages == old(messages) + (if failed then [] else [Message(Assistant, ReplyText)])
    {
      if !failed {
        var botMessage := Message(Assistant, ReplyText);
        messages := messages + [botMessage];
      }
      isLoading := false;
    }
  }
}
