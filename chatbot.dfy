/**
 * The support chat: an append-only transcript that starts with one
 * greeting, an input line, and a flag for the reply being awaited.
 */
module Chat {
  import opened JsStrings
  import opened Wrappers
  import GeminiService

  datatype Sender = UserSender | BotSender

  datatype Message = Message(text: string, sender: Sender)

  const Greeting := Message("Hi! I'm the support assistant for CodeHustlers. How can I help you with the CodeHustlers app today?", BotSender)

  /** The number of messages from `who`. */
  function CountFrom(ms: seq<Message>, who: Sender): (n: nat)
    ensures n <= |ms|
  {
    if ms == [] then 0 else CountFrom(ms[..|ms| - 1], who) + (if ms[|ms| - 1].sender == who then 1 else 0)
  }

  /** Appending one message adds one to its sender's count only. */
  lemma CountAppend(ms: seq<Message>, m: Message, who: Sender)
    ensures CountFrom(ms + [m], who) == CountFrom(ms, who) + (if m.sender == who then 1 else 0)
  {
    assert (ms + [m])[..|ms|] == ms;
  }

  class Chatbot {
    var isOpen: bool
    var messages: seq<Message>
    var userInput: string
    var isLoading: bool

    /** The greeting stays first, and every question sent has been
        answered except the one being awaited. */
    predicate Valid()
      reads this
    {
      && |messages| >= 1 && messages[0] == Greeting
      && CountFrom(messages, UserSender) + 1 == CountFrom(messages, BotSender) + (if isLoading then 1 else 0)
    }

    constructor ()
      ensures Valid() && messages == [Greeting]
      ensures !isOpen && userInput == "" && !isLoading
    {
      isOpen := false;
      messages := [Greeting];
      userInput := "";
      isLoading := false;
    }

    /** The round button. */
    method ToggleOpen()
      modifies this`isOpen
      ensures isOpen == !old(isOpen)
    {
      isOpen := !isOpen;
    }

    /** The '×' button in the window's header. */
    method Close()
      modifies this`isOpen
      ensures !isOpen
    {
      isOpen := false;
    }

    /** Typing in the input line. */
    method Type(value: string)
      modifies this`userInput
      ensures userInput == value
    {
      userInput := value;
    }

    /** `handleSend`, up to the request: a blank input, or a reply still
        awaited, changes nothing; otherwise the input, untrimmed, is
        appended as the user's message, the line cleared, and the input is
        what is sent. */
    method Send() returns (query: Option<string>)
      requires Valid()
      modifies this`messages, this`userInput, this`isLoading
      ensures Valid()
      ensures query.None? <==> Trim(old(userInput)) == "" || old(isLoading)
      ensures query.None? ==> messages == old(messages) && userInput == old(userInput) && isLoading == old(isLoading)
      ensures query.Some? ==> query.value == old(userInput)
      ensures query.Some? ==> messages == old(messages) + [Message(old(userInput), UserSender)]
      ensures query.Some? ==> userInput == "" && isLoading
    {
      if Trim(userInput) == "" || isLoading {
        return None;
      }
      query := Some(userInput);
      CountAppend(messages, Message(userInput, UserSender), UserSender);
      CountAppend(messages, Message(userInput, BotSender), BotSender);
      messages := messages + [Message(userInput, UserSender)];
      userInput := "";
      isLoading := true;
    }

    /** `handleSend`, after the request: the adapter's answer is appended
        as one bot message and the wait ends. */
    method ReplyArrived(reply: GeminiService.Reply)
      requires Valid() && isLoading
      modifies this`messages, this`isLoading
      ensures Valid()
      ensures messages == old(messages) + [Message(GeminiService.GetChatbotResponse(reply), BotSender)]
      ensures !isLoading
    {
      var m := Message(GeminiService.GetChatbotResponse(reply), BotSender);
      CountAppend(messages, m, UserSender);
      CountAppend(messages, m, BotSender);
      messages := messages + [m];
      isLoading := false;
    }

    /** `handleKeyPress`: Enter sends, any other key does nothing. */
    method KeyPress(key: string) returns (query: Option<string>)
      requires Valid()
      modifies this`messages, this`userInput, this`isLoading
      ensures Valid()
      ensures key != "Enter" ==> query.None? && messages == old(messages) && userInput == old(userInput) && isLoading == old(isLoading)
      ensures key == "Enter" ==> (query.None? <==> Trim(old(userInput)) == "" || old(isLoading))
      ensures key == "Enter" && query.None? ==> messages == old(messages) && userInput == old(userInput) && isLoading == old(isLoading)
      ensures key == "Enter" && query.Some? ==> query.value == old(userInput)
      ensures key == "Enter" && query.Some? ==> messages == old(messages) + [Message(old(userInput), UserSender)]
      ensures key == "Enter" && query.Some? ==> userInput == "" && isLoading
    {
      query := None;
      if key == "Enter" {
        query := Send();
      }
    }
  }
}
