/**
 * The landing page's own logic, src/features/home/Home.jsx: the carousel
 * index that the three-second interval advances, and the chat box whose
 * handleSendMessage appends the visitor's message and then one bot answer.
 *
 * handleSendMessage awaits the chatbot call, so it is two steps here:
 * `BeginSend` runs up to the `await`, `FinishSend` once the answer is in.
 * The answer (a response body, or a failure) is an input.
 */
module Home {
  import opened Js

  /** The five carousel images. */
  const ImageCount := 5

  const Greeting := "Hello! How can I help you with our services today..? 😃"
  const NotUnderstood := "Sorry, I couldn't understand that."
  const WentWrong := "Something went wrong. Please try again."

  /** One interval tick: the last image goes back to the first, any other to the next. */
  function NextIndex(i: int): (j: int)
    ensures 0 <= i < ImageCount ==> 0 <= j < ImageCount
    ensures 0 <= i < ImageCount ==> j == (i + 1) % ImageCount
  {
    if i == ImageCount - 1 then 0 else i + 1
  }

  /** The index after `n` ticks. */
  function AfterTicks(i: int, n: nat): (j: int)
    ensures 0 <= i < ImageCount ==> 0 <= j < ImageCount
    ensures n == 0 ==> j == i
    decreases n
  {
    if n == 0 then i else AfterTicks(NextIndex(i), n - 1)
  }

  /** From the first image, `n` ticks show image `n mod 5`: every image in turn, forever. */
  lemma {:induction false} TicksCycle(i: int, n: nat)
    requires 0 <= i < ImageCount
    ensures AfterTicks(i, n) == (i + n) % ImageCount
    decreases n
  {
    if n > 0 {
      TicksCycle(NextIndex(i), n - 1);
    }
  }

  datatype Message = Message(sender: string, text: Value)

  /** How the chatbot call ended: a response with this body, or a thrown error. */
  datatype Answer = Replied(data: Value) | Failed

  /**
   * The bot's message: `response.data.reply`, or the default when that is
   * falsy. Reading `reply` of an undefined or null body throws, which the
   * `catch` turns into the error message.
   */
  function BotMessage(answer: Answer): (m: Message)
    ensures m.sender == "bot" && Truthy(m.text)
    ensures answer.Failed? || answer.data == Undefined || answer.data == Null ==> m.text == Str(WentWrong)
    ensures answer.Replied? && answer.data != Undefined && answer.data != Null ==>
              m.text == Or(Member(answer.data, "reply"), Str(NotUnderstood))
  {
    match answer
    case Failed => Message("bot", Str(WentWrong))
    case Replied(data) =>
      if data == Undefined || data == Null then Message("bot", Str(WentWrong))
      else Message("bot", Or(Member(data, "reply"), Str(NotUnderstood)))
  }

  class ChatBox {
    var currentIndex: int
    var isChatOpen: bool
    var inputMessage: string
    var chatHistory: seq<Message>

    constructor()
      ensures currentIndex == 0 && !isChatOpen && inputMessage == ""
      ensures chatHistory == [Message("bot", Str(Greeting))]
    {
      currentIndex := 0;
      isChatOpen := false;
      inputMessage := "";
      chatHistory := [Message("bot", Str(Greeting))];
    }

    /** The carousel interval's callback. */
    method Tick()
      modifies this
      ensures currentIndex == NextIndex(old(currentIndex))
      ensures isChatOpen == old(isChatOpen) && inputMessage == old(inputMessage)
      ensures chatHistory == old(chatHistory)
    {
      if currentIndex == ImageCount - 1 {
        currentIndex := 0;
      } else {
        currentIndex := currentIndex + 1;
      }
    }

    method ToggleChat()
      modifies this
      ensures isChatOpen == !old(isChatOpen)
      ensures currentIndex == old(currentIndex) && inputMessage == old(inputMessage)
      ensures chatHistory == old(chatHistory)
    {
      isChatOpen := !isChatOpen;
    }

    method SetInput(text: string)
      modifies this
      ensures inputMessage == text
      ensures currentIndex == old(currentIndex) && isChatOpen == old(isChatOpen)
      ensures chatHistory == old(chatHistory)
    {
      inputMessage := text;
    }

    /**
     * handleSendMessage up to the `await`: blank input changes nothing and
     * sends nothing; otherwise the message as typed (not trimmed) is appended,
     * the input is cleared, and the text is what is sent.
     */
    method BeginSend() returns (sent: Option<string>)
      modifies this
      ensures Trim(old(inputMessage)) == "" ==> sent == None && inputMessage == old(inputMessage)
                                                && chatHistory == old(chatHistory)
      ensures Trim(old(inputMessage)) != "" ==>
                && sent == Some(old(inputMessage)) && inputMessage == ""
                && chatHistory == old(chatHistory) + [Message("user", Str(old(inputMessage)))]
      ensures currentIndex == old(currentIndex) && isChatOpen == old(isChatOpen)
    {
      if Trim(inputMessage) == "" {
        return None;
      }
      var text := inputMessage;
      chatHistory := chatHistory + [Message("user", Str(text))];
      inputMessage := "";
      sent := Some(text);
    }

    /** The rest of handleSendMessage: exactly one bot message is appended. */
    method FinishSend(answer: Answer)
      modifies this
      ensures chatHistory == old(chatHistory) + [BotMessage(answer)]
      ensures currentIndex == old(currentIndex) && isChatOpen == old(isChatOpen)
      ensures inputMessage == old(inputMessage)
    {
      chatHistory := chatHistory + [BotMessage(answer)];
    }
  }

  /**
   * A full exchange adds exactly two messages, the visitor's then the bot's,
   * and keeps everything said before.
   */
  lemma ExchangeAddsTwo(history: seq<Message>, text: string, answer: Answer)
    requires Trim(text) != ""
    ensures var after := history + [Message("user", Str(text))] + [BotMessage(answer)];
            && |after| == |history| + 2 && after[..|history|] == history
            && after[|history|].sender == "user" && after[|history| + 1].sender == "bot"
  {
    var after := history + [Message("user", Str(text))] + [BotMessage(answer)];
    assert after[..|history|] == history;
  }
}
