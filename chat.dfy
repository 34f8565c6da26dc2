/**
 * The full-page assistant chat (src/pages/Chat.jsx): a transcript that opens with a
 * greeting, a send guard, and the user/answer pair each accepted send appends.
 */
module Chat {
  import opened Wrappers
  import opened JsText

  datatype Sender = User | Ai

  datatype ChatMessage = ChatMessage(sender: Sender, text: string)

  // Long texts are written as short pieces, which are cheaper for the verifier.
  /** The greeting the page places in the transcript when it mounts. */
  const GreetingText: string :=
    "Hello! I'm your MINDHUE AI " + "medical assistant, " + "specialized in "
    + "ophthalmology and retinal " + "diseases. I can help you "
    + "with:\n\n\U{2022} **Diagnostic " + "Insights** - Explain fundus "
    + "image findings and ERG " + "results\n\U{2022} **Clinical " + "Guidance** - Treatment "
    + "recommendations and " + "referral decisions  \n\U{2022} " + "**Medical Education** - "
    + "Latest research and best " + "practices\n\U{2022} **Platform "
    + "Support** - How to use " + "MINDHUE features " + "effectively\n\nWhat would you "
    + "like to know today?"

  /** The answer shown when the model call fails. */
  const Apology: string :=
    "I apologize, but I " + "encountered a technical " + "issue. Please try again, or "
    + "contact our support team if " + "the problem persists. Your "
    + "question is important to " + "me!"

  /** The questions offered while nothing has been asked yet. */
  const SuggestedQuestions: seq<string> := [
    "What are the signs of diabetic retinopathy?",
    "How do I interpret ERG results?",
    "When should I refer a patient to a specialist?",
    "What's the difference between AMD and diabetic macular edema?",
    "How accurate is AI in fundus image analysis?",
    "What are the best practices for fundus photography?"
  ]

  /** `question || input.trim()`: a non-empty question argument wins over the typed text. */
  function MessageText(question: Option<string>, input: string): (text: string)
    ensures question.Some? && question.value != "" ==> text == question.value
    ensures (question.None? || question.value == "") ==> text == Trim(input)
    ensures text == "" <==> (question.None? || question.value == "") &&
                            forall i :: 0 <= i < |input| ==> IsWhiteSpace(input[i])
  {
    if question.Some? && question.value != "" then question.value else Trim(input)
  }

  /** The answer appended once the model call settles. */
  function ReplyText(reply: Outcome<string>): (text: string)
    ensures text == Apology <==> reply.Failure? || reply.value == Apology
  {
    if reply.Success? then reply.value else Apology
  }

  /**
   * The shape of the transcript: the greeting, then user messages with non-empty text at
   * odd positions and answers at even positions.
   */
  ghost predicate Alternates(messages: seq<ChatMessage>) {
    && |messages| >= 1
    && messages[0] == ChatMessage(Ai, GreetingText)
    && (forall i :: 1 <= i < |messages| && i % 2 == 1 ==> messages[i].sender == User && messages[i].text != "")
    && (forall i :: 1 <= i < |messages| && i % 2 == 0 ==> messages[i].sender == Ai)
  }

  lemma AppendUserAlternates(messages: seq<ChatMessage>, text: string)
    requires Alternates(messages) && |messages| % 2 == 1 && text != ""
    ensures Alternates(messages + [ChatMessage(User, text)])
  {
  }

  lemma AppendAiAlternates(messages: seq<ChatMessage>, text: string)
    requires Alternates(messages) && |messages| % 2 == 0
    ensures Alternates(messages + [ChatMessage(Ai, text)])
  {
  }

  class ChatPage {
    var messages: seq<ChatMessage>
    var input: string
    var isLoading: bool

    /** A request is in flight exactly when the last message is an unanswered question. */
    ghost predicate Valid()
      reads this
    {
      Alternates(messages) && (isLoading <==> |messages| % 2 == 0)
    }

    /** Suggested questions are shown while the transcript holds at most one message. */
    predicate ShowsSuggestions()
      reads this
    {
      |messages| <= 1
    }

    /** The page after its mount effect: the greeting alone, an empty box, nothing in flight. */
    constructor ()
      ensures Valid()
      ensures messages == [ChatMessage(Ai, GreetingText)] && input == "" && !isLoading
      ensures ShowsSuggestions()
    {
      messages := [ChatMessage(Ai, GreetingText)];
      input := "";
      isLoading := false;
    }

    /** The input box's `onChange`. */
    method TypeInput(text: string)
      modifies this
      ensures messages == old(messages) && isLoading == old(isLoading) && input == text
    {
      input := text;
    }

    /**
     * The synchronous part of `handleSend(question)`: nothing happens when the message
     * text is empty or a request is in flight; otherwise the user message is appended,
     * the box is cleared and the request starts.
     */
    method HandleSend(question: Option<string>) returns (accepted: bool)
      requires Valid()
      modifies this
      ensures Valid()
      ensures accepted <==> MessageText(question, old(input)) != "" && !old(isLoading)
      ensures accepted ==> && messages == old(messages) + [ChatMessage(User, MessageText(question, old(input)))]
                           && input == "" && isLoading
      ensures !accepted ==> messages == old(messages) && input == old(input) && isLoading == old(isLoading)
    {
      var messageText := MessageText(question, input);
      if messageText == "" || isLoading {
        return false;
      }
      AppendUserAlternates(messages, messageText);
      ghost var n := |messages|;
      messages := messages + [ChatMessage(User, messageText)];
      assert |messages| == n + 1;
      input := "";
      isLoading := true;
      accepted := true;
    }

    /** The rest of `handleSend`: exactly one answer is appended and the request ends. */
    method CompleteSend(reply: Outcome<string>)
      requires Valid() && isLoading
      modifies this
      ensures Valid()
      ensures messages == old(messages) + [ChatMessage(Ai, ReplyText(reply))]
      ensures !isLoading && input == old(input)
    {
      AppendAiAlternates(messages, ReplyText(reply));
      messages := messages + [ChatMessage(Ai, ReplyText(reply))];
      isLoading := false;
    }

    /** `handleKeyPress`: Enter without Shift sends the typed text, unless a request is in flight. */
    method HandleKeyPress(key: string, shiftKey: bool) returns (accepted: bool)
      requires Valid()
      modifies this
      ensures Valid()
      ensures accepted <==> key == "Enter" && !shiftKey && !old(isLoading) && Trim(old(input)) != ""
      ensures accepted ==> messages == old(messages) + [ChatMessage(User, Trim(old(input)))] && input == "" && isLoading
      ensures !accepted ==> messages == old(messages) && input == old(input) && isLoading == old(isLoading)
    {
      accepted := false;
      if key == "Enter" && !shiftKey && !isLoading {
        accepted := HandleSend(None);
      }
    }

    /** A suggested question, offered only before the first send, is always accepted. */
    method SelectSuggestion(question: string) returns (accepted: bool)
      requires Valid() && ShowsSuggestions() && question in SuggestedQuestions
      modifies this
      ensures Valid()
      ensures accepted
      ensures messages == old(messages) + [ChatMessage(User, question)] && input == "" && isLoading
      ensures !ShowsSuggestions()
    {
      assert |messages| == 1 && !isLoading;
      assert |question| > 0;
      assert MessageText(Some(question), input) == question;
      accepted := HandleSend(Some(question));
    }
  }
}
