/**
 * The floating assistant widget (src/components/ui/FloatingAIAssistant.jsx): open and
 * minimized flags, a transcript that opens with a greeting, and a send guard that tests
 * the trimmed input but stores the input as typed.
 */
module FloatingAssistant {
  import opened Wrappers
  import opened JsText

  datatype Role = UserRole | AssistantRole

  datatype AssistantMessage = AssistantMessage(role: Role, content: string)

  // Long texts are written as short pieces, which are cheaper for the verifier.
  /** The greeting the transcript starts with. */
  const GreetingContent: string :=
    "Hello! I'm your MINDHUE AI " + "medical assistant. I can "
    + "help you with:\n\n\U{2022} **Medical " + "Questions** - Explain "
    + "symptoms, conditions, and " + "treatments\n\U{2022} **Diagnosis "
    + "Support** - Interpret " + "medical results and " + "images\n\U{2022} **Platform "
    + "Guidance** - Navigate " + "MINDHUE features\n\U{2022} " + "**Specialist Referrals** - "
    + "When to consult specific " + "doctors\n\nHow can I assist " + "you today?"

  /** The answer shown when the model call fails. */
  const Apology: string :=
    "I apologize, but I " + "encountered a technical " + "issue. Please try again or "
    + "contact our support team if " + "the problem persists."

  /** `!input.trim()`: the typed text is blank. */
  predicate IsBlank(input: string)
    ensures IsBlank(input) <==> forall i :: 0 <= i < |input| ==> IsWhiteSpace(input[i])
  {
    Trim(input) == ""
  }

  /** The answer appended once the model call settles. */
  function ReplyContent(reply: Outcome<string>): (content: string)
    ensures content == Apology <==> reply.Failure? || reply.value == Apology
  {
    if reply.Success? then reply.value else Apology
  }

  /** The text holds a character that is not white space: the negation of `IsBlank`, without `Trim`. */
  ghost predicate Visible(s: string) {
    exists i :: 0 <= i < |s| && !IsWhiteSpace(s[i])
  }

  /**
   * The shape of the transcript: the greeting, then non-blank user messages at odd
   * positions and assistant answers at even positions.
   */
  ghost predicate Alternates(messages: seq<AssistantMessage>) {
    && |messages| >= 1
    && messages[0] == AssistantMessage(AssistantRole, GreetingContent)
    && (forall i :: 1 <= i < |messages| && i % 2 == 1 ==> messages[i].role == UserRole && Visible(messages[i].content))
    && (forall i :: 1 <= i < |messages| && i % 2 == 0 ==> messages[i].role == AssistantRole)
  }

  /** Text that is not blank has a visible character. */
  lemma NotBlankIsVisible(s: string)
    requires !IsBlank(s)
    ensures Visible(s)
  {
  }

  /** Appending a non-blank question after an answered transcript keeps the shape. */
  lemma AskKeepsAlternation(messages: seq<AssistantMessage>, question: string)
    requires Alternates(messages) && |messages| % 2 == 1 && Visible(question)
    ensures Alternates(messages + [AssistantMessage(UserRole, question)])
    ensures |messages + [AssistantMessage(UserRole, question)]| % 2 == 0
  {
    var next := messages + [AssistantMessage(UserRole, question)];
    forall i | 1 <= i < |next| && i % 2 == 1
      ensures next[i].role == UserRole && Visible(next[i].content)
    {
      if i < |messages| {
        assert next[i] == messages[i];
      }
    }
    forall i | 1 <= i < |next| && i % 2 == 0
      ensures next[i].role == AssistantRole
    {
      assert next[i] == messages[i];
    }
  }

  /** Appending an answer after an open question keeps the shape. */
  lemma AnswerKeepsAlternation(messages: seq<AssistantMessage>, answer: string)
    requires Alternates(messages) && |messages| % 2 == 0
    ensures Alternates(messages + [AssistantMessage(AssistantRole, answer)])
    ensures |messages + [AssistantMessage(AssistantRole, answer)]| % 2 == 1
  {
    var next := messages + [AssistantMessage(AssistantRole, answer)];
    forall i | 1 <= i < |next| && i % 2 == 1
      ensures next[i].role == UserRole && Visible(next[i].content)
    {
      assert next[i] == messages[i];
    }
    forall i | 1 <= i < |next| && i % 2 == 0
      ensures next[i].role == AssistantRole
    {
      if i < |messages| {
        assert next[i] == messages[i];
      }
    }
  }

  class AssistantWidget {
    var isOpen: bool
    var isMinimized: bool
    var messages: seq<AssistantMessage>
    var input: string
    var isLoading: bool

    /** A request is in flight exactly when the last message is an unanswered question. */
    ghost predicate Valid()
      reads this
    {
      Alternates(messages) && (isLoading <==> |messages| % 2 == 0)
    }

    constructor ()
      ensures Valid()
      ensures !isOpen && !isMinimized && !isLoading && input == ""
      ensures messages == [AssistantMessage(AssistantRole, GreetingContent)]
    {
      isOpen := false;
      isMinimized := false;
      messages := [AssistantMessage(AssistantRole, GreetingContent)];
      input := "";
      isLoading := false;
    }

    /** The launcher button. */
    method Open()
      modifies this
      ensures isOpen
      ensures isMinimized == old(isMinimized) && messages == old(messages)
      ensures input == old(input) && isLoading == old(isLoading)
    {
      isOpen := true;
    }

    /** The close button: the transcript is kept for the next opening. */
    method Close()
      modifies this
      ensures !isOpen
      ensures isMinimized == old(isMinimized) && messages == old(messages)
      ensures input == old(input) && isLoading == old(isLoading)
    {
      isOpen := false;
    }

    /** The minimize button flips the flag. */
    method ToggleMinimize()
      modifies this
      ensures isMinimized == !old(isMinimized)
      ensures isOpen == old(isOpen) && messages == old(messages)
      ensures input == old(input) && isLoading == old(isLoading)
    {
      isMinimized := !isMinimized;
    }

    method TypeInput(text: string)
      modifies this
      ensures input == text
      ensures isOpen == old(isOpen) && isMinimized == old(isMinimized)
      ensures messages == old(messages) && isLoading == old(isLoading)
    {
      input := text;
    }

    /**
     * The synchronous part of `handleSend`: nothing happens when the input is blank or a
     * request is in flight; otherwise the input, untrimmed, becomes the user message, the
     * box is cleared and the request starts.
     */
    method HandleSend() returns (accepted: bool)
      requires Valid()
      modifies this
      ensures Valid()
      ensures accepted <==> !IsBlank(old(input)) && !old(isLoading)
      ensures accepted ==> && messages == old(messages) + [AssistantMessage(UserRole, old(input))]
                           && input == "" && isLoading
      ensures !accepted ==> messages == old(messages) && input == old(input) && isLoading == old(isLoading)
      ensures isOpen == old(isOpen) && isMinimized == old(isMinimized)
    {
      if IsBlank(input) || isLoading {
        return false;
      }
      NotBlankIsVisible(input);
      Ask();
      accepted := true;
    }

    /** The accepted send: the input becomes the user message, the box is cleared, the request starts. */
    method Ask()
      requires Valid() && !isLoading && Visible(input)
      modifies this
      ensures Valid()
      ensures messages == old(messages) + [AssistantMessage(UserRole, old(input))]
      ensures input == "" && isLoading
      ensures isOpen == old(isOpen) && isMinimized == old(isMinimized)
    {
      AskKeepsAlternation(messages, input);
      messages := messages + [AssistantMessage(UserRole, input)];
      input := "";
      isLoading := true;
    }

    /** The rest of `handleSend`: exactly one answer is appended and the request ends. */
    method CompleteSend(reply: Outcome<string>)
      requires Valid() && isLoading
      modifies this
      ensures Valid()
      ensures messages == old(messages) + [AssistantMessage(AssistantRole, ReplyContent(reply))]
      ensures !isLoading && input == old(input)
      ensures isOpen == old(isOpen) && isMinimized == old(isMinimized)
    {
      AnswerKeepsAlternation(messages, ReplyContent(reply));
      messages := messages + [AssistantMessage(AssistantRole, ReplyContent(reply))];
      isLoading := false;
    }

    /**
     * `handleKeyPress`: Enter without Shift calls `handleSend` with no loading test of its
     * own, so Enter during a request is stopped by the send guard.
     */
    method HandleKeyPress(key: string, shiftKey: bool) returns (accepted: bool)
      requires Valid()
      modifies this
      ensures Valid()
      ensures accepted <==> key == "Enter" && !shiftKey && !IsBlank(old(input)) && !old(isLoading)
      ensures !accepted ==> messages == old(messages) && input == old(input) && isLoading == old(isLoading)
      ensures accepted ==> messages == old(messages) + [AssistantMessage(UserRole, old(input))]
      ensures accepted ==> input == "" && isLoading
      ensures isOpen == old(isOpen) && isMinimized == old(isMinimized)
    {
      accepted := false;
      if key == "Enter" && !shiftKey {
        accepted := HandleSend();
      }
    }
  }
}
