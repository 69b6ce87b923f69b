/**
 * The conversation panel (Frontend/Components/chat/ChatInterface.tsx): the message list,
 * the input box and the typing flag, changed step by step by the submit, regenerate and
 * clear handlers. Each asynchronous handler is a start step and a completion step; what
 * the gateway answered is an input of the completion step.
 */
module ChatInterface {
  import opened Wrappers
  import opened Text
  import opened ChatService
  import opened Keyed
  import LlmService

  const DefaultGreeting: string := "Hi! Ask me about this video."
  const Greeting: Message := Message("greeting", DefaultGreeting, false, None)
  const RegenerateErrorText: string :=
    "I'm sorry, I encountered an error regenerating the response. Please try again."

  const PromptHead: string :=
    "You are a helpful assistant that answers questions about a YouTube video based ONLY on its transcript. \n"
    + "        \nVIDEO TRANSCRIPT:\n"
  const Instructions: string :=
    "INSTRUCTIONS:\n- Answer the question based ONLY on the information in the transcript above\n"
    + "- If the answer is not in the transcript, say \"I couldn't find that information in the video transcript\"\n"
    + "- Be concise but thorough\n- Use a friendly, conversational tone\n"
  const SubmitRuleTail: string := "- If relevant, mention timestamps or sections of the video"
  const RegenerateRuleTail: string := "- Provide a slightly different perspective or more detail than before"

  /** The prompt text ahead of the question marker. */
  function PromptBefore(transcript: string): string {
    PromptHead + transcript + "\n\n"
  }

  /** The prompt text after the question; `tail` is the last instruction line, which differs between the handlers. */
  function PromptAfter(tail: string): (r: string)
    ensures r != [] && r[0] == '\n'
  {
    var gap := "\n\n";
    assert gap[0] == '\n';
    gap + (Instructions + tail)
  }

  /** The prompt both handlers send. */
  function Prompt(transcript: string, question: string, tail: string): string {
    PromptBefore(transcript) + LlmService.QuestionMarker + " " + question + PromptAfter(tail)
  }

  /** The text `handleSubmit` sends: the input without its surrounding whitespace. */
  function SubmittedText(input: string): string {
    Trim(input, IsJsSpace)
  }

  /** The prompt `handleSubmit` sends. */
  function SubmitPrompt(transcript: string, question: string): string {
    Prompt(transcript, question, SubmitRuleTail)
  }

  /** The prompt `handleRegenerate` sends. */
  function RegeneratePrompt(transcript: string, question: string): string {
    Prompt(transcript, question, RegenerateRuleTail)
  }

  /**
   * Whatever the transcript, as long as the text ahead of the question holds no marker,
   * the question the gateway extracts from a prompt is the one the user typed.
   */
  lemma PromptCarriesQuestion(transcript: string, question: string, tail: string)
    requires forall i: nat :: !OccursAt(PromptBefore(transcript), i, LlmService.QuestionMarker)
    requires question != [] && IsTrimmed(question, IsJsSpace) && '\n' !in question
    ensures LlmService.ExtractQuestion(Prompt(transcript, question, tail)) == question
  {
    LlmService.QuestionRoundTrip(PromptBefore(transcript), question, PromptAfter(tail));
  }

  /** The list shown first: the given messages when there are some, else the greeting alone. */
  function InitialMessages(initial: Option<seq<Message>>): (r: seq<Message>)
    ensures r != []
    ensures initial.Some? && initial.value != [] ==> r == initial.value
    ensures initial.None? || initial.value == [] ==> r == [Greeting]
  {
    if initial.Some? && initial.value != [] then initial.value else [Greeting]
  }

  /** The text of the reply appended when answering a question failed with `message`. */
  function SubmitErrorText(message: string): string {
    "Error: " + message + ". Please make sure the backend server is running."
  }

  /** The key the panel's `findIndex` and `filter` compare: the message id. */
  function MessageId(m: Message): string {
    m.id
  }

  /** The first user message at index `from` or later whose text is `q` (`from` may be -1). */
  function QuestionIndex(ms: seq<Message>, from: int, q: string): (r: Option<nat>)
    decreases |ms| - from
    ensures r.Some? ==> from <= r.value < |ms| && ms[r.value].isUser && ms[r.value].text == q
    ensures r.Some? ==> forall j :: from <= j < r.value && 0 <= j ==> !(ms[j].isUser && ms[j].text == q)
    ensures r.None? ==> forall j :: from <= j < |ms| && 0 <= j ==> !(ms[j].isUser && ms[j].text == q)
  {
    if from >= |ms| then None
    else if from >= 0 && ms[from].isUser && ms[from].text == q then Some(from)
    else QuestionIndex(ms, from + 1, q)
  }

  /** Where the regenerated reply goes: right after the matching question, else at the end. */
  function InsertAnswer(ms: seq<Message>, from: int, q: string, reply: Message): seq<Message> {
    match QuestionIndex(ms, from, q)
    case Some(i) => ms[..i + 1] + [reply] + ms[i + 1..]
    case None => ms + [reply]
  }

  /** Inserting adds exactly the reply: removing it again gives the list back. */
  lemma InsertAnswerAddsOne(ms: seq<Message>, from: int, q: string, reply: Message)
    ensures var r := InsertAnswer(ms, from, q, reply);
            |r| == |ms| + 1 && multiset(r) == multiset(ms) + multiset{reply}
    ensures var r := InsertAnswer(ms, from, q, reply);
            match QuestionIndex(ms, from, q)
            case Some(i) => r[i + 1] == reply && r[..i + 1] + r[i + 2..] == ms
            case None => r[|ms|] == reply && r[..|ms|] == ms
  {
    match QuestionIndex(ms, from, q)
    case Some(i) =>
      var r := InsertAnswer(ms, from, q, reply);
      assert ms == ms[..i + 1] + ms[i + 1..];
      assert r[..i + 1] == ms[..i + 1] && r[i + 2..] == ms[i + 1..];
    case None =>
  }

  /**
   * The usual case of regeneration: the reply at `k` answers the user message just before it
   * and its id is unique. Then the new reply takes exactly the old reply's place.
   */
  lemma RegenerateReplacesReply(ms: seq<Message>, k: nat, reply: Message)
    requires 0 < k < |ms|
    requires forall j :: 0 <= j < |ms| && j != k ==> ms[j].id != ms[k].id
    requires ms[k].userQuestion.Some?
    requires ms[k - 1].isUser && ms[k - 1].text == ms[k].userQuestion.value
    ensures InsertAnswer(WithoutKey(ms, MessageId, ms[k].id), k - 1, ms[k].userQuestion.value, reply)
         == ms[..k] + [reply] + ms[k + 1..]
  {
    var rest := WithoutKey(ms, MessageId, ms[k].id);
    WithoutKeySplit(ms, MessageId, k);
    assert rest[k - 1] == ms[k - 1];
    assert QuestionIndex(rest, k - 1, ms[k].userQuestion.value) == Some(k - 1);
    assert rest[..k] == ms[..k] && rest[k..] == ms[k + 1..];
  }

  /** Regeneration is offered on the last message only, when it is a reply that names its question. */
  predicate CanRegenerateAt(ms: seq<Message>, index: int) {
    0 <= index < |ms| && !ms[index].isUser && Truthy(ms[index].userQuestion) && index == |ms| - 1
  }

  /** After a successful submit the new reply, the last message, can be regenerated; an error reply cannot. */
  lemma RegenerateOfferedAfterAnswer(before: seq<Message>, user: Message, reply: Message, failed: Message)
    requires user.text != ""
    requires !reply.isUser && reply.userQuestion == Some(user.text)
    requires failed.userQuestion.None?
    ensures CanRegenerateAt(before + [user, reply], |before| + 1)
    ensures forall i :: !CanRegenerateAt(before + [user, reply], i) || i == |before| + 1
    ensures forall i :: !CanRegenerateAt(before + [failed], i)
  {
  }

  /** A started submit: the list it started from, the user message it added and the prompt it sends. */
  datatype PendingSubmit = PendingSubmit(before: seq<Message>, user: Message, prompt: string)

  /** A started regeneration: the index the reply had and the question it answered. */
  datatype PendingRegenerate = PendingRegenerate(messageIndex: nat, question: string, prompt: string)

  class ChatPanel {
    var messages: seq<Message>
    var input: string
    var isTyping: bool
    /** The component's `transcript` prop. */
    const transcript: string

    constructor (transcript: string, initial: Option<seq<Message>>)
      ensures this.transcript == transcript
      ensures messages == InitialMessages(initial) && input == "" && !isTyping
    {
      this.transcript := transcript;
      messages := InitialMessages(initial);
      input := "";
      isTyping := false;
    }

    /** The `initialMessages` effect: resets the list and reports it to `onMessagesChange`. */
    method SyncInitialMessages(initial: Option<seq<Message>>) returns (notified: seq<Message>)
      modifies this`messages
      ensures messages == InitialMessages(initial) && notified == messages
    {
      messages := InitialMessages(initial);
      notified := messages;
    }

    /** Typing into the input box. */
    method SetInput(text: string)
      modifies this`input
      ensures input == text
    {
      input := text;
    }

    /**
     * The synchronous part of `handleSubmit`: nothing happens for a blank input or while a
     * reply is pending; otherwise the trimmed text is appended as a user message, the
     * input is cleared and the panel starts waiting, before the request goes out.
     */
    method SubmitStart(userId: string) returns (pending: Option<PendingSubmit>, notified: Option<seq<Message>>)
      modifies this`messages, this`input, this`isTyping
      ensures SubmittedText(old(input)) == "" || old(isTyping) ==>
                pending.None? && notified.None? && messages == old(messages)
                && input == old(input) && isTyping == old(isTyping)
      ensures SubmittedText(old(input)) != "" && !old(isTyping) ==>
                var user := Message(userId, SubmittedText(old(input)), true, None);
                pending == Some(PendingSubmit(old(messages), user, SubmitPrompt(transcript, user.text)))
                && messages == old(messages) + [user] && notified == Some(messages)
                && input == "" && isTyping
    {
      var text := SubmittedText(input);
      if text == "" || isTyping {
        pending, notified := None, None;
      } else {
        var user := Message(userId, text, true, None);
        var prompt := SubmitPrompt(transcript, text);
        pending := Some(PendingSubmit(messages, user, prompt));
        messages := messages + [user];
        input := "";
        isTyping := true;
        notified := Some(messages);
      }
    }

    /**
     * The settlement of `handleSubmit`: an answer replaces the list by the list the submit
     * started from plus the question and the reply, and reports it; an error appends one
     * error reply to the current list without reporting it. Either way the wait ends.
     */
    method SubmitComplete(pending: PendingSubmit, answer: Result<string, string>, replyId: string)
      returns (notified: Option<seq<Message>>)
      modifies this`messages, this`isTyping
      ensures !isTyping
      ensures answer.Success? ==>
                messages == pending.before + [pending.user,
                  Message(replyId, answer.value, false, Some(pending.user.text))]
                && notified == Some(messages)
      ensures answer.Failure? ==>
                messages == old(messages) + [Message(replyId, SubmitErrorText(answer.error), false, None)]
                && notified.None?
    {
      if answer.Success? {
        var reply := Message(replyId, answer.value, false, Some(pending.user.text));
        messages := pending.before + [pending.user, reply];
        notified := Some(messages);
      } else {
        messages := messages + [Message(replyId, SubmitErrorText(answer.error), false, None)];
        notified := None;
      }
      isTyping := false;
    }

    /**
     * The synchronous part of `handleRegenerate`: nothing happens for an unknown id or a
     * message without a question; otherwise every message with that id is removed and the
     * panel starts waiting.
     */
    method RegenerateStart(messageId: string) returns (pending: Option<PendingRegenerate>)
      modifies this`messages, this`isTyping
      ensures var idx := FirstWithKey(old(messages), MessageId, messageId);
              idx.None? || !Truthy(old(messages)[idx.value].userQuestion) ==>
                pending.None? && messages == old(messages) && isTyping == old(isTyping)
      ensures var idx := FirstWithKey(old(messages), MessageId, messageId);
              idx.Some? && Truthy(old(messages)[idx.value].userQuestion) ==>
                var q := old(messages)[idx.value].userQuestion.value;
                pending == Some(PendingRegenerate(idx.value, q, RegeneratePrompt(transcript, q)))
                && messages == WithoutKey(old(messages), MessageId, messageId) && isTyping
    {
      var idx := FirstWithKey(messages, MessageId, messageId);
      if idx.None? || !Truthy(messages[idx.value].userQuestion) {
        pending := None;
        return;
      }
      var q := messages[idx.value].userQuestion.value;
      pending := Some(PendingRegenerate(idx.value, q, RegeneratePrompt(transcript, q)));
      messages := WithoutKey(messages, MessageId, messageId);
      isTyping := true;
    }

    /**
     * The settlement of `handleRegenerate`: an answer is inserted after the matching question
     * of the current list; an error appends the fixed apology. Neither is reported.
     */
    method RegenerateComplete(pending: PendingRegenerate, answer: Result<string, string>, replyId: string)
      modifies this`messages, this`isTyping
      ensures !isTyping
      ensures answer.Success? ==>
                messages == InsertAnswer(old(messages), pending.messageIndex - 1, pending.question,
                  Message(replyId, answer.value, false, Some(pending.question)))
      ensures answer.Failure? ==>
                messages == old(messages) + [Message(replyId, RegenerateErrorText, false, None)]
    {
      if answer.Success? {
        var reply := Message(replyId, answer.value, false, Some(pending.question));
        messages := InsertAnswer(messages, pending.messageIndex - 1, pending.question, reply);
      } else {
        messages := messages + [Message(replyId, RegenerateErrorText, false, None)];
      }
      isTyping := false;
    }

    /** `clearConversation`: back to the greeting alone, reported to `onMessagesChange`. */
    method ClearConversation() returns (notified: seq<Message>)
      modifies this`messages
      ensures messages == [Greeting] && notified == messages
    {
      messages := [Greeting];
      notified := messages;
    }

    /** The `canRegenerate` flag of the message shown at `index`. */
    function CanRegenerate(index: int): bool
      reads this
    {
      CanRegenerateAt(messages, index)
    }
  }
}
