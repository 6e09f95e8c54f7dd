/** The AI-teacher chat widget: the message input, the send button's
    enabled state, the transcript shown in the chat container, the typing
    indicator, and the replies that are still on their way. */
module Chat {
  import opened Text
  import opened Responder

  datatype Sender = User | Ai

  /** One bubble of the chat container: its text and who wrote it. */
  datatype ChatMessage = ChatMessage(text: string, sender: Sender)

  /** How many messages of `t` were written by `who`. */
  function Count(t: seq<ChatMessage>, who: Sender): (n: nat)
    ensures n <= |t|
    ensures n == 0 <==> forall k :: 0 <= k < |t| ==> t[k].sender != who
  {
    if |t| == 0 then 0
    else Count(t[..|t| - 1], who) + (if t[|t| - 1].sender == who then 1 else 0)
  }

  /** Appending a message adds one to its sender's count and leaves the other
      count alone. */
  lemma {:induction false} CountAppend(t: seq<ChatMessage>, m: ChatMessage, who: Sender)
    ensures Count(t + [m], who) == Count(t, who) + (if m.sender == who then 1 else 0)
  {
    assert (t + [m])[..|t|] == t;
  }

  /** The text a user may send: the input with surrounding whitespace removed. */
  function Outgoing(input: string): (message: string)
    ensures IsTrimmed(message)
    ensures |message| <= |input|
  {
    TrimIsInnerSlice(input);
    Trim(input)
  }

  /** Nothing is sent exactly when the input is whitespace only. */
  lemma OutgoingEmptyIff(input: string)
    ensures Outgoing(input) == [] <==> forall k :: 0 <= k < |input| ==> IsWhitespace(input[k])
  {
    TrimEmptyIff(input);
  }

  /** Every question the user posted is non-empty and trimmed, and every one
      of them has been answered or is still pending. */
  predicate Consistent(transcript: seq<ChatMessage>, pending: seq<string>) {
    (forall k :: 0 <= k < |transcript| && transcript[k].sender == User ==>
       transcript[k].text != [] && IsTrimmed(transcript[k].text))
    && (forall k :: 0 <= k < |pending| ==> pending[k] != [] && IsTrimmed(pending[k]))
    && Count(transcript, User) == Count(transcript, Ai) + |pending|
  }

  /** Posting a non-blank question and scheduling its reply keeps the
      conversation consistent. */
  lemma ConsistentAfterSend(transcript: seq<ChatMessage>, pending: seq<string>, message: string)
    requires Consistent(transcript, pending) && message != [] && IsTrimmed(message)
    ensures Consistent(transcript + [ChatMessage(message, User)], pending + [message])
  {
    CountAppend(transcript, ChatMessage(message, User), User);
    CountAppend(transcript, ChatMessage(message, User), Ai);
  }

  /** Posting the reply to pending question `k` and dropping it from the
      pending ones keeps the conversation consistent. */
  lemma ConsistentAfterReply(transcript: seq<ChatMessage>, pending: seq<string>, k: nat, reply: string)
    requires Consistent(transcript, pending) && k < |pending|
    ensures Consistent(transcript + [ChatMessage(reply, Ai)], pending[..k] + pending[k + 1..])
  {
    CountAppend(transcript, ChatMessage(reply, Ai), User);
    CountAppend(transcript, ChatMessage(reply, Ai), Ai);
    var rest := pending[..k] + pending[k + 1..];
    forall j | 0 <= j < |rest| ensures rest[j] != [] && IsTrimmed(rest[j]) {
      if j < k {
        assert rest[j] == pending[j];
      } else {
        assert rest[j] == pending[j + 1];
      }
    }
  }

  /** The state of the widget. `pending` holds the questions whose reply
      timer has not fired yet, in the order they were sent; the timers have
      different random delays, so they may fire in any order. */
  class ChatSession {
    const table: seq<Entry>
    const defaults: seq<string>
    var transcript: seq<ChatMessage>
    var input: string
    var sendDisabled: bool
    var typingShown: bool
    var pending: seq<string>

    /** The send button is disabled exactly when the input holds nothing but
        whitespace, that is exactly when sending would post nothing. */
    predicate GateInSync()
      reads this
    {
      sendDisabled == (Outgoing(input) == [])
    }

    /** The table can answer every question and the conversation is
        consistent. */
    ghost predicate Valid()
      reads this
    {
      WellFormed(table) && 0 < |defaults| && Consistent(transcript, pending)
    }

    /** `initAITeacher`: a disabled send button. The chat container and the
        input are taken to start empty. The widget answers from `Table` and
        `DefaultReplies`, which `BuiltInTable` shows to be acceptable here. */
    constructor (table: seq<Entry>, defaults: seq<string>)
      requires WellFormed(table) && 0 < |defaults|
      ensures Valid() && GateInSync()
      ensures this.table == table && this.defaults == defaults
      ensures transcript == [] && input == [] && sendDisabled && !typingShown && pending == []
    {
      this.table := table;
      this.defaults := defaults;
      transcript := [];
      input := [];
      sendDisabled := true;
      typingShown := false;
      pending := [];
    }

    /** The input's `input` event: store the new value and disable the send
        button when it is blank. */
    method OnInput(value: string)
      requires Valid()
      modifies this
      ensures Valid()
      ensures GateInSync()
      ensures input == value && sendDisabled == (Outgoing(value) == [])
      ensures transcript == old(transcript) && pending == old(pending) && typingShown == old(typingShown)
    {
      input := value;
      sendDisabled := Outgoing(value) == [];
    }

    /** `askQuickQuestion`: put a prepared question in the input and enable
        the send button, whatever the question. */
    method AskQuickQuestion(question: string)
      requires Valid()
      modifies this
      ensures Valid()
      ensures input == question && !sendDisabled
      ensures Outgoing(question) != [] ==> GateInSync()
      ensures transcript == old(transcript) && pending == old(pending) && typingShown == old(typingShown)
    {
      input := question;
      sendDisabled := false;
    }

    /** `sendMessage`: a blank input is ignored; otherwise the trimmed text is
        posted as a user message, the input is cleared, the send button is
        disabled, the typing indicator is shown and the reply is scheduled. */
    method SendMessage()
      requires Valid()
      modifies this
      ensures Valid()
      ensures Outgoing(old(input)) == [] ==>
        transcript == old(transcript) && input == old(input) && sendDisabled == old(sendDisabled)
        && typingShown == old(typingShown) && pending == old(pending)
      ensures Outgoing(old(input)) != [] ==>
        transcript == old(transcript) + [ChatMessage(Outgoing(old(input)), User)]
        && input == [] && sendDisabled && typingShown
        && pending == old(pending) + [Outgoing(old(input))]
      ensures old(GateInSync()) ==> GateInSync()
    {
      var message := Outgoing(input);
      if message == [] {
        return;
      }
      ConsistentAfterSend(transcript, pending, message);
      transcript := transcript + [ChatMessage(message, User)];
      input := [];
      sendDisabled := true;
      typingShown := true;
      pending := pending + [message];
    }

    /** A click on the send button; a disabled button fires no click. */
    method ClickSend()
      requires Valid()
      modifies this
      ensures Valid()
      ensures old(sendDisabled) || Outgoing(old(input)) == [] ==>
        transcript == old(transcript) && input == old(input) && sendDisabled == old(sendDisabled)
        && typingShown == old(typingShown) && pending == old(pending)
      ensures !old(sendDisabled) && Outgoing(old(input)) != [] ==>
        transcript == old(transcript) + [ChatMessage(Outgoing(old(input)), User)]
        && input == [] && sendDisabled && typingShown
        && pending == old(pending) + [Outgoing(old(input))]
      ensures old(GateInSync()) ==> GateInSync()
    {
      if !sendDisabled {
        SendMessage();
      }
    }

    /** A key press in the input: Enter without Shift sends, whether or not
        the button is enabled; any other key changes nothing here. */
    method KeyPress(key: string, shiftKey: bool)
      requires Valid()
      modifies this
      ensures Valid()
      ensures !(key == "Enter" && !shiftKey) || Outgoing(old(input)) == [] ==>
        transcript == old(transcript) && input == old(input) && sendDisabled == old(sendDisabled)
        && typingShown == old(typingShown) && pending == old(pending)
      ensures key == "Enter" && !shiftKey && Outgoing(old(input)) != [] ==>
        transcript == old(transcript) + [ChatMessage(Outgoing(old(input)), User)]
        && input == [] && sendDisabled && typingShown
        && pending == old(pending) + [Outgoing(old(input))]
      ensures old(GateInSync()) ==> GateInSync()
    {
      if key == "Enter" && !shiftKey {
        SendMessage();
      }
    }

    /** The reply timer of pending question `k` fires, with `r` the value the
        random source yields: the indicator is hidden and the reply chosen
        for that question is posted as an AI message. */
    method DeliverReply(k: nat, r: real)
      requires Valid() && k < |pending| && 0.0 <= r < 1.0
      modifies this
      ensures Valid()
      ensures transcript == old(transcript) + [ChatMessage(Reply(table, defaults, old(pending)[k], r), Ai)]
      ensures transcript[|transcript| - 1].text in Candidates(table, defaults, old(pending)[k])
      ensures pending == old(pending)[..k] + old(pending)[k + 1..]
      ensures input == old(input) && sendDisabled == old(sendDisabled) && !typingShown
    {
      var question := pending[k];
      var reply := GenerateAIResponse(table, defaults, question, r);
      ConsistentAfterReply(transcript, pending, k, reply);
      typingShown := false;
      transcript := transcript + [ChatMessage(reply, Ai)];
      pending := pending[..k] + pending[k + 1..];
    }
  }
}
