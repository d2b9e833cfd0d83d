/** The client conversation controller (the `Home` page): committed history,
    the streaming buffer, the four transitions that act on them, the rule
    that decides when the history is sent upstream, and the rendered view.

    The transitions are first given as functions on a `ChatState` value, so
    that lemmas can relate several of them; the `Home` class holds the same
    state in fields and each of its methods is proved to perform the
    corresponding function. */
module Conversation {
  import opened Chat
  import opened MessageView
  import UserInput

  /** Committed history and the streaming buffer; `""` in the buffer is the
      sentinel for "no reply in flight". */
  datatype ChatState = ChatState(messages: seq<Message>, currentResponse: string)

  const TYPING_LABEL: string := "assistant is typing..."

  function Seed(): ChatState {
    ChatState(DEFAULT_MESSAGES, "")
  }

  // ---------------------------------------------------------------------
  // Transitions on values
  // ---------------------------------------------------------------------

  /** `onSubmit`: append a user message. */
  function Submitted(s: ChatState, content: string): ChatState {
    ChatState(s.messages + [Message(User, content)], s.currentResponse)
  }

  /** `prev.filter((_, i) => i !== index)`: keep every element whose position
      differs from `index`, walking from the front. */
  function Filtered(s: seq<Message>, index: int): seq<Message> {
    if s == [] then []
    else (if index == 0 then [] else [s[0]]) + Filtered(s[1..], index - 1)
  }

  function Deleted(s: ChatState, index: int): ChatState {
    ChatState(Filtered(s.messages, index), s.currentResponse)
  }

  /** The chunk handler: the delta is appended to the buffer; on the last
      chunk the whole buffer becomes an assistant message and the buffer is
      reset. */
  function Chunked(s: ChatState, delta: string, isLast: bool): ChatState {
    var response := s.currentResponse + delta;
    if isLast then ChatState(s.messages + [Message(Assistant, response)], "")
    else ChatState(s.messages, response)
  }

  /** Fragments handled one after the other, in arrival order. */
  function Feed(s: ChatState, fragments: seq<Fragment>): ChatState
    decreases |fragments|
  {
    if fragments == [] then s
    else Feed(Chunked(s, fragments[0].delta, fragments[0].isLast), fragments[1..])
  }

  /** The concatenation of the fragments' deltas, in order. */
  function Deltas(fragments: seq<Fragment>): string
    decreases |fragments|
  {
    if fragments == [] then "" else fragments[0].delta + Deltas(fragments[1..])
  }

  predicate NoFinal(fragments: seq<Fragment>) {
    forall i :: 0 <= i < |fragments| ==> !fragments[i].isLast
  }

  // ---------------------------------------------------------------------
  // Deletion
  // ---------------------------------------------------------------------

  /** The filter removes exactly the element at `index` and keeps the order
      of the rest; an index outside the list removes nothing. */
  lemma {:induction false} FilteredRemovesOnlyIndex(s: seq<Message>, index: int)
    ensures 0 <= index < |s| ==> Filtered(s, index) == s[..index] + s[index + 1..]
    ensures !(0 <= index < |s|) ==> Filtered(s, index) == s
  {
    if s != [] {
      FilteredRemovesOnlyIndex(s[1..], index - 1);
      if index == 0 {
        assert s[index + 1..] == s[1..];
      } else if 0 < index < |s| {
        assert s[..index] == [s[0]] + s[1..][..index - 1];
        assert s[index + 1..] == s[1..][index..];
      } else {
        assert s == [s[0]] + s[1..];
      }
    }
  }

  lemma DeletedLength(s: ChatState, index: int)
    ensures 0 <= index < |s.messages| ==> |Deleted(s, index).messages| == |s.messages| - 1
    ensures !(0 <= index < |s.messages|) ==> Deleted(s, index) == s
  {
    FilteredRemovesOnlyIndex(s.messages, index);
  }

  // ---------------------------------------------------------------------
  // Streaming
  // ---------------------------------------------------------------------

  /** Non-final fragments only grow the buffer by their deltas, in order,
      and leave the history alone. */
  lemma {:induction false} StreamingAccumulates(s: ChatState, fragments: seq<Fragment>)
    requires NoFinal(fragments)
    ensures Feed(s, fragments) == ChatState(s.messages, s.currentResponse + Deltas(fragments))
    decreases |fragments|
  {
    if fragments != [] {
      var next := Chunked(s, fragments[0].delta, false);
      assert NoFinal(fragments[1..]) by {
        forall i | 0 <= i < |fragments[1..]| ensures !fragments[1..][i].isLast {
          assert fragments[1..][i] == fragments[i + 1];
        }
      }
      StreamingAccumulates(next, fragments[1..]);
      assert next.currentResponse + Deltas(fragments[1..])
          == s.currentResponse + (fragments[0].delta + Deltas(fragments[1..]));
    }
  }

  /** The accumulation law: fragments d1..dn of which only dn is final commit
      exactly one assistant message whose content is the buffer followed by
      d1+...+dn, and leave the buffer empty. */
  lemma {:induction false} AccumulationLaw(s: ChatState, fragments: seq<Fragment>)
    requires |fragments| > 0 && fragments[|fragments| - 1].isLast
    requires NoFinal(fragments[..|fragments| - 1])
    ensures Feed(s, fragments)
         == ChatState(s.messages + [Message(Assistant, s.currentResponse + Deltas(fragments))], "")
    decreases |fragments|
  {
    var n := |fragments|;
    var next := Chunked(s, fragments[0].delta, fragments[0].isLast);
    var rest := fragments[1..];
    assert Feed(s, fragments) == Feed(next, rest);
    if n == 1 {
      assert rest == [] && fragments[0].isLast;
      assert Feed(next, rest) == next;
      assert Deltas(rest) == "";
      assert Deltas(fragments) == fragments[0].delta;
    } else {
      var pre := fragments[..n - 1];
      assert !pre[0].isLast;
      assert rest[..|rest| - 1] == pre[1..];
      assert NoFinal(pre[1..]) by {
        forall i | 0 <= i < |pre[1..]| ensures !pre[1..][i].isLast {
          assert pre[1..][i] == pre[i + 1];
        }
      }
      AccumulationLaw(next, rest);
      assert next.currentResponse + Deltas(rest)
          == s.currentResponse + (fragments[0].delta + Deltas(rest));
    }
  }

  /** From an idle client, the committed reply is exactly d1+...+dn. */
  lemma AccumulationFromIdle(s: ChatState, fragments: seq<Fragment>)
    requires s.currentResponse == ""
    requires |fragments| > 0 && fragments[|fragments| - 1].isLast
    requires NoFinal(fragments[..|fragments| - 1])
    ensures Feed(s, fragments).messages == s.messages + [Message(Assistant, Deltas(fragments))]
    ensures Feed(s, fragments).currentResponse == ""
  {
    AccumulationLaw(s, fragments);
    assert s.currentResponse + Deltas(fragments) == Deltas(fragments);
  }

  // ---------------------------------------------------------------------
  // Sending the history upstream
  // ---------------------------------------------------------------------

  /** The emit effect: with a socket, the history is sent exactly when its
      last message is the user's. */
  predicate ShouldEmit(hasSocket: bool, messages: seq<Message>) {
    hasSocket && |messages| > 0 && messages[|messages| - 1].role == User
  }

  /** What one run of the emit effect sends. */
  function Emission(hasSocket: bool, messages: seq<Message>): seq<seq<Message>> {
    if ShouldEmit(hasSocket, messages) then [messages] else []
  }

  /** A submission triggers a send whenever a socket exists; a committed
      reply never does; neither the seed nor an empty history does. */
  lemma EmitTriggers(s: ChatState, content: string, delta: string, hasSocket: bool)
    ensures ShouldEmit(hasSocket, Submitted(s, content).messages) <==> hasSocket
    ensures !ShouldEmit(hasSocket, Chunked(s, delta, true).messages)
    ensures !ShouldEmit(hasSocket, DEFAULT_MESSAGES)
    ensures !ShouldEmit(hasSocket, [])
  {
  }

  /** Deleting a trailing assistant reply that answered a user message makes
      the user message last again, so the history is sent once more. */
  lemma DeletingTrailingReplyEmits(s: ChatState)
    requires |s.messages| >= 2
    requires s.messages[|s.messages| - 1].role == Assistant
    requires s.messages[|s.messages| - 2].role == User
    ensures ShouldEmit(true, Deleted(s, |s.messages| - 1).messages)
  {
    var m := s.messages;
    FilteredRemovesOnlyIndex(m, |m| - 1);
    assert Deleted(s, |m| - 1).messages == m[..|m| - 1];
  }

  /** For the seed, deleting the example reply sends `[system, "Ping?"]`. */
  lemma DeletingSeedReplyEmits()
    ensures Deleted(Seed(), 2).messages == DEFAULT_MESSAGES[..2]
    ensures ShouldEmit(true, Deleted(Seed(), 2).messages)
  {
  }

  // ---------------------------------------------------------------------
  // The system prompt
  // ---------------------------------------------------------------------

  predicate StartsWithSystem(m: seq<Message>) {
    |m| > 0 && m[0].role == System
  }

  /** The leading system message survives every transition the page can
      perform: submissions, chunks, and deletions at any index but 0 (the
      view only offers indices from 1 on). */
  lemma SystemPromptKept(s: ChatState, content: string, delta: string, isLast: bool, index: int)
    requires StartsWithSystem(s.messages)
    requires index != 0
    ensures Submitted(s, content).messages[0] == s.messages[0]
    ensures Chunked(s, delta, isLast).messages[0] == s.messages[0]
    ensures Deleted(s, index).messages[0] == s.messages[0]
    ensures StartsWithSystem(Deleted(s, index).messages)
  {
  }

  // ---------------------------------------------------------------------
  // Rendering
  // ---------------------------------------------------------------------

  /** What the page renders: the system banner from the first message (if
      any), then the bubbles. */
  datatype Screen = Screen(banner: Option<Message>, rows: seq<MessageProps>)

  /** Committed messages after the first, each with its absolute index and a
      delete callback. */
  function CommittedRows(messages: seq<Message>): seq<MessageProps>
    requires |messages| > 0
  {
    seq(|messages| - 1, k requires 0 <= k < |messages| - 1 =>
      MessageProps(messages[k + 1], Some(k + 1), None, true))
  }

  /** The "typing" bubble: the buffer as an assistant message, labelled, with
      neither index nor delete callback. */
  function TypingRow(currentResponse: string): MessageProps {
    MessageProps(Message(Assistant, currentResponse), None, Some(TYPING_LABEL), false)
  }

  function View(s: ChatState): Screen {
    Screen(
      if |s.messages| > 0 then Some(s.messages[0]) else None,
      if |s.messages| > 1 then
        CommittedRows(s.messages) + (if s.currentResponse != "" then [TypingRow(s.currentResponse)] else [])
      else [])
  }

  /** The input is disabled exactly while a reply is in flight. */
  predicate InputDisabled(s: ChatState) {
    s.currentResponse != ""
  }

  /** The shape of the view: one deletable bubble per committed message after
      the first, in order, plus the typing bubble exactly when a reply is in
      flight and there is more than the system message. */
  lemma ViewRows(s: ChatState)
    ensures View(s).banner == (if |s.messages| > 0 then Some(s.messages[0]) else None)
    ensures |s.messages| <= 1 ==> View(s).rows == []
    ensures |s.messages| > 1 ==>
      |View(s).rows| == |s.messages| - 1 + (if s.currentResponse != "" then 1 else 0)
    ensures forall k :: 0 <= k < |s.messages| - 1 ==>
      View(s).rows[k].message == s.messages[k + 1] &&
      DeleteClick(View(s).rows[k]) == Some(k + 1) &&
      (IsAssistant(View(s).rows[k].message) <==> s.messages[k + 1].role == Assistant)
    ensures s.currentResponse != "" && |s.messages| > 1 ==>
      var typing := View(s).rows[|s.messages| - 1];
      typing.message == Message(Assistant, s.currentResponse) && IsAssistant(typing.message) &&
      !ShowDelete(typing) && Caption(typing) == TYPING_LABEL
  {
  }

  /** Clicking the delete control of the k-th bubble removes exactly the
      message that bubble shows, and never the system message. */
  lemma DeleteFromView(s: ChatState, k: int)
    requires 0 <= k < |s.messages| - 1
    ensures DeleteClick(View(s).rows[k]).Some?
    ensures var t := Deleted(s, DeleteClick(View(s).rows[k]).value);
      t.messages == s.messages[..k + 1] + s.messages[k + 2..] &&
      t.messages[0] == s.messages[0] &&
      t.currentResponse == s.currentResponse
  {
    ViewRows(s);
    FilteredRemovesOnlyIndex(s.messages, k + 1);
  }

  /** The send control of the input box is enabled exactly when the typed
      text is non-empty and no reply is in flight. */
  lemma SubmitEnabledWhenIdle(s: ChatState, input: string)
    ensures !UserInput.SubmitDisabled(InputDisabled(s), input)
        <==> input != "" && s.currentResponse == ""
  {
  }

  // ---------------------------------------------------------------------
  // The page as an object
  // ---------------------------------------------------------------------

  class Home {
    var messages: seq<Message>
    var currentResponse: string
    /** Whether the `socket` state is set (non-null); the client library
        buffers emits until the connection is up. */
    var hasSocket: bool
    /** Every history sent upstream on "user-message", in order. */
    var emitted: seq<seq<Message>>

    function State(): ChatState
      reads this
    {
      ChatState(messages, currentResponse)
    }

    constructor()
      ensures State() == Seed() && !hasSocket && emitted == []
    {
      messages := DEFAULT_MESSAGES;
      currentResponse := "";
      hasSocket := false;
      emitted := [];
    }

    /** The init effect's `setSocket(io())`. The effect has no dependencies,
        so it runs once, on mount; its `!socket` test reads the first
        render's socket, which is always unset. Setting the socket does not
        run the emit effect. */
    method ConnectSocket()
      modifies this
      ensures hasSocket
      ensures State() == old(State()) && emitted == old(emitted)
    {
      hasSocket := true;
    }

    /** The emit effect, run after every change of `messages`. */
    method EmitEffect()
      modifies this`emitted
      ensures emitted == old(emitted) + Emission(hasSocket, messages)
    {
      if ShouldEmit(hasSocket, messages) {
        emitted := emitted + [messages];
      }
    }

    /** Submit: exactly one user message is appended, and (with a socket) the
        whole new history is sent once. */
    method Submit(content: string)
      modifies this
      ensures State() == Submitted(old(State()), content)
      ensures messages == old(messages) + [Message(User, content)]
      ensures hasSocket == old(hasSocket)
      ensures emitted == old(emitted) + (if hasSocket then [messages] else [])
    {
      messages := messages + [Message(User, content)];
      EmitEffect();
    }

    /** Delete: removes exactly the message at absolute position `index`, or
        nothing when there is none; the emit effect then runs on the result. */
    method Delete(index: int)
      modifies this
      ensures State() == Deleted(old(State()), index)
      ensures 0 <= index < |old(messages)| ==>
        messages == old(messages)[..index] + old(messages)[index + 1..]
      ensures !(0 <= index < |old(messages)|) ==> messages == old(messages)
      ensures currentResponse == old(currentResponse) && hasSocket == old(hasSocket)
      ensures emitted == old(emitted) + Emission(hasSocket, messages)
    {
      FilteredRemovesOnlyIndex(messages, index);
      messages := Filtered(messages, index);
      EmitEffect();
    }

    /** The "completion-chunk" handler: a non-final chunk grows the buffer; a
        final one commits buffer + delta (even when empty) as one assistant
        message and resets the buffer. Neither ever sends the history. */
    method OnChunk(delta: string, isLast: bool)
      modifies this
      ensures State() == Chunked(old(State()), delta, isLast)
      ensures !isLast ==>
        messages == old(messages) && currentResponse == old(currentResponse) + delta
      ensures isLast ==>
        messages == old(messages) + [Message(Assistant, old(currentResponse) + delta)] &&
        currentResponse == ""
      ensures hasSocket == old(hasSocket) && emitted == old(emitted)
    {
      var newResponse := currentResponse + delta;
      if isLast {
        messages := messages + [Message(Assistant, newResponse)];
        EmitEffect();
        currentResponse := "";
      } else {
        currentResponse := newResponse;
      }
    }

    /** A press of the send control of the input box the page renders with
        `isDisabled = currentResponse != ""`: when the control is enabled the
        typed text is submitted and the box cleared; otherwise nothing
        happens. */
    method Send(input: UserInput.UserMessage) returns (sent: bool)
      requires input.isDisabled == InputDisabled(State())
      modifies this, input
      ensures sent <==> old(input.currentInputMessage) != "" && old(currentResponse) == ""
      ensures sent ==>
        State() == Submitted(old(State()), old(input.currentInputMessage)) &&
        emitted == old(emitted) + (if hasSocket then [messages] else []) &&
        input.currentInputMessage == ""
      ensures !sent ==>
        State() == old(State()) && emitted == old(emitted) &&
        input.currentInputMessage == old(input.currentInputMessage)
      ensures hasSocket == old(hasSocket) && input.isDisabled == old(input.isDisabled)
    {
      sent := input.CanSubmit();
      if sent {
        var content := input.HandleSubmit();
        Submit(content);
      }
    }
  }

  /** The emit effect depends on `messages` only: a message submitted before
      the socket is set up is last once the socket exists, yet it is not sent
      when the socket comes up, because setting the socket does not run the
      effect again. */
  method EarlySubmissionNotSentOnConnect(content: string) returns (home: Home)
    ensures home.hasSocket
    ensures home.messages == DEFAULT_MESSAGES + [Message(User, content)]
    ensures ShouldEmit(home.hasSocket, home.messages)
    ensures home.emitted == []
  {
    home := new Home();
    home.Submit(content);
    home.ConnectSocket();
  }

  /** The early message goes upstream only with the next change of
      `messages` that leaves a user message last, such as the next submit,
      and then as part of that history. */
  method EarlySubmissionSentWithNext(early: string, next: string) returns (home: Home)
    ensures home.hasSocket
    ensures home.messages == DEFAULT_MESSAGES + [Message(User, early), Message(User, next)]
    ensures home.emitted == [home.messages]
  {
    home := new Home();
    home.Submit(early);
    home.ConnectSocket();
    home.Submit(next);
  }
}
