/** One chat session: an append-only history of role-tagged messages, and the
    handling of one user turn. The engine sees the history, may ask for tools,
    the tools' answers are added, the engine is asked once more, and its second
    reply closes the turn. */
module Conversation {
  import opened PyRuntime
  import opened PyStrings
  import opened Cloud
  import opened Lookups
  import opened Registry

  /** The role tag of a history entry. */
  datatype Role = System | Human | Ai | Tool {
    /** The tag as the history stores it. */
    function Name(): string {
      match this
      case System => "system"
      case Human => "human"
      case Ai => "ai"
      case Tool => "tool"
    }
  }

  /** What the engine answers: its text and the tool calls it asks for. */
  datatype Reply = Reply(content: string, toolCalls: seq<ToolCall>)

  /** The message object an entry carries, the thing handed to the engine. */
  datatype Content =
    | SystemText(text: string)
    | HumanText(text: string)
    | AiReply(reply: Reply)
    | ToolReply(message: ToolMessage)

  /** `{"role": ..., "content": ...}` */
  datatype Message = Message(role: Role, content: Content)

  /** The language model, given everything said so far. */
  type Engine = seq<Content> -> Reply

  /** The contents of a history, in order: what the engine is given. */
  function Contents(history: seq<Message>): seq<Content> {
    seq(|history|, i requires 0 <= i < |history| => history[i].content)
  }

  lemma ContentsAppend(a: seq<Message>, b: seq<Message>)
    ensures Contents(a + b) == Contents(a) + Contents(b)
  {
  }

  /** The history entries for a run of tool answers. */
  function ToolEntries(replies: seq<ToolMessage>): seq<Message> {
    seq(|replies|, i requires 0 <= i < |replies| => Message(Tool, ToolReply(replies[i])))
  }

  lemma ToolEntriesAppend(replies: seq<ToolMessage>, reply: ToolMessage)
    ensures ToolEntries(replies + [reply]) == ToolEntries(replies) + [Message(Tool, ToolReply(reply))]
  {
  }

  // ---------------------------------------------------------------------------
  // The issues summary

  const ParagraphBreak: string := "\n\n"

  /** `content.split("\n\n")[1]`, or None where that raises IndexError. */
  function Issues(content: string): Option<string> {
    var parts := Split(content, ParagraphBreak);
    if |parts| >= 2 then Some(parts[1]) else None
  }

  /** There is a summary exactly when the reply contains a blank line; it is the
      text after the first blank line up to the second one, or to the end when
      there is no second one. */
  lemma IssuesBetweenBreaks(content: string)
    ensures Issues(content).None? <==> !Contains(content, ParagraphBreak)
    ensures Issues(content).Some? ==>
      var rest := content[Find(content, ParagraphBreak).value + |ParagraphBreak|..];
      Issues(content).value == match Find(rest, ParagraphBreak)
                               case Some(j) => rest[..j]
                               case None => rest
  {
    SplitFirst(content, ParagraphBreak);
    if Find(content, ParagraphBreak).Some? {
      var rest := content[Find(content, ParagraphBreak).value + |ParagraphBreak|..];
      SplitFirst(rest, ParagraphBreak);
    }
  }

  /** The summary never contains a blank line itself. */
  lemma IssuesHaveNoBreak(content: string)
    requires Issues(content).Some?
    ensures !Contains(Issues(content).value, ParagraphBreak)
  {
    SplitPartsFree(content, ParagraphBreak);
  }

  // ---------------------------------------------------------------------------
  // One turn, as a function of the history before it

  /** How a turn ends: no input, the engine's final reply with the summary taken
      from it, or a fault that escaped a tool call. */
  datatype TurnOutcome = NoInput | Completed(issues: Option<string>, answer: Reply) | Aborted(fault: Fault)

  datatype TurnResult = TurnResult(history: seq<Message>, outcome: TurnOutcome)

  /** Whether the chat input holds text: `None` and `""` are both false. */
  predicate Submitted(input: Option<string>) {
    input.Some? && input.value != ""
  }

  function HumanEntry(prompt: string): Message {
    Message(Human, HumanText(prompt))
  }

  /** The engine's first reply: to the history with the user's message added. */
  function FirstReply(engine: Engine, history: seq<Message>, prompt: string): Reply {
    engine(Contents(history + [HumanEntry(prompt)]))
  }

  /** The history after the first reply and the answers to its tool calls. */
  function AfterTools(account: Account, engine: Engine, history: seq<Message>, prompt: string): seq<Message> {
    var first := FirstReply(engine, history, prompt);
    history + [HumanEntry(prompt), Message(Ai, AiReply(first))] +
      ToolEntries(Dispatch(account, first.toolCalls).replies)
  }

  /** A turn: the new history and how the turn ended. */
  function Turn(account: Account, engine: Engine, history: seq<Message>, input: Option<string>): TurnResult {
    if !Submitted(input) then TurnResult(history, NoInput)
    else
      var prompt := input.value;
      var first := FirstReply(engine, history, prompt);
      var dispatched := Dispatch(account, first.toolCalls);
      var answered := AfterTools(account, engine, history, prompt);
      match dispatched.fault
      case Some(f) => TurnResult(answered, Aborted(f))
      case None =>
        var second := engine(Contents(answered));
        TurnResult(answered + [Message(Ai, AiReply(second))], Completed(Issues(second.content), second))
  }

  /** A submitted turn whose tool round raised ends with that fault and the
      history as the tool round left it. */
  lemma TurnAbortsWith(account: Account, engine: Engine, history: seq<Message>, prompt: string)
    requires prompt != ""
    requires Dispatch(account, FirstReply(engine, history, prompt).toolCalls).fault.Some?
    ensures Turn(account, engine, history, Some(prompt)) ==
      TurnResult(AfterTools(account, engine, history, prompt),
                 Aborted(Dispatch(account, FirstReply(engine, history, prompt).toolCalls).fault.value))
  {
  }

  /** A submitted turn whose tool round answered every call ends with the
      engine's reply to everything after the tool answers. */
  lemma TurnCompletesWith(account: Account, engine: Engine, history: seq<Message>, prompt: string)
    requires prompt != ""
    requires Dispatch(account, FirstReply(engine, history, prompt).toolCalls).fault.None?
    ensures var answered := AfterTools(account, engine, history, prompt);
      var second := engine(Contents(answered));
      Turn(account, engine, history, Some(prompt)) ==
        TurnResult(answered + [Message(Ai, AiReply(second))], Completed(Issues(second.content), second))
  {
  }

  /** The entries of the exchange before the tool answers. */
  lemma ContentsOfExchange(history: seq<Message>, prompt: string, first: Reply)
    ensures Contents(history + [HumanEntry(prompt), Message(Ai, AiReply(first))]) ==
      Contents(history) + [HumanText(prompt), AiReply(first)]
  {
    ContentsAppend(history, [HumanEntry(prompt), Message(Ai, AiReply(first))]);
    assert Contents([HumanEntry(prompt), Message(Ai, AiReply(first))]) == [HumanText(prompt), AiReply(first)];
  }

  /** Without input, nothing happens. */
  lemma TurnNeedsInput(account: Account, engine: Engine, history: seq<Message>, input: Option<string>)
    requires !Submitted(input)
    ensures Turn(account, engine, history, input) == TurnResult(history, NoInput)
  {
  }

  /** A turn completes exactly when every tool call the first reply asks for
      resolves and answers; otherwise it ends with the first fault. */
  lemma TurnCompletes(account: Account, engine: Engine, history: seq<Message>, prompt: string)
    requires prompt != ""
    ensures var calls := FirstReply(engine, history, prompt).toolCalls;
      Turn(account, engine, history, Some(prompt)).outcome.Completed? <==>
      forall i :: 0 <= i < |calls| ==> Invoke(account, calls[i]).Done?
    ensures Turn(account, engine, history, Some(prompt)).outcome != NoInput
  {
    DispatchCompletes(account, FirstReply(engine, history, prompt).toolCalls);
    DispatchAnswers(account, FirstReply(engine, history, prompt).toolCalls);
  }

  /** A completed turn with k tool calls adds exactly 3 + k entries after the old
      history, which it keeps as a prefix: the user's message, the first reply,
      one tool entry per call in call order, and the final reply. The final
      reply's own tool calls are never run. */
  lemma TurnHistory(account: Account, engine: Engine, history: seq<Message>, prompt: string)
    requires Turn(account, engine, history, Some(prompt)).outcome.Completed?
    ensures var first := FirstReply(engine, history, prompt);
      var k := |first.toolCalls|;
      var h := Turn(account, engine, history, Some(prompt)).history;
      && |h| == |history| + 3 + k
      && h[..|history|] == history
      && h[|history|] == Message(Human, HumanText(prompt))
      && h[|history| + 1] == Message(Ai, AiReply(first))
      && (forall i :: 0 <= i < k ==>
            && h[|history| + 2 + i].role == Tool
            && h[|history| + 2 + i].content.ToolReply?
            && h[|history| + 2 + i].content.message.callId == first.toolCalls[i].id
            && Invoke(account, first.toolCalls[i]) == Done(h[|history| + 2 + i].content.message))
      && h[|history| + 2 + k] == Message(Ai, AiReply(Turn(account, engine, history, Some(prompt)).outcome.answer))
  {
    var first := FirstReply(engine, history, prompt);
    var d := Dispatch(account, first.toolCalls);
    var t := Turn(account, engine, history, Some(prompt));
    TurnCompletesWith(account, engine, history, prompt);
    DispatchAnswers(account, first.toolCalls);
    ExchangeLayout(history, prompt, first, d.replies, Message(Ai, AiReply(t.outcome.answer)));
    forall i | 0 <= i < |first.toolCalls|
      ensures d.replies[i].callId == first.toolCalls[i].id
    {
      assert Invoke(account, first.toolCalls[i]) == Done(d.replies[i]);
    }
  }

  /** Where each entry of a completed exchange sits in the history. */
  lemma ExchangeLayout(history: seq<Message>, prompt: string, first: Reply, replies: seq<ToolMessage>, last: Message)
    ensures var h := history + [HumanEntry(prompt), Message(Ai, AiReply(first))] + ToolEntries(replies) + [last];
      && |h| == |history| + 3 + |replies|
      && h[..|history|] == history
      && h[|history|] == HumanEntry(prompt)
      && h[|history| + 1] == Message(Ai, AiReply(first))
      && (forall i :: 0 <= i < |replies| ==> h[|history| + 2 + i] == Message(Tool, ToolReply(replies[i])))
      && h[|history| + 2 + |replies|] == last
  {
    var h := history + [HumanEntry(prompt), Message(Ai, AiReply(first))] + ToolEntries(replies) + [last];
    assert h[..|history|] == history;
  }

  lemma TurnSecondInput(account: Account, engine: Engine, history: seq<Message>, prompt: string)
    requires Turn(account, engine, history, Some(prompt)).outcome.Completed?
    ensures var first := FirstReply(engine, history, prompt);
      var d := Dispatch(account, first.toolCalls);
      var outcome := Turn(account, engine, history, Some(prompt)).outcome;
      && outcome.answer == engine(Contents(history) + [HumanText(prompt), AiReply(first)] + Contents(ToolEntries(d.replies)))
      && outcome.issues == Issues(outcome.answer.content)
  {
    var first := FirstReply(engine, history, prompt);
    var d := Dispatch(account, first.toolCalls);
    TurnCompletesWith(account, engine, history, prompt);
    var exchange := history + [HumanEntry(prompt), Message(Ai, AiReply(first))];
    ContentsAppend(exchange, ToolEntries(d.replies));
    ContentsOfExchange(history, prompt, first);
  }

  /** A turn whose first reply asks for no tool adds just the user's message and
      the two replies, and the second call sees only those after the history. */
  lemma TurnWithoutTools(account: Account, engine: Engine, history: seq<Message>, prompt: string)
    requires prompt != ""
    requires FirstReply(engine, history, prompt).toolCalls == []
    ensures var first := FirstReply(engine, history, prompt);
      var t := Turn(account, engine, history, Some(prompt));
      && t.outcome.Completed?
      && t.outcome.answer == engine(Contents(history) + [HumanText(prompt), AiReply(first)])
      && t.history == history + [Message(Human, HumanText(prompt)), Message(Ai, AiReply(first)), Message(Ai, AiReply(t.outcome.answer))]
  {
    var first := FirstReply(engine, history, prompt);
    assert Dispatch(account, first.toolCalls) == Dispatched([], None);
    TurnCompletesWith(account, engine, history, prompt);
    assert ToolEntries([]) == [];
    var exchange := history + [HumanEntry(prompt), Message(Ai, AiReply(first))];
    assert AfterTools(account, engine, history, prompt) == exchange;
    ContentsOfExchange(history, prompt, first);
  }

  /** A turn cut short by a fault keeps what was appended before it: the user's
      message, the first reply and the answers of the calls before the one that
      raised; the engine is not called again. */
  lemma TurnAborted(account: Account, engine: Engine, history: seq<Message>, prompt: string)
    requires Turn(account, engine, history, Some(prompt)).outcome.Aborted?
    ensures var first := FirstReply(engine, history, prompt);
      var d := Dispatch(account, first.toolCalls);
      var t := Turn(account, engine, history, Some(prompt));
      && |d.replies| < |first.toolCalls|
      && Invoke(account, first.toolCalls[|d.replies|]) == Raised(t.outcome.fault)
      && t.history == history + [Message(Human, HumanText(prompt)), Message(Ai, AiReply(first))] + ToolEntries(d.replies)
      && |t.history| == |history| + 2 + |d.replies|
  {
    TurnAbortsWith(account, engine, history, prompt);
    DispatchAnswers(account, FirstReply(engine, history, prompt).toolCalls);
  }

  // ---------------------------------------------------------------------------
  // The session and its turn handler

  class Session {
    /** The chat history, oldest first. */
    var messages: seq<Message>
    /** The session's issues list: set empty when the session starts and never
        written again. */
    var issues: seq<string>

    /** A new session: the system prompt as the only entry. */
    constructor (systemPrompt: string)
      ensures messages == [Message(System, SystemText(systemPrompt))]
      ensures issues == []
    {
      messages := [Message(System, SystemText(systemPrompt))];
      issues := [];
    }

    /** The user-turn handler: append the user's message, ask the engine,
        record its reply, run its tool calls one by one recording each answer,
        ask the engine again with everything so far, take the summary from the
        second reply and record it. */
    method HandleTurn(account: Account, engine: Engine, input: Option<string>) returns (outcome: TurnOutcome)
      modifies this
      ensures messages == Turn(account, engine, old(messages), input).history
      ensures outcome == Turn(account, engine, old(messages), input).outcome
      ensures issues == old(issues)
    {
      if input.None? || input.value == "" {
        return NoInput;
      }
      var prompt := input.value;
      ghost var history := messages;
      messages := messages + [Message(Human, HumanText(prompt))];

      var soFar := CollectContents(messages);
      var first := engine(soFar);
      assert first == FirstReply(engine, history, prompt);
      soFar := RecordReply(first, soFar);

      var dispatched;
      soFar, dispatched := RecordToolCalls(account, first.toolCalls, soFar);
      assert messages == AfterTools(account, engine, history, prompt);
      if dispatched.fault.Some? {
        TurnAbortsWith(account, engine, history, prompt);
        return Aborted(dispatched.fault.value);
      }
      TurnCompletesWith(account, engine, history, prompt);

      var response := engine(soFar);
      outcome := Completed(Issues(response.content), response);
      soFar := RecordReply(response, soFar);
    }

    /** An engine reply appended to the history as an `ai` entry and to
        `soFar`, which keeps mirroring the history. */
    method RecordReply(reply: Reply, soFarBefore: seq<Content>) returns (soFar: seq<Content>)
      requires soFarBefore == Contents(messages)
      modifies this
      ensures messages == old(messages) + [Message(Ai, AiReply(reply))]
      ensures soFar == Contents(messages)
      ensures issues == old(issues)
    {
      ContentsAppendOne(messages, Message(Ai, AiReply(reply)));
      soFar := soFarBefore + [AiReply(reply)];
      messages := messages + [Message(Ai, AiReply(reply))];
    }

    /** The tool round: each call in order, its answer appended to the history
        and to `soFar`; a call that raises ends the round there. */
    method RecordToolCalls(account: Account, calls: seq<ToolCall>, soFarBefore: seq<Content>)
      returns (soFar: seq<Content>, dispatched: Dispatched)
      requires soFarBefore == Contents(messages)
      modifies this
      ensures dispatched == Dispatch(account, calls)
      ensures messages == old(messages) + ToolEntries(dispatched.replies)
      ensures soFar == Contents(messages)
      ensures issues == old(issues)
    {
      soFar := soFarBefore;
      var replies: seq<ToolMessage> := [];
      assert calls[0..] == calls;
      var c := 0;
      while c < |calls|
        invariant 0 <= c <= |calls|
        invariant DispatchedUpTo(account, calls, c, replies)
        invariant messages == old(messages) + ToolEntries(replies)
        invariant soFar == Contents(messages)
        invariant issues == old(issues)
      {
        var reply := InvokeTool(account, calls[c]);
        if reply.Raised? {
          DispatchRaised(account, calls, c, replies, reply.fault);
          return soFar, Dispatched(replies, Some(reply.fault));
        }
        DispatchAnswered(account, calls, c, replies, reply.value);
        ContentsAppendOne(messages, Message(Tool, ToolReply(reply.value)));
        ToolEntriesAppend(replies, reply.value);
        soFar := soFar + [ToolReply(reply.value)];
        messages := messages + [Message(Tool, ToolReply(reply.value))];
        replies := replies + [reply.value];
        c := c + 1;
      }
      DispatchEnd(account, calls, replies);
      dispatched := Dispatched(replies, None);
    }
  }

  /** `so_far`: the contents of the history, collected entry by entry. */
  method CollectContents(history: seq<Message>) returns (soFar: seq<Content>)
    ensures soFar == Contents(history)
  {
    soFar := [];
    var i := 0;
    while i < |history|
      invariant 0 <= i <= |history|
      invariant |soFar| == i
      invariant forall j :: 0 <= j < i ==> soFar[j] == history[j].content
    {
      soFar := soFar + [history[i].content];
      i := i + 1;
    }
  }

  lemma ContentsAppendOne(history: seq<Message>, m: Message)
    ensures Contents(history + [m]) == Contents(history) + [m.content]
  {
    ContentsAppend(history, [m]);
    assert Contents([m]) == [m.content];
  }

  /** The answers before index `c` are `replies`, and the rest of the dispatch
      is that of the calls from `c` on. */
  predicate DispatchedUpTo(account: Account, calls: seq<ToolCall>, c: nat, replies: seq<ToolMessage>)
    requires c <= |calls|
  {
    var rest := Dispatch(account, calls[c..]);
    Dispatch(account, calls) == Dispatched(replies + rest.replies, rest.fault)
  }

  /** Dispatching the calls from index `c` on, when the call at `c` answers. */
  lemma DispatchFromDone(account: Account, calls: seq<ToolCall>, c: nat, reply: ToolMessage)
    requires c < |calls| && Invoke(account, calls[c]) == Done(reply)
    ensures Dispatch(account, calls[c..]) ==
      Dispatched([reply] + Dispatch(account, calls[c + 1..]).replies, Dispatch(account, calls[c + 1..]).fault)
  {
    assert calls[c..][0] == calls[c];
    assert calls[c..][1..] == calls[c + 1..];
    DispatchDone(account, calls[c..]);
  }

  lemma DispatchAnswered(account: Account, calls: seq<ToolCall>, c: nat, replies: seq<ToolMessage>, reply: ToolMessage)
    requires c < |calls| && DispatchedUpTo(account, calls, c, replies)
    requires Invoke(account, calls[c]) == Done(reply)
    ensures DispatchedUpTo(account, calls, c + 1, replies + [reply])
  {
    DispatchFromDone(account, calls, c, reply);
    var rest := Dispatch(account, calls[c + 1..]);
    assert replies + [reply] + rest.replies == replies + ([reply] + rest.replies);
  }

  lemma DispatchRaised(account: Account, calls: seq<ToolCall>, c: nat, replies: seq<ToolMessage>, f: Fault)
    requires c < |calls| && DispatchedUpTo(account, calls, c, replies)
    requires Invoke(account, calls[c]) == Raised(f)
    ensures Dispatch(account, calls) == Dispatched(replies, Some(f))
  {
    assert calls[c..][0] == calls[c];
    assert Dispatch(account, calls[c..]) == Dispatched([], Some(f));
    assert replies + [] == replies;
  }

  lemma DispatchEnd(account: Account, calls: seq<ToolCall>, replies: seq<ToolMessage>)
    requires DispatchedUpTo(account, calls, |calls|, replies)
    ensures Dispatch(account, calls) == Dispatched(replies, None)
  {
    assert calls[|calls|..] == [];
    assert replies + [] == replies;
  }
}
