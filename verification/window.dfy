/** The coding agent's message loop and the window of its conversation that each request carries. */
module CodingAgents {
  import opened Options

  const MAX_ROUNDS: nat := 50
  const MAX_CONTEXT_EXCHANGES: nat := 10

  datatype ToolCall = ToolCall(id: string, name: string, arguments: string)

  datatype Message =
    | System(text: string)
    | User(text: string)
    | Assistant(content: Option<string>, calls: seq<ToolCall>)
    | Tool(output: string, callId: string)

  /** The model's answer to one request; `Failed` stands for a failed call and for one without choices. */
  datatype Reply = Failed | Reply(content: Option<string>, calls: seq<ToolCall>)

  datatype Outcome = Finished(text: string) | LlmError | OutOfRounds

  // ── Exchanges ─────────────────────────────────────────────────────────────

  /** One assistant message with its calls, and the output of each call in order. */
  datatype Exchange = Exchange(content: Option<string>, calls: seq<ToolCall>, outputs: seq<string>)

  ghost predicate Complete(e: Exchange) {
    |e.outputs| == |e.calls|
  }

  function ToolMessages(calls: seq<ToolCall>, outputs: seq<string>): seq<Message>
    requires |outputs| == |calls|
  {
    if calls == [] then []
    else ToolMessages(calls[..|calls| - 1], outputs[..|calls| - 1]) + [Tool(outputs[|calls| - 1], calls[|calls| - 1].id)]
  }

  ghost function AsMessages(e: Exchange): seq<Message>
    requires Complete(e)
  {
    [Assistant(e.content, e.calls)] + ToolMessages(e.calls, e.outputs)
  }

  ghost function Conversation(es: seq<Exchange>): seq<Message>
    requires forall i :: 0 <= i < |es| ==> Complete(es[i])
  {
    if es == [] then [] else Conversation(es[..|es| - 1]) + AsMessages(es[|es| - 1])
  }

  ghost function LastExchanges(es: seq<Exchange>, n: nat): seq<Exchange> {
    if |es| <= n then es else es[|es| - n..]
  }

  // ── The window ────────────────────────────────────────────────────────────

  /** Positions of the assistant messages. */
  function Starts(messages: seq<Message>): (r: seq<nat>)
    ensures forall i :: 0 <= i < |r| ==> r[i] < |messages|
  {
    if messages == [] then []
    else Starts(messages[..|messages| - 1])
         + (if messages[|messages| - 1].Assistant? then [|messages| - 1] else [])
  }

  function Window(messages: seq<Message>): seq<Message> {
    if |messages| <= 2 then messages
    else
      var exchanges := messages[2..];
      var starts := Starts(exchanges);
      if |starts| <= MAX_CONTEXT_EXCHANGES then messages
      else
        var from := starts[|starts| - MAX_CONTEXT_EXCHANGES];
        messages[..2] + exchanges[from..]
  }

  method ExchangeStarts(exchanges: seq<Message>) returns (starts: seq<nat>)
    ensures starts == Starts(exchanges)
  {
    starts := [];
    for i := 0 to |exchanges|
      invariant starts == Starts(exchanges[..i])
    {
      assert exchanges[..i + 1][..i] == exchanges[..i];
      if exchanges[i].Assistant? {
        starts := starts + [i];
      }
    }
    assert exchanges[..|exchanges|] == exchanges;
  }

  method WindowMessages(messages: seq<Message>) returns (r: seq<Message>)
    ensures r == Window(messages)
  {
    hide Starts;
    if |messages| <= 2 {
      return messages;
    }
    var preamble, exchanges := messages[..2], messages[2..];
    var starts := ExchangeStarts(exchanges);
    if |starts| <= MAX_CONTEXT_EXCHANGES {
      return messages;
    }
    var from := starts[|starts| - MAX_CONTEXT_EXCHANGES];
    r := preamble + exchanges[from..];
  }

  // ── The window holds the last complete exchanges ──────────────────────────

  lemma {:induction false} StartsConcat(a: seq<Message>, b: seq<Message>)
    requires forall i :: 0 <= i < |b| ==> !b[i].Assistant?
    ensures Starts(a + b) == Starts(a)
  {
    if b == [] {
      assert a + b == a;
    } else {
      StartsConcat(a, b[..|b| - 1]);
      assert (a + b)[..|a + b| - 1] == a + b[..|b| - 1];
    }
  }

  lemma {:induction false} ToolsAreTools(calls: seq<ToolCall>, outputs: seq<string>)
    requires |outputs| == |calls|
    ensures |ToolMessages(calls, outputs)| == |calls|
    ensures forall i :: 0 <= i < |calls| ==> ToolMessages(calls, outputs)[i] == Tool(outputs[i], calls[i].id)
  {
    if calls != [] { ToolsAreTools(calls[..|calls| - 1], outputs[..|calls| - 1]); }
  }

  ghost predicate AllComplete(es: seq<Exchange>) {
    forall i :: 0 <= i < |es| ==> Complete(es[i])
  }

  lemma StartsOfNext(es: seq<Exchange>)
    requires AllComplete(es) && es != []
    ensures Starts(Conversation(es)) == Starts(Conversation(es[..|es| - 1])) + [|Conversation(es[..|es| - 1])|]
  {
    var front, e := Conversation(es[..|es| - 1]), es[|es| - 1];
    var head := front + [Assistant(e.content, e.calls)];
    ToolsAreTools(e.calls, e.outputs);
    StartsConcat(head, ToolMessages(e.calls, e.outputs));
    assert Conversation(es) == head + ToolMessages(e.calls, e.outputs);
    assert head[..|head| - 1] == front;
  }

  /** A conversation falls apart at every exchange. */
  lemma {:induction false} ConversationSplits(a: seq<Exchange>, b: seq<Exchange>)
    requires AllComplete(a) && AllComplete(b)
    ensures AllComplete(a + b) && Conversation(a + b) == Conversation(a) + Conversation(b)
  {
    if b == [] {
      assert a + b == a;
    } else {
      var init, last := b[..|b| - 1], b[|b| - 1];
      assert init + [last] == b;
      ConversationSplits(a, init);
      SplitsNext(a, init, last);
    }
  }

  lemma SplitsNext(a: seq<Exchange>, b: seq<Exchange>, e: Exchange)
    requires AllComplete(a) && AllComplete(b) && Complete(e)
    requires AllComplete(a + b) && Conversation(a + b) == Conversation(a) + Conversation(b)
    ensures AllComplete(a + (b + [e])) && AllComplete(b + [e])
    ensures Conversation(a + (b + [e])) == Conversation(a) + Conversation(b + [e])
  {
    hide Conversation, AsMessages;
    ConversationNext(a + b, e);
    ConversationNext(b, e);
    assert a + (b + [e]) == a + b + [e];
  }

  /** The k-th assistant message stands where the k-th exchange begins. */
  lemma {:induction false} StartsAreExchanges(es: seq<Exchange>, k: nat)
    requires AllComplete(es)
    ensures |Starts(Conversation(es))| == |es|
    ensures k < |es| ==> Starts(Conversation(es))[k] == |Conversation(es[..k])|
  {
    if es != [] {
      hide Conversation;
      var init := es[..|es| - 1];
      StartsOfNext(es);
      StartsAreExchanges(init, k);
      if k < |init| { assert init[..k] == es[..k]; }
    } else {
      assert Conversation(es) == [];
    }
  }

  /**
   * The window of a preamble and any complete exchanges is the preamble and the last ten of them:
   * every kept exchange is whole, and no tool output appears without the call it answers.
   */
  lemma WindowKeepsWholeExchanges(preamble: seq<Message>, es: seq<Exchange>)
    requires |preamble| == 2 && AllComplete(es)
    ensures AllComplete(LastExchanges(es, MAX_CONTEXT_EXCHANGES))
    ensures Window(preamble + Conversation(es)) == preamble + Conversation(LastExchanges(es, MAX_CONTEXT_EXCHANGES))
  {
    var messages := preamble + Conversation(es);
    assert messages[2..] == Conversation(es) && messages[..2] == preamble;
    var k: nat := if |es| <= MAX_CONTEXT_EXCHANGES then 0 else |es| - MAX_CONTEXT_EXCHANGES;
    StartsAreExchanges(es, k);
    assert es == es[..k] + es[k..];
    ConversationSplits(es[..k], es[k..]);
    if |messages| <= 2 { EmptyConversation(es); }
  }

  /** Of more than ten exchanges the window leaves out all but the last ten, of fewer none. */
  lemma WindowIsLastTen(preamble: seq<Message>, older: seq<Exchange>, es: seq<Exchange>)
    requires |preamble| == 2 && AllComplete(older) && AllComplete(es) && |es| <= 10 && (older != [] ==> |es| == 10)
    ensures AllComplete(older + es) && Window(preamble + Conversation(older + es)) == preamble + Conversation(es)
  {
    hide Window, Conversation;
    WindowKeepsWholeExchanges(preamble, older + es);
    if older == [] { assert older + es == es; } else { assert (older + es)[|older|..] == es; }
  }

  lemma EmptyConversation(es: seq<Exchange>)
    requires AllComplete(es)
    ensures Conversation(es) == [] ==> es == []
  {
  }

  // ── The loop ──────────────────────────────────────────────────────────────

  /** The request is the preamble and the last ten of the exchanges so far, all whole. */
  ghost predicate Carries(request: seq<Message>, preamble: seq<Message>, es: seq<Exchange>) {
    && AllComplete(LastExchanges(es, 10))
    && request == preamble + Conversation(LastExchanges(es, 10))
  }

  /** The exchanges so far are the answers to the requests so far, and the messages their conversation. */
  ghost predicate Recorded(messages: seq<Message>, preamble: seq<Message>, es: seq<Exchange>, sent: seq<seq<Message>>,
                           model: (nat, seq<Message>) -> Reply, execute: ToolCall -> string) {
    && AllComplete(es) && messages == preamble + Conversation(es) && |es| <= |sent|
    && (forall k :: 0 <= k < |sent| && k <= |es| ==> Carries(sent[k], preamble, es[..k]))
    && (forall k :: 0 <= k < |es| ==> Answers(model(k, sent[k]), execute, es[k]))
  }

  /** One more request carries the window of the conversation so far. */
  lemma RequestRecorded(messages: seq<Message>, preamble: seq<Message>, es: seq<Exchange>, sent: seq<seq<Message>>,
                        model: (nat, seq<Message>) -> Reply, execute: ToolCall -> string)
    requires Recorded(messages, preamble, es, sent, model, execute) && |sent| == |es| && |preamble| == 2
    ensures Recorded(messages, preamble, es, sent + [Window(messages)], model, execute)
  {
    hide Window, Conversation, AllComplete;
    WindowKeepsWholeExchanges(preamble, es);
    var sent' := sent + [Window(messages)];
    assert es[..|es|] == es;
    assert Carries(sent'[|es|], preamble, es[..|es|]);
    assert forall k :: 0 <= k < |sent| ==> sent'[k] == sent[k];
  }

  /** One more answered exchange. */
  lemma ExchangeRecorded(messages: seq<Message>, preamble: seq<Message>, es: seq<Exchange>, e: Exchange,
                         sent: seq<seq<Message>>, model: (nat, seq<Message>) -> Reply, execute: ToolCall -> string)
    requires Recorded(messages, preamble, es, sent, model, execute) && |sent| == |es| + 1
    requires Answers(model(|es|, sent[|es|]), execute, e)
    ensures Recorded(messages + AsMessages(e), preamble, es + [e], sent, model, execute)
  {
    hide Conversation, AsMessages, Carries;
    var es' := es + [e];
    ConversationNext(es, e);
    assert forall k :: 0 <= k <= |es| ==> es'[..k] == es[..k];
  }

  lemma ConversationNext(es: seq<Exchange>, e: Exchange)
    requires AllComplete(es) && Complete(e)
    ensures AllComplete(es + [e]) && Conversation(es + [e]) == Conversation(es) + AsMessages(e)
  {
    assert (es + [e])[..|es|] == es;
  }

  /**
   * Runs the conversation against any model and any tools.  `sent` records the window of every
   * request; request number k carries the preamble and the last ten of the k exchanges before it.
   */
  method Run(system: string, prompt: string, model: (nat, seq<Message>) -> Reply, execute: ToolCall -> string)
    returns (outcome: Outcome, sent: seq<seq<Message>>, ghost es: seq<Exchange>)
    ensures AllComplete(es) && |es| <= |sent| <= |es| + 1 && |sent| <= 50
    ensures forall k :: 0 <= k < |sent| ==> Carries(sent[k], [System(system), User(prompt)], es[..k])
    ensures forall k :: 0 <= k < |es| ==> Answers(model(k, sent[k]), execute, es[k])
    ensures match outcome
      case OutOfRounds => |es| == 50
      case LlmError => |sent| == |es| + 1 && model(|es|, sent[|es|]).Failed?
      case Finished(text) => |sent| == |es| + 1 && model(|es|, sent[|es|]).Reply?
                             && model(|es|, sent[|es|]).calls == [] && text == (match model(|es|, sent[|es|]).content case Some(content) => content case None => "")
  {
    ghost var preamble := [System(system), User(prompt)];
    var messages := [System(system), User(prompt)];
    sent, es := [], [];
    for round := 0 to MAX_ROUNDS
      invariant |sent| == |es| == round
      invariant Recorded(messages, preamble, es, sent, model, execute)
    {
      RequestRecorded(messages, preamble, es, sent, model, execute);
      var windowed := WindowMessages(messages);
      sent := sent + [windowed];
      var reply := model(round, windowed);
      if reply.Failed? {
        return LlmError, sent, es;
      }
      if reply.calls == [] {
        return Finished(OrEmpty(reply.content)), sent, es;
      }
      ghost var before := messages;
      ghost var outputs;
      messages, outputs := Execute(messages, reply, execute);
      ExchangeRecorded(before, preamble, es, Exchange(reply.content, reply.calls, outputs), sent, model, execute);
      es := es + [Exchange(reply.content, reply.calls, outputs)];
    }
    return OutOfRounds, sent, es;
  }

  function OrEmpty(content: Option<string>): string {
    if content.Some? then content.value else ""
  }

  /** The exchange is the reply with each call's output. */
  ghost predicate Answers(reply: Reply, execute: ToolCall -> string, e: Exchange) {
    && reply.Reply? && reply.calls != [] && e.content == reply.content && e.calls == reply.calls && Complete(e)
    && forall i :: 0 <= i < |e.calls| ==> e.outputs[i] == execute(e.calls[i])
  }

  /** Appends the reply and the output of each of its calls. */
  method Execute(messages: seq<Message>, reply: Reply, execute: ToolCall -> string)
    returns (r: seq<Message>, ghost outputs: seq<string>)
    requires reply.Reply?
    ensures |outputs| == |reply.calls| && forall i :: 0 <= i < |outputs| ==> outputs[i] == execute(reply.calls[i])
    ensures r == messages + AsMessages(Exchange(reply.content, reply.calls, outputs))
  {
    r := messages + [Assistant(reply.content, reply.calls)];
    outputs := [];
    ghost var head := r;
    for i := 0 to |reply.calls|
      invariant |outputs| == i && forall k :: 0 <= k < i ==> outputs[k] == execute(reply.calls[k])
      invariant r == head + ToolMessages(reply.calls[..i], outputs)
    {
      var output := execute(reply.calls[i]);
      r := r + [Tool(output, reply.calls[i].id)];
      ghost var before := outputs;
      outputs := outputs + [output];
      assert reply.calls[..i + 1][..i] == reply.calls[..i] && outputs[..i] == before;
    }
    assert reply.calls[..|reply.calls|] == reply.calls;
  }
}
