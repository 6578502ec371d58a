/**
 The turn dispatcher and per-user session store shared by the three chat
 endpoints (fastapi_app.py, flask_app.py, app.py). The two module-level
 dictionaries become one immutable `Store`; one chat turn is a pure function
 from the store, the request and the two answers of the model collaborator
 (the first call and the re-invocation after a handoff) to the new store, the
 calls the turn issued, and the reply or the server error.
 */
module Dispatcher {
  import opened ApiModels
  import opened Agents
  import opened ApiUtils

  /** The key `context.get("user_id")` yields; every request without a user id shares `NoUserId`. */
  datatype UserKey = NoUserId | UserId(id: string)

  function UserKeyOf(context: map<string, string>): (k: UserKey) {
    if "user_id" in context then UserId(context["user_id"]) else NoUserId
  }

  /** `conversation_memory` and `current_agent_memory`. */
  datatype Store = Store(conversations: map<UserKey, seq<Message>>, agents: map<UserKey, AgentId>)

  /** The dictionaries at process start. */
  const EmptyStore: Store := Store(map[], map[])

  /** Every user with a history also has an assigned agent. */
  predicate Valid(s: Store) {
    s.conversations.Keys <= s.agents.Keys
  }

  /** The stored history of `k`, empty when there is none. */
  function History(s: Store, k: UserKey): (h: seq<Message>) {
    if k in s.conversations then s.conversations[k] else []
  }

  /** `current_agent_memory.get(k, starting_agent)`. */
  function AgentOf(s: Store, k: UserKey): (a: AgentId) {
    if k in s.agents then s.agents[k] else StartingAgent
  }

  /** The agent a turn of `k` starts with: a user without history is (re)assigned the starting agent. */
  function TurnAgent(s: Store, k: UserKey): (a: AgentId) {
    if k in s.conversations then AgentOf(s, k) else StartingAgent
  }

  /** `s'` and `s` hold the same entries for every user other than `k`. */
  predicate SameElsewhere(s: Store, s': Store, k: UserKey) {
    s'.conversations - {k} == s.conversations - {k} && s'.agents - {k} == s.agents - {k}
  }

  /** What one `client.run` gave back: its message list (or, when streaming,
      its chunks) or an exception. */
  datatype Invocation = Returned(messages: seq<Message>) | Failed

  /** The arguments of one `client.run` the turn issued. */
  datatype RunCall = RunCall(agent: AgentId, history: seq<Message>, stream: bool)

  /** The decision the scan of the first call's output reaches. */
  datatype ScanOutcome =
    | NoHandoff(replies: seq<ChatResponse>)
    | Handoff(before: seq<ChatResponse>, target: AgentId)
    | ToolCallFault

  /** Puts `replies` in front of the replies of `o`. */
  function PrependAll(replies: seq<ChatResponse>, o: ScanOutcome): ScanOutcome {
    match o
    case NoHandoff(rs) => NoHandoff(replies + rs)
    case Handoff(rs, a) => Handoff(replies + rs, a)
    case ToolCallFault => ToolCallFault
  }

  /** The scan loop of `chat`. Without streaming every message is checked for
      a handoff and, failing one, formatted if it has content; when streaming,
      chunks without content are passed over before anything else is looked at.
      The first handoff ends the scan. */
  function ScanOutput(msgs: seq<Message>, stream: bool): (r: ScanOutcome)
    ensures r.NoHandoff? ==> |r.replies| <= |msgs| && AllPlain(r.replies)
    ensures r.Handoff? ==> |r.before| < |msgs| && AllPlain(r.before)
    decreases |msgs|
  {
    if |msgs| == 0 then NoHandoff([])
    else if stream && !HasContent(msgs[0]) then ScanOutput(msgs[1..], stream)
    else
      match ProcessToolCalls(msgs[0])
      case Raised => ToolCallFault
      case Done(Some(a)) => Handoff([], a)
      case Done(None) =>
        var rest := ScanOutput(msgs[1..], stream);
        if HasContent(msgs[0]) then PrependAll([FormatMessage(msgs[0], None).value], rest) else rest
  }

  /** Replies formatted from messages of the first call: each has content and no agent switch. */
  predicate AllPlain(rs: seq<ChatResponse>) {
    forall j :: 0 <= j < |rs| ==> |rs[j].content| > 0 && rs[j].agentSwitch.None?
  }

  /** One step of the scan, as the loop takes it at position `i`. */
  lemma ScanStep(msgs: seq<Message>, i: nat, stream: bool)
    requires i < |msgs|
    ensures stream && !HasContent(msgs[i]) ==> ScanOutput(msgs[i..], stream) == ScanOutput(msgs[i + 1..], stream)
    ensures !(stream && !HasContent(msgs[i])) ==>
              ScanOutput(msgs[i..], stream) ==
                match ProcessToolCalls(msgs[i])
                case Raised => ToolCallFault
                case Done(Some(a)) => Handoff([], a)
                case Done(None) =>
                  if HasContent(msgs[i]) then PrependAll([FormatMessage(msgs[i], None).value], ScanOutput(msgs[i + 1..], stream))
                  else ScanOutput(msgs[i + 1..], stream)
  {
  }

  /** The same scan as a loop with early exits, in the shape of the source's
      `for ... break`. */
  method ScanLoop(msgs: seq<Message>, stream: bool) returns (r: ScanOutcome)
    ensures r == ScanOutput(msgs, stream)
  {
    var replies: seq<ChatResponse> := [];
    var i := 0;
    while i < |msgs|
      invariant 0 <= i <= |msgs|
      invariant ScanOutput(msgs, stream) == PrependAll(replies, ScanOutput(msgs[i..], stream))
    {
      var m := msgs[i];
      ScanStep(msgs, i, stream);
      if !stream || HasContent(m) {
        var signal := ProcessToolCalls(m);
        if signal.Raised? {
          return ToolCallFault;
        }
        if signal.value.Some? {
          return Handoff(replies, signal.value.value);
        }
        if HasContent(m) {
          var reply := FormatMessage(m, None).value;
          PrependAllTwice(replies, reply, ScanOutput(msgs[i + 1..], stream));
          replies := replies + [reply];
        }
      }
      i := i + 1;
    }
    assert msgs[i..] == [];
    return NoHandoff(replies);
  }

  /** Prepending in two steps is prepending the concatenation. */
  lemma PrependAllTwice(replies: seq<ChatResponse>, reply: ChatResponse, o: ScanOutcome)
    ensures PrependAll(replies, PrependAll([reply], o)) == PrependAll(replies + [reply], o)
  {
  }

  /** Reference for the no-handoff case: one reply per content-bearing message, in order. */
  function Formatted(msgs: seq<Message>): (rs: seq<ChatResponse>)
    ensures |rs| <= |msgs|
    ensures AllPlain(rs)
    decreases |msgs|
  {
    if |msgs| == 0 then []
    else
      var f := FormatMessage(msgs[0], None);
      (if f.Some? then [f.value] else []) + Formatted(msgs[1..])
  }

  /** The chunks that carry content, in order. */
  function ContentBearing(msgs: seq<Message>): (cs: seq<Message>)
    ensures |cs| <= |msgs|
    ensures forall j :: 0 <= j < |cs| ==> HasContent(cs[j]) && cs[j] in msgs
    decreases |msgs|
  {
    if |msgs| == 0 then []
    else (if HasContent(msgs[0]) then [msgs[0]] else []) + ContentBearing(msgs[1..])
  }

  /** Without a handoff signal anywhere, the non-streaming scan keeps every
      content-bearing message, formatted, in order. */
  lemma {:induction false} ScanWithoutSignals(msgs: seq<Message>)
    requires forall j :: 0 <= j < |msgs| ==> ProcessToolCalls(msgs[j]) == Done(None)
    ensures ScanOutput(msgs, false) == NoHandoff(Formatted(msgs))
    decreases |msgs|
  {
    if |msgs| > 0 {
      ScanWithoutSignals(msgs[1..]);
    }
  }

  /** The first message carrying a recognised transfer ends the non-streaming
      scan: the replies are the formatted content-bearing messages before it,
      and nothing after it is looked at. A malformed tool call met first fails
      the scan instead. */
  lemma {:induction false} ScanStopsAtFirstSignal(msgs: seq<Message>, i: nat)
    requires i < |msgs|
    requires ProcessToolCalls(msgs[i]) != Done(None)
    requires forall j :: 0 <= j < i ==> ProcessToolCalls(msgs[j]) == Done(None)
    ensures ProcessToolCalls(msgs[i]).Raised? ==> ScanOutput(msgs, false) == ToolCallFault
    ensures ProcessToolCalls(msgs[i]).Done? ==>
              ScanOutput(msgs, false) == Handoff(Formatted(msgs[..i]), ProcessToolCalls(msgs[i]).value.value)
    decreases i
  {
    if i > 0 {
      ScanStopsAtFirstSignal(msgs[1..], i - 1);
      assert msgs[1..][..i - 1] == msgs[..i][1..];
    }
  }

  /** Streaming ignores chunks without content altogether, tool calls included:
      the streaming scan is the non-streaming scan of the content-bearing chunks. */
  lemma {:induction false} StreamIgnoresContentlessChunks(chunks: seq<Message>)
    ensures ScanOutput(chunks, true) == ScanOutput(ContentBearing(chunks), false)
    decreases |chunks|
  {
    if |chunks| > 0 {
      StreamIgnoresContentlessChunks(chunks[1..]);
      if HasContent(chunks[0]) {
        var cs := ContentBearing(chunks);
        assert cs == [chunks[0]] + ContentBearing(chunks[1..]);
        assert cs[0] == chunks[0] && cs[1..] == ContentBearing(chunks[1..]);
      } else {
        assert ContentBearing(chunks) == ContentBearing(chunks[1..]);
      }
    }
  }

  /** The reply a handoff contributes: the re-invoked agent's last message,
      formatted with that agent's name, when it has content. */
  function HandoffReply(answer: seq<Message>, target: AgentId): (rs: seq<ChatResponse>)
    ensures |rs| <= 1
    ensures |rs| == 1 <==> |answer| > 0 && HasContent(answer[|answer| - 1])
    ensures |rs| == 1 ==>
              rs[0].content == answer[|answer| - 1].content.value && rs[0].agentSwitch == Some(Name(target))
    ensures |rs| == 1 ==> Some(rs[0]) == FormatMessage(answer[|answer| - 1], Some(Name(target)))
  {
    if |answer| > 0 && HasContent(answer[|answer| - 1]) then
      [FormatMessage(answer[|answer| - 1], Some(Name(target))).value]
    else []
  }

  /** Lazy session creation: an unseen user gets an empty history and the starting agent. */
  function Open(s: Store, k: UserKey): (r: Store)
    ensures k in r.conversations && r.conversations[k] == History(s, k)
    ensures AgentOf(r, k) == TurnAgent(s, k)
    ensures SameElsewhere(s, r, k)
    ensures Valid(s) ==> Valid(r)
  {
    if k in s.conversations then s
    else Store(s.conversations[k := []], s.agents[k := StartingAgent])
  }

  /** Stores only the last reply's content as an assistant message, and nothing when there is no reply. */
  function Persist(s: Store, k: UserKey, replies: seq<ChatResponse>): (r: Store)
    requires k in s.conversations
    ensures r.agents == s.agents && SameElsewhere(s, r, k)
    ensures k in r.conversations && r.conversations[k] == s.conversations[k] + Answered(Replies(replies))
  {
    if |replies| == 0 then s
    else s.(conversations := s.conversations[k := s.conversations[k] + [AssistantMessage(replies[|replies| - 1].content)]])
  }

  datatype TurnError = InvocationFailed | ToolCallFailed

  /** The response of `chat`: the reply list, or the 500 error the turn ended with. */
  datatype Reply = Replies(items: seq<ChatResponse>) | ServerError(cause: TurnError)

  /** Everything a turn leaves behind. */
  datatype Turn = Turn(store: Store, calls: seq<RunCall>, reply: Reply)

  /** The history a turn of `req` sends to the model: the stored one plus the user message. */
  function SentHistory(s: Store, req: ChatRequest): seq<Message> {
    History(s, UserKeyOf(req.context)) + [UserMessage(req.message)]
  }

  /** What a turn appends after the user message: the content of its last reply, if any. */
  function Answered(r: Reply): seq<Message> {
    if r.Replies? && |r.items| > 0 then [AssistantMessage(r.items[|r.items| - 1].content)] else []
  }

  /** One `chat` turn. */
  function Chat(s: Store, req: ChatRequest, first: Invocation, second: Invocation): (t: Turn)
    ensures var k := UserKeyOf(req.context);
      && k in t.store.conversations
      && t.store.conversations[k] == SentHistory(s, req) + Answered(t.reply)
      && 1 <= |t.calls| <= 2
      && t.calls[0] == RunCall(TurnAgent(s, k), SentHistory(s, req), req.stream)
      && (|t.calls| == 1 ==> AgentOf(t.store, k) == TurnAgent(s, k))
      && (|t.calls| == 2 ==> t.calls[1] == RunCall(AgentOf(t.store, k), SentHistory(s, req), false))
      && (first.Failed? ==> t.reply == ServerError(InvocationFailed))
      && (first.Returned? && ScanOutput(first.messages, req.stream).ToolCallFault? ==> t.reply == ServerError(ToolCallFailed))
      && SameElsewhere(s, t.store, k)
      && (Valid(s) ==> Valid(t.store))
  {
    var k := UserKeyOf(req.context);
    var s1 := Open(s, k);
    var agent := AgentOf(s1, k);
    var history := s1.conversations[k] + [UserMessage(req.message)];
    var s2 := s1.(conversations := s1.conversations[k := history]);
    var call := RunCall(agent, history, req.stream);
    match first
    case Failed => Turn(s2, [call], ServerError(InvocationFailed))
    case Returned(output) =>
      match ScanOutput(output, req.stream)
      case ToolCallFault => Turn(s2, [call], ServerError(ToolCallFailed))
      case NoHandoff(replies) => Turn(Persist(s2, k, replies), [call], Replies(replies))
      case Handoff(before, target) =>
        var s3 := s2.(agents := s2.agents[k := target]);
        var recall := RunCall(target, history, false);
        match second
        case Failed => Turn(s3, [call, recall], ServerError(InvocationFailed))
        case Returned(answer) =>
          var replies := before + HandoffReply(answer, target);
          Turn(Persist(s3, k, replies), [call, recall], Replies(replies))
  }

  /** A first turn for an unseen user runs the starting agent on the user message alone. */
  lemma FirstTurnStartsFresh(s: Store, req: ChatRequest, first: Invocation, second: Invocation)
    requires UserKeyOf(req.context) !in s.conversations
    ensures Chat(s, req, first, second).calls[0] == RunCall(Triage, [UserMessage(req.message)], req.stream)
  {
  }

  /** A failed invocation ends the turn with a 500, yet the user message stays
      recorded; if it was the re-invocation that failed, the handoff stays too. */
  lemma FailedTurnKeepsUserMessage(s: Store, req: ChatRequest, first: Invocation, second: Invocation)
    requires Chat(s, req, first, second).reply.ServerError?
    ensures var t := Chat(s, req, first, second);
            var k := UserKeyOf(req.context);
      && t.store.conversations[k] == SentHistory(s, req)
      && (first.Failed? ==> t.reply == ServerError(InvocationFailed) && AgentOf(t.store, k) == TurnAgent(s, k))
      && (|t.calls| == 2 ==> t.reply == ServerError(InvocationFailed) && AgentOf(t.store, k) == t.calls[1].agent)
  {
  }

  /** Non-streaming turn with a handoff at message `i`: the agent becomes the
      target (even when its answer turns out empty), the target is re-invoked
      on the same history without streaming, and the replies are those before
      `i` followed by at most the target's last message. */
  lemma NonStreamHandoff(s: Store, req: ChatRequest, msgs: seq<Message>, second: Invocation, i: nat, a: AgentId)
    requires !req.stream
    requires i < |msgs| && ProcessToolCalls(msgs[i]) == Done(Some(a))
    requires forall j :: 0 <= j < i ==> ProcessToolCalls(msgs[j]) == Done(None)
    ensures var t := Chat(s, req, Returned(msgs), second);
            var k := UserKeyOf(req.context);
      && AgentOf(t.store, k) == a
      && t.calls == [RunCall(TurnAgent(s, k), SentHistory(s, req), false), RunCall(a, SentHistory(s, req), false)]
      && (second.Returned? ==> t.reply == Replies(Formatted(msgs[..i]) + HandoffReply(second.messages, a)))
      && (second.Failed? ==> t.reply == ServerError(InvocationFailed))
  {
    ScanStopsAtFirstSignal(msgs, i);
  }

  /** Non-streaming turn whose first signal, at message `i`, is a tool call
      without a function name: the `KeyError` ends the turn with a 500, only
      the user message is recorded and the agent stays as it was. */
  lemma NonStreamToolCallFault(s: Store, req: ChatRequest, msgs: seq<Message>, second: Invocation, i: nat)
    requires !req.stream
    requires i < |msgs| && ProcessToolCalls(msgs[i]).Raised?
    requires forall j :: 0 <= j < i ==> ProcessToolCalls(msgs[j]) == Done(None)
    ensures var t := Chat(s, req, Returned(msgs), second);
            var k := UserKeyOf(req.context);
      && t.reply == ServerError(ToolCallFailed)
      && t.store.conversations[k] == SentHistory(s, req)
      && AgentOf(t.store, k) == TurnAgent(s, k)
      && |t.calls| == 1
  {
    ScanStopsAtFirstSignal(msgs, i);
  }

  /** Non-streaming turn without a handoff: every content-bearing message is
      replied, in order, and the agent stays the same. */
  lemma NonStreamWithoutHandoff(s: Store, req: ChatRequest, msgs: seq<Message>, second: Invocation)
    requires !req.stream
    requires forall j :: 0 <= j < |msgs| ==> ProcessToolCalls(msgs[j]) == Done(None)
    ensures var t := Chat(s, req, Returned(msgs), second);
            var k := UserKeyOf(req.context);
      && t.reply == Replies(Formatted(msgs))
      && AgentOf(t.store, k) == TurnAgent(s, k)
      && |t.calls| == 1
  {
    ScanWithoutSignals(msgs);
  }

  /** A streaming turn behaves as a non-streaming turn over the content-bearing
      chunks, except that the first call is made with streaming on. */
  lemma StreamTurnIsTurnOverContentChunks(s: Store, req: ChatRequest, chunks: seq<Message>, second: Invocation)
    requires req.stream
    ensures var t := Chat(s, req, Returned(chunks), second);
            var u := Chat(s, req.(stream := false), Returned(ContentBearing(chunks)), second);
      && t.store == u.store && t.reply == u.reply && t.calls[1..] == u.calls[1..]
  {
    StreamIgnoresContentlessChunks(chunks);
  }

  /** No reply list ever holds more than one reply per message (or chunk) of
      the first call's output plus one, and every reply has content. */
  lemma RepliesHaveContent(s: Store, req: ChatRequest, first: Invocation, second: Invocation)
    requires first.Returned?
    requires Chat(s, req, first, second).reply.Replies?
    ensures var items := Chat(s, req, first, second).reply.items;
      && |items| <= |first.messages| + 1
      && forall j :: 0 <= j < |items| ==> |items[j].content| > 0
    decreases req.stream
  {
    if req.stream {
      var chunks := first.messages;
      StreamTurnIsTurnOverContentChunks(s, req, chunks, second);
      RepliesHaveContent(s, req.(stream := false), Returned(ContentBearing(chunks)), second);
      return;
    }
    var msgs := first.messages;
    if i :| 0 <= i < |msgs| && ProcessToolCalls(msgs[i]) != Done(None) {
      var m := FirstSignal(msgs, i);
      ScanStopsAtFirstSignal(msgs, m);
    } else {
      ScanWithoutSignals(msgs);
    }
  }

  /** The least index at or below `i` whose message carries a signal. */
  function FirstSignal(msgs: seq<Message>, i: nat): (m: nat)
    requires i < |msgs| && ProcessToolCalls(msgs[i]) != Done(None)
    ensures m <= i && ProcessToolCalls(msgs[m]) != Done(None)
    ensures forall j :: 0 <= j < m ==> ProcessToolCalls(msgs[j]) == Done(None)
    decreases i
  {
    if forall j :: 0 <= j < i ==> ProcessToolCalls(msgs[j]) == Done(None) then i
    else
      var j :| 0 <= j < i && ProcessToolCalls(msgs[j]) != Done(None);
      FirstSignal(msgs, j)
  }

  /** `reset_agent` of fastapi_app.py and flask_app.py: drops the history,
      assigns the starting agent and reports its name. */
  function ResetAgent(s: Store, userId: string): (r: (Store, string))
    ensures UserId(userId) !in r.0.conversations
    ensures AgentOf(r.0, UserId(userId)) == StartingAgent && UserId(userId) in r.0.agents
    ensures SameElsewhere(s, r.0, UserId(userId))
    ensures Valid(s) ==> Valid(r.0)
    ensures r.1 == "Triage Agent"
  {
    var k := UserId(userId);
    (Store(s.conversations - {k}, s.agents[k := StartingAgent]), Name(StartingAgent))
  }

  /** Resetting twice is resetting once. */
  lemma ResetIdempotent(s: Store, userId: string)
    ensures ResetAgent(ResetAgent(s, userId).0, userId) == ResetAgent(s, userId)
  {
    var k := UserId(userId);
    var once := ResetAgent(s, userId).0;
    assert once.conversations - {k} == s.conversations - {k};
    assert once.agents[k := StartingAgent] == s.agents[k := StartingAgent];
  }

  /** After a reset the next turn starts from an empty history with the starting agent. */
  lemma ChatAfterResetStartsFresh(s: Store, userId: string, req: ChatRequest, first: Invocation, second: Invocation)
    requires UserKeyOf(req.context) == UserId(userId)
    ensures Chat(ResetAgent(s, userId).0, req, first, second).calls[0]
              == RunCall(StartingAgent, [UserMessage(req.message)], req.stream)
  {
  }

  /** `reset_agent` of app.py: only the agent is reset; the history is kept. */
  function ResetAgentKeepHistory(s: Store, userId: string): (r: Store)
    ensures r.conversations == s.conversations
    ensures AgentOf(r, UserId(userId)) == StartingAgent && UserId(userId) in r.agents
    ensures SameElsewhere(s, r, UserId(userId))
    ensures Valid(s) ==> Valid(r)
  {
    s.(agents := s.agents[UserId(userId) := StartingAgent])
  }

  /** After app.py's reset the next turn runs the starting agent on the whole old history. */
  lemma ChatAfterAgentResetKeepsHistory(s: Store, userId: string, req: ChatRequest, first: Invocation, second: Invocation)
    requires UserKeyOf(req.context) == UserId(userId)
    ensures Chat(ResetAgentKeepHistory(s, userId), req, first, second).calls[0]
              == RunCall(StartingAgent, History(s, UserId(userId)) + [UserMessage(req.message)], req.stream)
  {
  }

  /** A turn reads nothing but its own user's session: on two stores that agree
      on that session, it makes the same calls, gives the same reply and leaves
      the same session behind. */
  lemma ChatSeesOnlyOwnSession(s1: Store, s2: Store, req: ChatRequest, first: Invocation, second: Invocation)
    requires var k := UserKeyOf(req.context);
      && (k in s1.conversations <==> k in s2.conversations)
      && History(s1, k) == History(s2, k) && AgentOf(s1, k) == AgentOf(s2, k)
    ensures var t1 := Chat(s1, req, first, second);
            var t2 := Chat(s2, req, first, second);
            var k := UserKeyOf(req.context);
      && t1.calls == t2.calls && t1.reply == t2.reply
      && History(t1.store, k) == History(t2.store, k) && AgentOf(t1.store, k) == AgentOf(t2.store, k)
  {
  }

  /** The inputs of one turn. */
  datatype TurnInput = TurnInput(request: ChatRequest, first: Invocation, second: Invocation)

  /** The store after a sequence of turns. */
  function Replay(s: Store, turns: seq<TurnInput>): Store
    decreases |turns|
  {
    if |turns| == 0 then s
    else Replay(Chat(s, turns[0].request, turns[0].first, turns[0].second).store, turns[1..])
  }

  /** Each turn, run on the store its predecessors left, returns at least one reply. */
  predicate AllAnswered(s: Store, turns: seq<TurnInput>)
    decreases |turns|
  {
    |turns| == 0 ||
    var t := Chat(s, turns[0].request, turns[0].first, turns[0].second);
    t.reply.Replies? && |t.reply.items| > 0 && AllAnswered(t.store, turns[1..])
  }

  /** N answered turns of one user add exactly 2N messages to that user's history. */
  lemma {:induction false} AnsweredTurnsAddTwoEach(s: Store, k: UserKey, turns: seq<TurnInput>)
    requires forall j :: 0 <= j < |turns| ==> UserKeyOf(turns[j].request.context) == k
    requires AllAnswered(s, turns)
    ensures |History(Replay(s, turns), k)| == |History(s, k)| + 2 * |turns|
    decreases |turns|
  {
    if |turns| > 0 {
      var t := Chat(s, turns[0].request, turns[0].first, turns[0].second);
      AnsweredTurnsAddTwoEach(t.store, k, turns[1..]);
    }
  }
}
