/**
 Handoff detection and reply formatting (project/api_utils.py): the fixed
 table from transfer-tool names to agents, the scan of a message's tool calls
 for the first recognised transfer, and the conversion of a raw message into
 a reply unit.
 */
module ApiUtils {
  import opened ApiModels
  import opened Agents

  /** `AgentSwitchHandler.agent_functions`: the five recognised transfer names. */
  const HandoffTable: map<string, AgentId> := map[
    "talk_to_lister" := Lister,
    "talk_to_adder" := Adder,
    "talk_to_deleter" := Deleter,
    "talk_to_updater" := Updater,
    "talk_to_triage_agent" := Triage
  ]

  /** A computation that either returns a value or raises; the only exception
      here is the `KeyError` of a function entry without a name. */
  datatype Outcome<+T> = Done(value: T) | Raised

  /** `agent_functions.get(name)`. */
  function Lookup(name: string): (r: Option<AgentId>) {
    if name in HandoffTable then Some(HandoffTable[name]) else None
  }

  /** `AgentSwitchHandler.handle_tool_call`. */
  function HandleToolCall(tc: ToolCall): (r: Outcome<Option<AgentId>>)
    ensures tc.functionEntry.None? ==> r == Done(None)
    ensures r.Raised? <==> tc.functionEntry.Some? && tc.functionEntry.value.name.None?
    ensures r.Done? && r.value.Some? ==>
              tc.functionEntry.Some? && tc.functionEntry.value.name.Some? &&
              tc.functionEntry.value.name.value in HandoffTable &&
              HandoffTable[tc.functionEntry.value.name.value] == r.value.value
    ensures tc.functionEntry.Some? && tc.functionEntry.value.name.Some? &&
            tc.functionEntry.value.name.value in HandoffTable ==>
              r == Done(Some(HandoffTable[tc.functionEntry.value.name.value]))
  {
    match tc.functionEntry
    case None => Done(None)
    case Some(f) =>
      match f.name
      case None => Raised
      case Some(n) => Done(Lookup(n))
  }

  /** The tool call with the given name. */
  function CallTo(name: string): ToolCall {
    ToolCall(Some(FunctionRef(Some(name))))
  }

  /** The table holds exactly the five transfer names; any other name is no handoff. */
  lemma HandoffNames(name: string)
    ensures HandoffTable.Keys ==
              {"talk_to_lister", "talk_to_adder", "talk_to_deleter", "talk_to_updater", "talk_to_triage_agent"}
    ensures name !in HandoffTable.Keys ==> HandleToolCall(CallTo(name)) == Done(None)
  {
  }

  /** The table agrees with core.py: a callable's name is recognised exactly when
      the callable is a transfer function, and then it names the agent that
      function returns. In particular no domain tool name is a handoff. */
  lemma TableMatchesTransferFunctions(t: Tool)
    ensures HandleToolCall(CallTo(ToolName(t))) == Done(TransferTarget(t))
  {
  }

  /** Position `i` is the first tool call that either names a known transfer or raises. */
  predicate IsFirstDecisive(calls: seq<ToolCall>, i: int) {
    && 0 <= i < |calls|
    && HandleToolCall(calls[i]) != Done(None)
    && forall j :: 0 <= j < i ==> HandleToolCall(calls[j]) == Done(None)
  }

  /** The loop of `process_tool_calls`: the first tool call, in list order,
      that yields an agent (or raises) decides; later ones are never looked at. */
  function FirstSwitch(calls: seq<ToolCall>): (r: Outcome<Option<AgentId>>)
    ensures r == Done(None) <==> forall j :: 0 <= j < |calls| ==> HandleToolCall(calls[j]) == Done(None)
    ensures r != Done(None) ==> exists i :: IsFirstDecisive(calls, i) && r == HandleToolCall(calls[i])
    decreases |calls|
  {
    if |calls| == 0 then Done(None)
    else
      var h := HandleToolCall(calls[0]);
      if h != Done(None) then
        assert IsFirstDecisive(calls, 0);
        h
      else
        var r := FirstSwitch(calls[1..]);
        assert forall j :: 1 <= j < |calls| ==> calls[j] == calls[1..][j - 1];
        if r != Done(None) then
          var i :| IsFirstDecisive(calls[1..], i) && r == HandleToolCall(calls[1..][i]);
          assert IsFirstDecisive(calls, i + 1);
          r
        else
          r
  }

  /** `process_tool_calls`: an absent or empty `tool_calls` list is no handoff
      (an empty message has no `tool_calls` key either). */
  function ProcessToolCalls(m: Message): (r: Outcome<Option<AgentId>>)
    ensures (m.toolCalls.None? || |m.toolCalls.value| == 0) ==> r == Done(None)
    ensures m.toolCalls.Some? ==> r == FirstSwitch(m.toolCalls.value)
  {
    if m.toolCalls.None? || |m.toolCalls.value| == 0 then Done(None)
    else FirstSwitch(m.toolCalls.value)
  }

  /** The first recognised transfer wins: a message whose tool calls name two
      transfers hands off to the first, and unrecognised names before it are skipped. */
  lemma FirstRecognisedTransferWins(m: Message, i: nat, a: AgentId)
    requires m.toolCalls.Some? && i < |m.toolCalls.value|
    requires HandleToolCall(m.toolCalls.value[i]) == Done(Some(a))
    requires forall j :: 0 <= j < i ==> HandleToolCall(m.toolCalls.value[j]) == Done(None)
    ensures ProcessToolCalls(m) == Done(Some(a))
  {
  }

  /** The tool calls an agent can make: one per callable in its `functions`. */
  function OwnCalls(a: AgentId): set<ToolCall> {
    set t | t in Functions(a) :: CallTo(ToolName(t))
  }

  /** A tool call the current agent can make hands off, if at all, along an
      edge of the transfer graph, and so never to the current agent itself. */
  lemma OwnTransferFollowsGraph(current: AgentId, tc: ToolCall, b: AgentId)
    requires tc in OwnCalls(current)
    requires HandleToolCall(tc) == Done(Some(b))
    ensures CanTransfer(current, b)
    ensures b != current
  {
  }

  /** Under the registry, a handoff always changes the agent: when every tool
      call of a message names a callable of the current agent, any handoff it
      carries leads along an edge of the transfer graph, never to the current
      agent itself. */
  lemma HandoffFollowsGraph(current: AgentId, m: Message, b: AgentId)
    requires m.toolCalls.Some?
    requires forall j :: 0 <= j < |m.toolCalls.value| ==> m.toolCalls.value[j] in OwnCalls(current)
    requires ProcessToolCalls(m) == Done(Some(b))
    ensures CanTransfer(current, b)
    ensures b != current
  {
    var calls := m.toolCalls.value;
    var i :| IsFirstDecisive(calls, i) && Done(Some(b)) == HandleToolCall(calls[i]);
    OwnTransferFollowsGraph(current, calls[i], b);
  }

  /** `format_message`: no reply unless the content is truthy; otherwise the
      content is copied and the sender falls back from `sender` to `role` to
      "assistant". */
  function FormatMessage(m: Message, agentSwitch: Option<string>): (r: Option<ChatResponse>)
    ensures r.None? <==> !HasContent(m)
    ensures r.Some? ==> r.value.content == m.content.value && r.value.agentSwitch == agentSwitch
    ensures r.Some? ==> |r.value.sender| > 0
    ensures r.Some? && Truthy(m.sender) ==> r.value.sender == m.sender.value
    ensures r.Some? && !Truthy(m.sender) && Truthy(m.role) ==> r.value.sender == m.role.value
    ensures r.Some? && !Truthy(m.sender) && !Truthy(m.role) ==> r.value.sender == DefaultSender
  {
    if !HasContent(m) then None
    else
      var sender := if Truthy(m.sender) then m.sender.value
                    else if Truthy(m.role) then m.role.value
                    else DefaultSender;
      Some(ChatResponse(sender, m.content.value, agentSwitch))
  }
}
