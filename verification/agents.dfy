/**
 The agent registry of core.py: the five agents, the callables each one lists
 in its `functions`, and the transfer graph those callables induce. Prompt
 text and models are left out; only names and tool lists matter to routing.
 */
module Agents {
  import opened ApiModels

  datatype AgentId = Triage | Lister | Adder | Deleter | Updater

  /** The `name` each agent is declared with. */
  function Name(a: AgentId): string {
    match a
    case Triage => "Triage Agent"
    case Lister => "Agent Lister"
    case Adder => "Agent Adder"
    case Deleter => "Agent Deleter"
    case Updater => "Agent Updater"
  }

  /** The agent every new or reset session is assigned. */
  const StartingAgent: AgentId := Triage

  /** The module-level callables that appear in some agent's `functions`. */
  datatype Tool =
    | TalkToLister | TalkToAdder | TalkToDeleter | TalkToUpdater | TalkToTriageAgent
    | UserInfo | GetAllProducts | InsertAProduct | DeleteAProduct | UpdateAProduct

  /** The Python name of a callable, which is the name a tool call carries. */
  function ToolName(t: Tool): string {
    match t
    case TalkToLister => "talk_to_lister"
    case TalkToAdder => "talk_to_adder"
    case TalkToDeleter => "talk_to_deleter"
    case TalkToUpdater => "talk_to_updater"
    case TalkToTriageAgent => "talk_to_triage_agent"
    case UserInfo => "user_info"
    case GetAllProducts => "get_all_products"
    case InsertAProduct => "insert_a_product"
    case DeleteAProduct => "delete_a_product"
    case UpdateAProduct => "update_a_product"
  }

  /** The agent carried by the `Result` a transfer function returns; domain
      tools carry none. */
  function TransferTarget(t: Tool): Option<AgentId> {
    match t
    case TalkToLister => Some(Lister)
    case TalkToAdder => Some(Adder)
    case TalkToDeleter => Some(Deleter)
    case TalkToUpdater => Some(Updater)
    case TalkToTriageAgent => Some(Triage)
    case _ => None
  }

  /** Each agent's `functions` list, in declaration order. */
  function Functions(a: AgentId): seq<Tool> {
    match a
    case Triage => [TalkToLister, TalkToAdder, TalkToDeleter, TalkToUpdater, UserInfo]
    case Lister => [GetAllProducts, UserInfo, TalkToTriageAgent]
    case Adder => [InsertAProduct, UserInfo, TalkToTriageAgent]
    case Deleter => [DeleteAProduct, UserInfo, TalkToTriageAgent]
    case Updater => [UpdateAProduct, GetAllProducts, UserInfo, TalkToTriageAgent]
  }

  /** The agents `a` may hand a conversation to: the targets of its transfer functions. */
  function Transfers(a: AgentId): set<AgentId> {
    set t | t in Functions(a) && TransferTarget(t).Some? :: TransferTarget(t).value
  }

  /** `b` is an edge of the transfer graph out of `a`. */
  predicate CanTransfer(a: AgentId, b: AgentId) {
    b in Transfers(a)
  }

  /** The triage agent reaches exactly the four specialists, and never itself. */
  lemma TriageTransfers()
    ensures Transfers(Triage) == {Lister, Adder, Deleter, Updater}
    ensures forall b :: CanTransfer(Triage, b) <==> b != Triage
  {
    var fs := Functions(Triage);
    assert TransferTarget(fs[0]) == Some(Lister);
    assert TransferTarget(fs[1]) == Some(Adder);
    assert TransferTarget(fs[2]) == Some(Deleter);
    assert TransferTarget(fs[3]) == Some(Updater);
    assert TransferTarget(fs[4]) == None;
  }

  /** Every specialist's only transfer function leads back to triage. */
  lemma SpecialistTransfers(a: AgentId)
    requires a != Triage
    ensures Transfers(a) == {Triage}
    ensures forall b :: CanTransfer(a, b) <==> b == Triage
  {
    var fs := Functions(a);
    assert TransferTarget(fs[|fs| - 1]) == Some(Triage);
    assert forall i :: 0 <= i < |fs| - 1 ==> TransferTarget(fs[i]) == None;
  }

  /** No agent can hand a conversation to itself. */
  lemma NoSelfTransfer(a: AgentId)
    ensures !CanTransfer(a, a)
    ensures a !in Transfers(a)
  {
  }

  /** The graph is a star around triage: any agent reaches any other in at most two transfers. */
  lemma TwoHopsSuffice(a: AgentId, b: AgentId)
    ensures a == b || CanTransfer(a, b) || (CanTransfer(a, Triage) && CanTransfer(Triage, b))
  {
    TriageTransfers();
    if a != Triage {
      SpecialistTransfers(a);
    }
  }

  /** Distinct callables have distinct names, so a tool call's name identifies one callable. */
  lemma ToolNamesDistinct(t: Tool, u: Tool)
    ensures ToolName(t) == ToolName(u) <==> t == u
  {
  }
}
