/**
 * The supervisor call centre: a Supervisor node classifies the user's prompt,
 * routes it to at most one specialist node, the specialist answers and hands
 * back to the Supervisor, which ends the run. Every agent is an oracle.
 */
module CallCentreGraph {
  import opened Wrappers
  import opened Messages

  datatype Specialist = General | Billing | Account | Products | Services | Technical

  /** The graph's nodes, and End for the end of a run. */
  datatype Node =
    | Supervisor
    | BillingAccountSpecialist
    | ProductServiceSpecialist
    | TechnicalSupportSpecialist
    | End

  predicate IsSpecialistNode(n: Node) {
    n.BillingAccountSpecialist? || n.ProductServiceSpecialist? || n.TechnicalSupportSpecialist?
  }

  const SystemPromptKind := "system-prompt"

  datatype CallCentreResponse = CallCentreResponse(specialist: Specialist, response: Option<string>)

  /** The Supervisor agent's structured answer. */
  datatype SupervisorResponse = SupervisorResponse(specialist: Specialist, generalResponse: Option<string>)

  /** An agent run: its data and the whole conversation it ends with. */
  datatype RunResult<T> = RunResult(data: T, allMessages: seq<Message>)

  /** The Supervisor agent, given the prompt and the message history. */
  type SupervisorAgent = (Option<string>, seq<Message>) -> RunResult<SupervisorResponse>

  /** The agent of a specialist node, given the prompt and the message history. */
  type SpecialistAgent = (Node, Option<string>, seq<Message>) -> RunResult<string>

  /**
   * The Supervisor's case table: the specialist node a classification is sent
   * to, or None when the Supervisor answers a General query itself.
   */
  function Route(s: Specialist): (r: Option<Node>)
    ensures r == Some(BillingAccountSpecialist) <==> s == Account || s == Billing
    ensures r == Some(ProductServiceSpecialist) <==> s == Products || s == Services
    ensures r == Some(TechnicalSupportSpecialist) <==> s == Technical
    ensures r == None <==> s == General
  {
    match s
    case Account | Billing => Some(BillingAccountSpecialist)
    case Products | Services => Some(ProductServiceSpecialist)
    case Technical => Some(TechnicalSupportSpecialist)
    case General => None
  }

  /** What one question produces: the response, the shared history after it, the nodes run. */
  datatype Outcome = Outcome(response: CallCentreResponse, history: seq<Message>, path: seq<Node>)

  /**
   * One question put to the call centre whose shared history is `history`:
   * the Supervisor classifies it; a General query is answered by the
   * Supervisor, any other goes to one specialist and back to the Supervisor.
   */
  function Ask(prompt: string, history: seq<Message>, supervisor: SupervisorAgent, specialists: SpecialistAgent): (o: Outcome)
    ensures o.response.specialist == supervisor(Some(prompt), history).data.specialist
    ensures NoPartOfKind(o.history, SystemPromptKind)
    ensures |o.path| == 1 || |o.path| == 3
    ensures o.path[0] == Supervisor && o.path[|o.path| - 1] == Supervisor
    ensures |o.path| == 1 <==> Route(o.response.specialist) == None
    ensures |o.path| == 3 ==> Route(o.response.specialist) == Some(o.path[1])
    ensures |o.path| == 1 ==> o.response.response == supervisor(Some(prompt), history).data.generalResponse
    ensures |o.path| == 3 ==>
      o.response.response == Some(specialists(o.path[1], Some(prompt),
                                               StripKind(supervisor(Some(prompt), history).allMessages, SystemPromptKind)).data)
    ensures |o.path| == 1 ==> o.history == StripKind(supervisor(Some(prompt), history).allMessages, SystemPromptKind)
    ensures |o.path| == 3 ==>
      o.history == StripKind(specialists(o.path[1], Some(prompt),
                                         StripKind(supervisor(Some(prompt), history).allMessages, SystemPromptKind)).allMessages,
                             SystemPromptKind)
  {
    var reply := supervisor(Some(prompt), history);
    var routed := StripKind(reply.allMessages, SystemPromptKind);
    StripKindRemovesAll(reply.allMessages, SystemPromptKind);
    match Route(reply.data.specialist)
    case None =>
      Outcome(CallCentreResponse(reply.data.specialist, reply.data.generalResponse), routed, [Supervisor])
    case Some(node) =>
      var answer := specialists(node, Some(prompt), routed);
      StripKindRemovesAll(answer.allMessages, SystemPromptKind);
      Outcome(CallCentreResponse(reply.data.specialist, Some(answer.data)),
              StripKind(answer.allMessages, SystemPromptKind),
              [Supervisor, node, Supervisor])
  }

  /** The state carried through a run; `history` is the one shared by every state. */
  class GraphState {
    var prompt: Option<string>
    var specialist: Specialist
    var response: Option<CallCentreResponse>
    const history: MessageHistory

    constructor(shared: MessageHistory)
      ensures prompt == None && specialist == General && response == None
      ensures history == shared
    {
      prompt := None;
      specialist := General;
      response := None;
      history := shared;
    }
  }

  /** Shared by every node: drop system prompts from the history and record the response. */
  method Finalize(state: GraphState, text: Option<string>)
    modifies state, state.history
    ensures state.history.messages == StripKind(old(state.history.messages), SystemPromptKind)
    ensures state.response == Some(CallCentreResponse(old(state.specialist), text))
    ensures state.prompt == old(state.prompt) && state.specialist == old(state.specialist)
  {
    var _ := state.history.RemovePartKind(SystemPromptKind);
    state.response := Some(CallCentreResponse(state.specialist, text));
  }

  /**
   * The Supervisor node. Without a response yet it asks its agent, replaces the
   * history by the agent's conversation minus system prompts, records the
   * classification and routes it; with a response it ends the run.
   */
  method SupervisorRun(state: GraphState, agent: SupervisorAgent) returns (next: Node)
    modifies state, state.history
    ensures old(state.response).Some? ==>
      next == End && unchanged(state) && unchanged(state.history)
    ensures old(state.response).None? ==>
      var reply := agent(old(state.prompt), old(state.history.messages));
      && state.prompt == old(state.prompt)
      && state.specialist == reply.data.specialist
      && state.history.messages == StripKind(reply.allMessages, SystemPromptKind)
      && match Route(reply.data.specialist)
         case Some(n) => next == n && state.response == None
         case None =>
           next == End
           && state.response == Some(CallCentreResponse(reply.data.specialist, reply.data.generalResponse))
  {
    if state.response.None? {
      var result := agent(state.prompt, state.history.messages);
      var self := state.history.Assign(result.allMessages);
      self := self.RemovePartKind(SystemPromptKind);
      state.specialist := result.data.specialist;
      var target := Route(result.data.specialist);
      if target.Some? {
        return target.value;
      }
      StripKindIdempotent(result.allMessages, SystemPromptKind);
      Finalize(state, result.data.generalResponse);
    }
    next := End;
  }

  /**
   * A specialist node (billing/account, products/services or technical
   * support): asks its own agent, replaces the history by that agent's
   * conversation, finalizes with the agent's text and hands back to the Supervisor.
   */
  method SpecialistRun(which: Node, state: GraphState, agent: SpecialistAgent) returns (next: Node)
    requires IsSpecialistNode(which)
    modifies state, state.history
    ensures next == Supervisor
    ensures
      var reply := agent(which, old(state.prompt), old(state.history.messages));
      && state.prompt == old(state.prompt)
      && state.specialist == old(state.specialist)
      && state.history.messages == StripKind(reply.allMessages, SystemPromptKind)
      && state.response == Some(CallCentreResponse(old(state.specialist), Some(reply.data)))
  {
    var result := agent(which, state.prompt, state.history.messages);
    var _ := state.history.Assign(result.allMessages);
    Finalize(state, Some(result.data));
    next := Supervisor;
  }

  class CallCentre {
    var state: GraphState

    /** The call centre starts with a state over the class-level shared history. */
    constructor(shared: MessageHistory)
      ensures fresh(state) && state.history == shared
      ensures state.prompt == None && state.specialist == General && state.response == None
    {
      state := new GraphState(shared);
    }

    /**
     * A new state object; its history is still the shared one, so the messages
     * of earlier questions stay.
     */
    method ResetState()
      modifies this
      ensures fresh(state)
      ensures state.history == old(state.history)
      ensures state.history.messages == old(state.history.messages)
      ensures state.prompt == None && state.specialist == General && state.response == None
    {
      state := new GraphState(state.history);
    }

    /**
     * Puts the prompt in the state, clears the response, runs the graph from
     * the Supervisor until End and returns the response written during the run.
     */
    method AskAsync(prompt: string, supervisor: SupervisorAgent, specialists: SpecialistAgent)
      returns (r: Option<CallCentreResponse>, ghost path: seq<Node>)
      modifies state, state.history
      ensures
        var o := Ask(prompt, old(state.history.messages), supervisor, specialists);
        && r == Some(o.response)
        && state.history.messages == o.history
        && path == o.path
        && state.prompt == Some(prompt)
        && state.specialist == o.response.specialist
        && state.response == r
      ensures NoPartOfKind(state.history.messages, SystemPromptKind)
    {
      state.prompt := Some(prompt);
      state.response := None;
      ghost var o := Ask(prompt, old(state.history.messages), supervisor, specialists);
      ghost var reply := supervisor(Some(prompt), old(state.history.messages));
      var node := Supervisor;
      path := [];
      while node != End
        invariant state.prompt == Some(prompt)
        invariant |path| <= |o.path|
        invariant path == o.path[..|path|]
        invariant node == End <==> |path| == |o.path|
        invariant |path| == 0 ==>
          node == Supervisor && state.response == None && state.history.messages == old(state.history.messages)
        invariant |path| == 1 && node != End ==>
          && node == o.path[1] && state.response == None
          && state.specialist == reply.data.specialist
          && state.history.messages == StripKind(reply.allMessages, SystemPromptKind)
        invariant |path| == 2 ==> node == Supervisor
        invariant |path| >= 2 || node == End ==>
          && state.response == Some(o.response)
          && state.specialist == o.response.specialist
          && state.history.messages == o.history
        decreases |o.path| - |path|
      {
        path := path + [node];
        if node == Supervisor {
          node := SupervisorRun(state, supervisor);
        } else {
          node := SpecialistRun(node, state, specialists);
        }
      }
      r := state.response;
    }
  }
}
