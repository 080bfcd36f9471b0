/** The per-conversation state the chat participant keeps between turns: a
    map from conversation id to the step reached and the chosen target. */
module ConversationState {
  import opened Assets

  /** A conversation's state: the step reached, the threat modeler chosen and
      the graph text, when they are known. */
  datatype State = State(step: string, threatModeler: Option<string>, graph: Option<string>)

  /** `{ step: 'start' }`, what a conversation with nothing stored is in. */
  const Initial := State("start", None, None)

  /** `states.get(id) || { step: 'start' }`. A stored state is an object and so
      never falsy, so whatever is stored is returned. */
  function Lookup(states: map<string, State>, id: string): (s: State)
    ensures id in states ==> s == states[id]
    ensures id !in states ==> s == Initial
  {
    if id in states then states[id] else Initial
  }

  /** After `setState`, the conversation reads back the state set, and every
      other conversation reads what it read before. */
  lemma SetThenGet(states: map<string, State>, id: string, s: State, other: string)
    ensures Lookup(states[id := s], id) == s
    ensures other != id ==> Lookup(states[id := s], other) == Lookup(states, other)
  {
  }

  /** After `clearState`, the conversation is back at the start, and every
      other conversation reads what it read before. */
  lemma ClearThenGet(states: map<string, State>, id: string, other: string)
    ensures Lookup(states - {id}, id) == Initial
    ensures other != id ==> Lookup(states - {id}, other) == Lookup(states, other)
  {
  }

  /** Setting a state and then clearing it leaves the conversation where an
      unknown one would be, whatever was stored before. */
  lemma SetThenClear(states: map<string, State>, id: string, s: State)
    ensures Lookup(states[id := s] - {id}, id) == Initial
    ensures states[id := s] - {id} == states - {id}
  {
  }

  class StateManager {
    var states: map<string, State>

    /** A manager that knows no conversation yet. */
    constructor ()
      ensures states == map[]
    {
      states := map[];
    }

    /** `getState`. */
    function GetState(conversationId: string): (s: State)
      reads this
      ensures conversationId in states ==> s == states[conversationId]
      ensures conversationId !in states ==> s == Initial
    {
      Lookup(states, conversationId)
    }

    /** `setState`: stores the state, replacing any earlier one. */
    method SetState(conversationId: string, state: State)
      modifies this
      ensures states == old(states)[conversationId := state]
      ensures GetState(conversationId) == state
      ensures forall id :: id != conversationId ==> GetState(id) == old(GetState(id))
    {
      states := states[conversationId := state];
    }

    /** `clearState`: forgets the conversation. */
    method ClearState(conversationId: string)
      modifies this
      ensures states == old(states) - {conversationId}
      ensures GetState(conversationId) == Initial
      ensures forall id :: id != conversationId ==> GetState(id) == old(GetState(id))
    {
      states := states - {conversationId};
    }
  }
}
