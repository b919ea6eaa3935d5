/** The chat's global state, `AIChatProvider`: whether the chat window is open and the
    query it was opened with, the two callbacks that change them, and `useAIChat`,
    which fails outside a provider. */
module ChatContext {
  import opened Wrappers

  /** The value the provider hands to its consumers, without the two callbacks. */
  datatype ChatState = ChatState(isOpen: bool, initialQuery: string)

  /** The provider's first render: closed, with an empty query. */
  const Initial: ChatState := ChatState(false, "")

  /** The message `useAIChat` throws when no provider is above the caller. */
  const MissingProvider: string := "useAIChat must be used within an AIChatProvider"

  /** `openChat(query)`: an omitted query (`None`) defaults to the empty string. */
  function Open(s: ChatState, query: Option<string>): ChatState {
    ChatState(true, if query.Some? then query.value else "")
  }

  /** `closeChat()`. */
  function Close(s: ChatState): ChatState {
    ChatState(false, "")
  }

  /** Opening always shows the chat with the given query, and an omitted query is the
      same as passing the empty string. */
  lemma OpenShows(s: ChatState, q: string)
    ensures Open(s, Some(q)).isOpen && Open(s, Some(q)).initialQuery == q
    ensures Open(s, None) == Open(s, Some(""))
  {
  }

  /** What `openChat` leaves behind does not depend on the state it was called in. */
  lemma OpenForgets(s: ChatState, t: ChatState, query: Option<string>)
    ensures Open(s, query) == Open(t, query)
  {
  }

  /** Opening a chat that is already open only replaces the query. */
  lemma ReopenReplacesQuery(s: ChatState, q: string)
    requires s.isOpen
    ensures Open(s, Some(q)) == s.(initialQuery := q)
  {
  }

  /** Closing returns exactly to the initial state, so closing twice is closing once,
      and opening then closing leaves no trace of the query. */
  lemma CloseResets(s: ChatState, query: Option<string>)
    ensures Close(s) == Initial
    ensures Close(Close(s)) == Close(s)
    ensures Close(Open(s, query)) == Initial
  {
  }

  /** `useAIChat`: the context value (`None` when no provider is above the caller) or
      the missing-provider error. */
  function UseAIChat(context: Option<ChatState>): (r: Result<ChatState, string>)
    ensures r.Failure? <==> context.None?
    ensures r.Failure? ==> r.error == MissingProvider
    ensures r.Success? ==> r.value == context.value
  {
    match context
    case None => Failure(MissingProvider)
    case Some(value) => Success(value)
  }

  /** The provider's two state variables. */
  class AIChatProvider {
    var isOpen: bool
    var initialQuery: string

    function State(): ChatState
      reads this
    {
      ChatState(isOpen, initialQuery)
    }

    constructor ()
      ensures State() == Initial
    {
      isOpen := false;
      initialQuery := "";
    }

    /** `openChat(query = '')`: first the query, then the flag. */
    method OpenChat(query: Option<string>)
      modifies this
      ensures State() == Open(old(State()), query)
    {
      initialQuery := if query.Some? then query.value else "";
      isOpen := true;
    }

    /** `closeChat()`: first the flag, then the query. */
    method CloseChat()
      modifies this
      ensures State() == Close(old(State()))
    {
      isOpen := false;
      initialQuery := "";
    }
  }
}
