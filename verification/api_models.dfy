/**
 Record shapes exchanged between the chat endpoints, the language-model
 collaborator and the reply formatter (project/api_models.py). Messages are
 the dictionaries the model collaborator produces, so every key they may lack
 is an `Option`.
 */
module ApiModels {

  /** A value that may be absent: a missing dictionary key or a Python `None`. */
  datatype Option<+T> = None | Some(value: T) {

    /** The carried value, or `default` when absent. */
    function GetOr(default: T): T {
      match this
      case Some(v) => v
      case None => default
    }
  }

  /** Python truthiness of an optional string: both an absent value and "" are falsy. */
  predicate Truthy(s: Option<string>) {
    s.Some? && |s.value| > 0
  }

  /** The `function` entry of a tool call. A `None` name stands for an entry
      without a "name" key, which makes the lookup `["name"]` raise. */
  datatype FunctionRef = FunctionRef(name: Option<string>)

  /** One element of a message's `tool_calls` list; `functionEntry` is `None` when
      the "function" key is absent, as in an empty dictionary. */
  datatype ToolCall = ToolCall(functionEntry: Option<FunctionRef>)

  /** A message produced by the model collaborator, a streamed chunk, or a
      history entry. An empty dictionary is `Message(None, None, None, None)`. */
  datatype Message = Message(
    role: Option<string>,
    content: Option<string>,
    toolCalls: Option<seq<ToolCall>>,
    sender: Option<string>)

  /** `message.get("content")` is truthy. */
  predicate HasContent(m: Message) {
    Truthy(m.content)
  }

  /** The history entry `{"role": "user", "content": text}`. */
  function UserMessage(text: string): Message {
    Message(Some("user"), Some(text), None, None)
  }

  /** The history entry `{"role": "assistant", "content": text}`. */
  function AssistantMessage(text: string): Message {
    Message(Some("assistant"), Some(text), None, None)
  }

  /** A chat request after validation; an omitted `stream` has become `false`. */
  datatype ChatRequest = ChatRequest(message: string, context: map<string, string>, stream: bool)

  /** One reply unit returned to the caller. */
  datatype ChatResponse = ChatResponse(sender: string, content: string, agentSwitch: Option<string>)

  /** The sender a reply falls back to. */
  const DefaultSender: string := "assistant"
}
