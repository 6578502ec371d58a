# Agent routing and conversation state of swarm_db_api, in Dafny

This project models the part of swarm_db_api that routes a user's chat turns
between five LLM-backed agents and keeps per-user conversation state:

- **Handoff detection and reply formatting** (`project/api_utils.py`), module
  `ApiUtils`. A fixed table maps the five transfer-tool names to agents.
  `process_tool_calls` returns the agent named by the first recognised tool call
  of a message. `format_message` turns a message with content into a reply
  `(sender, content, agent_switch)`.
- **The turn dispatcher and the session store** (`chat` and `reset_agent` in
  `fastapi_app.py`, `flask_app.py` and `app.py`), module `Dispatcher`. The two
  module-level dictionaries become one immutable `Store`. One turn is the pure
  function `Chat(store, request, first, second)`. `first` and `second` are what
  the two `client.run` calls gave back: the first call and the re-invocation
  after a handoff. The turn returns the new store, the list of `client.run`
  calls it issued (agent, history, stream flag) and either the reply list or the
  500 error. The three `chat` copies run the same algorithm, so there is one
  `Chat`. The lemmas about it cite whichever copy shows the property. The
  `reset_agent` copies differ: `ResetAgent` is the one in fastapi_app.py and
  flask_app.py, and `ResetAgentKeepHistory` is the one in app.py.
- **The agent registry and the record tools** (`core.py`), modules `Agents` and
  `Products`. `Agents` holds the agents, their `functions` lists and the
  transfer graph those lists induce. `Products` holds the decision logic of
  `insert_a_product`, `update_a_product`, `delete_a_product` and
  `get_all_products` over an abstract product table (a sequence of rows).
- **Record shapes** (`project/api_models.py`), module `ApiModels`: messages, tool
  calls, requests and replies. Optional dictionary keys are `Option`s.

Behaviour of the code worth knowing:

- Streaming does not stop at the first content-bearing chunk. Only a handoff
  ends the loop (`StreamTurnIsTurnOverContentChunks`).
- No transition is checked for legality, and there is no "illegal transition"
  error. Any table hit switches the agent. `HandoffFollowsGraph` shows the
  switch still follows the graph whenever the tool calls come from the current
  agent's own `functions`.
- After a handoff, the reply list holds the replies formatted before the
  handoff, followed by the new agent's last message. It is not that last message
  alone (`NonStreamHandoff`).
- When the re-invocation raises, the agent switch made just before it stays in
  the store (`FailedTurnKeepsUserMessage`, `Chat`).
- In app.py, `reset_agent` keeps the history (`ResetAgentKeepHistory`).
- There is no per-user locking.

The model collaborator (`client.run`) is not modelled. Its two answers are
inputs. A failure while the stream is being consumed has the same effect as a
failure of the call itself. No handoff can have happened before it, because a
handoff ends the loop. So both are the input `Failed`.

## Model

| member | source | states |
|---|---|---|
| Agents.TriageTransfers | core.py:79-89 | The triage agent's transfer functions reach exactly lister, adder, deleter and updater, and never triage itself |
| Agents.SpecialistTransfers | core.py:150-374 | Each specialist's only transfer function is `talk_to_triage_agent`, so it can hand off to triage and nowhere else |
| Agents.NoSelfTransfer | core.py:79-89 | No agent lists a transfer to itself |
| Agents.TwoHopsSuffice | core.py:79-89 | The transfer graph is a star around triage: any agent reaches any other in at most two transfers |
| Agents.ToolNamesDistinct | core.py:21-315 | Distinct callables have distinct names, so a tool-call name identifies a single callable |
| ApiUtils.HandleToolCall | project/api_utils.py:18-31 | No "function" entry gives no agent, and a function entry without a name raises. Otherwise the result is the table entry for the name, and no agent when the name is not in the table |
| ApiUtils.HandoffNames | project/api_utils.py:10-16 | The table has exactly the five names `talk_to_lister/adder/deleter/updater/triage_agent`. A call to any other name gives no agent |
| ApiUtils.TableMatchesTransferFunctions | project/api_utils.py:10-16 | For every callable of core.py, a call to its name gives exactly the agent its transfer function returns. Domain tools give none |
| ApiUtils.FirstSwitch | project/api_utils.py:46-50 | The result is "no agent" exactly when every tool call gives none. Otherwise it is the outcome of the first tool call, in list order, that gives an agent or raises |
| ApiUtils.ProcessToolCalls | project/api_utils.py:34-50 | An absent or empty `tool_calls` gives no agent. Otherwise the result is the first-match scan of the list |
| ApiUtils.FirstRecognisedTransferWins | project/api_utils.py:46-49 | When tool call `i` names a known transfer and all earlier ones are unrecognised, the handoff goes to call `i`'s agent, whatever follows it |
| ApiUtils.OwnTransferFollowsGraph | project/api_utils.py:25-31 | A tool call naming one of the current agent's own callables hands off, if at all, along a graph edge, never to the current agent |
| ApiUtils.HandoffFollowsGraph | project/api_utils.py:28-31 | When every tool call names a callable of the current agent, any handoff follows a graph edge and so changes the agent, as the comment there intends |
| ApiUtils.FormatMessage | project/api_utils.py:53-69 | No reply exactly when content is absent or empty. Otherwise content is copied unchanged, `agent_switch` is the argument, and the sender is a non-empty `sender`, else a non-empty `role`, else "assistant" |
| Dispatcher.ScanOutput | fastapi_app.py:49-95 | The scan of the first call's output. Its contract bounds the replies by the number of messages and makes each of them a content-bearing reply without agent switch; the lemmas `ScanWithoutSignals`, `ScanStopsAtFirstSignal` and `StreamIgnoresContentlessChunks` pin down its result against the references `Formatted` and `ContentBearing` |
| Dispatcher.Persist | fastapi_app.py:97-101 | Only the last reply's content is appended to the user's history, as an assistant message, and nothing when there is no reply. The agents and other users' histories are untouched |
| Dispatcher.ScanLoop | fastapi_app.py:73-95 | The scan loop with its early exits computes the same decision as the recursive scan |
| Dispatcher.ScanWithoutSignals | flask_app.py:97-98 | With no handoff in the output, the replies are the content-bearing messages, formatted, in order |
| Dispatcher.ScanStopsAtFirstSignal | app.py:71-93 | The first message with a handoff ends the scan. The replies before it are the formatted content-bearing messages up to it, and nothing after it is read. A malformed tool call met first fails the scan |
| Dispatcher.StreamIgnoresContentlessChunks | fastapi_app.py:49-71 | Chunks without content are skipped, tool calls included. The streaming scan is the plain scan of the content-bearing chunks, and non-handoff chunks do not stop it |
| Dispatcher.HandoffReply | fastapi_app.py:86-92 | A handoff adds at most one reply: the re-invoked agent's last message, only if it has content, with `agent_switch` set to that agent's name and the sender chosen as `format_message` chooses it (sender, else role, else "assistant") |
| Dispatcher.Open | flask_app.py:37-43 | A user without history gets an empty history and the starting agent. An existing session is left as it is, and other users are untouched |
| Dispatcher.Chat | fastapi_app.py:23-108 | A turn grows the user's history by the user message, plus an assistant message with the last reply's content exactly when the reply list is non-empty. The first call runs the turn's agent on that history. A second call exists only after a handoff, and it runs the new current agent on the same history without streaming. Without a handoff the agent is unchanged. A raising first call, or a malformed tool call met first by the scan, ends the turn with a 500. Other users are untouched, and every user with a history keeps an agent |
| Dispatcher.FirstTurnStartsFresh | app.py:25-45 | The first turn of an unseen user runs the triage agent on the user message alone |
| Dispatcher.FailedTurnKeepsUserMessage | flask_app.py:47-108 | A turn ending in a 500 still records the user message and nothing more. If the first call failed, the agent is unchanged. If the re-invocation after a handoff failed, the agent stays switched to the re-invoked agent |
| Dispatcher.NonStreamHandoff | fastapi_app.py:74-93 | On a handoff at message `i`, the agent becomes the target even if its answer is empty. The target is re-invoked on the same history without streaming. The replies are those before `i` followed by at most the target's last message |
| Dispatcher.NonStreamWithoutHandoff | app.py:92-99 | Without a handoff every content-bearing message is replied, in order, the agent stays and only one call is made |
| Dispatcher.NonStreamToolCallFault | fastapi_app.py:73-108 | When the first signal in the output is a tool call without a function name, the `KeyError` ends the turn with a 500, only the user message is recorded, the agent is unchanged and no second call is made |
| Dispatcher.StreamTurnIsTurnOverContentChunks | flask_app.py:57-77 | A streaming turn leaves the same store and reply as a non-streaming turn over only the content-bearing chunks |
| Dispatcher.RepliesHaveContent | app.py:47-93 | In streaming and non-streaming turns alike, every reply has non-empty content, and there are at most as many replies as output messages (or chunks) plus one |
| Dispatcher.ResetAgent | fastapi_app.py:112-119 | Reset deletes the user's history, assigns the starting agent, reports "Triage Agent" and touches no other user |
| Dispatcher.ResetIdempotent | flask_app.py:121-132 | Resetting twice leaves the same store as resetting once |
| Dispatcher.ChatAfterResetStartsFresh | fastapi_app.py:117-118 | After a reset the next turn runs the triage agent on the new user message alone |
| Dispatcher.ResetAgentKeepHistory | app.py:110-116 | app.py's reset assigns the starting agent and leaves every history as it was |
| Dispatcher.ChatAfterAgentResetKeepsHistory | app.py:26-35 | After app.py's reset the next turn runs the triage agent on the whole old history plus the new message |
| Dispatcher.ChatSeesOnlyOwnSession | fastapi_app.py:27-44 | A turn reads only its own user's session. On two stores that agree on it, the turn makes the same calls, gives the same reply and leaves the same session |
| Dispatcher.AnsweredTurnsAddTwoEach | fastapi_app.py:97-101 | N consecutive turns of one user that each return at least one reply add exactly 2N history entries |
| Products.Contains | core.py:112-114 | The substring search answers yes exactly when the needle occurs at some position |
| Products.GetAllProducts | core.py:92-126 | The sentence "No products found in the database." is returned exactly when no row matches. Otherwise each row appears as many times as in the table if it matches and not at all if it does not |
| Products.ListWithoutFilterIsWholeTable | core.py:109-110 | With no filter a non-empty table is listed whole |
| Products.EmptyFilterListsAll | core.py:111-114 | The empty filter lists exactly what no filter lists |
| Products.FilterIgnoresCase | core.py:113 | Filters that differ only in letter case list the same rows |
| Products.MissingParams | core.py:180-188 | Each parameter is reported iff it is None. Reported names come from the fixed list, in its order nombre, precio, cantidad_en_almacen, descuento_por_devolucion |
| Products.InsertAProduct | core.py:154-203 | With any parameter missing, the table is unchanged and the text lists the missing names. With all four present, exactly one row is added and the confirmation names it |
| Products.FindByName | core.py:239-242 | The lookup finds nothing exactly when no row has exactly that name. Otherwise it finds a row with that name |
| Products.DeleteAProduct | core.py:220-248 | When no row has exactly that name, the table is unchanged and "not found" is reported. Otherwise exactly one row with that name is removed and the rest stay in place |
| Products.Merge | core.py:301-312 | Each field takes the new value when one is given and keeps the old value otherwise |
| Products.UpdateAProduct | core.py:266-315 | When no row has exactly that name, the table is unchanged and "not found" is reported. Otherwise one row with that name gets the merge and every other row is untouched |
| Products.MergeNothingIsIdentity | core.py:274-275 | An update that gives no new value leaves the row as it was |
| Products.MergeIdempotent | core.py:301-312 | Applying the same changes twice is applying them once |
| Products.InsertThenDeleteRoundTrip | core.py:193-248 | Inserting a product under a new name and then deleting that name restores the table |
| Products.InsertedIsListedByName | core.py:108-203 | A product just inserted is listed when its own name is the filter |

## Left out

- `client.run`, the Swarm library and the OpenAI call are not modelled. Their answers are the inputs `first` and `second`. The model assumes `run` does not mutate the history it is given, since that code is not visible. The call log `RunCall` records the agent, the history and the stream flag but not `context_variables`, which every call passes through unchanged from the request.
- HTTP wiring is not modelled: routing, CORS, request validation, status codes other than "the turn fails", error detail strings, the `/` endpoint and `uvicorn`. Flask's try also wraps request parsing; a request that fails validation changes no state and is not modelled.
- Concurrency is not modelled. The dictionaries are shared without locking, and each turn is modelled as atomic.
- The database engine, sessions and commits are not modelled, and neither is the `id` column. `/new_user`, `/get_data` and `call.py` are database or network I/O.
- ApiUtils.FormatMessage: modelled as never raising. In the source (project/api_utils.py:71-79) a message with content and a non-empty `tool_calls` list has every tool call copied by reading its "id" and "type" keys, and the result is assigned to a `tool_calls` field that `ChatResponse` does not declare. Either can raise, and then the whole turn ends with a 500 and no assistant message is persisted; the user message appended at the start of the turn stays (fastapi_app.py:37), and when the raise comes from formatting the re-invoked agent's last message (fastapi_app.py:88-91), the agent switch made at fastapi_app.py:78 stays too, as in `FailedTurnKeepsUserMessage`. The model has no "id" or "type" keys, so such a content-bearing, non-handoff message, e.g. one whose tool call is the empty dictionary `ToolCall(None)`, is formatted and answered in the model while the source fails the turn. The same holds for the re-invoked agent's last message.
- Prompt texts, model names and the `user_info` tool's text are not modelled.
- ApiUtils.HandleToolCall: a tool call's function entry carries an optional string name, where `None` stands only for a missing "name" key (which raises `KeyError`). A "name" that is present but not a string is not expressible. In the source (project/api_utils.py:26) a null, numeric or boolean name is looked up with `agent_functions.get`, finds nothing and is no handoff without raising; a JSON array or object cannot be a dictionary key, so the lookup raises `TypeError` and the turn ends with a 500. A "function" value that is null, which raises a `TypeError` in the source, is not expressible either.
- Dispatcher.UserKeyOf: only string user ids are modelled. A non-string `user_id` in the context (a JSON number, say) is a different dictionary key in the source.
- Products.GetAllProducts: the filter is modelled as a substring match that ignores the case of A-Z only. In the source, `%` and `_` in the filter act as LIKE wildcards and backslash as an escape, and case folding follows the database's locale.
- Products.Product: prices and discounts are `real` values that are never computed with. The table declares the discount column as an integer while the tool passes a float; that conversion is not modelled.
- Products.DeleteAProduct: the source deletes whichever matching row `.first()` returns, in no promised order. The contract therefore promises "some row with that name", and the body picks the lowest position. Products.UpdateAProduct is treated the same way.
