# MCP relay server: connection slot, event buffer and tool registry

This project models the stateful core of the MCP relay server (`ProjectMCP_Relay`). The relay sits between a
cloud-facing client and one local agent.

- **Connection slot.** The agent connects over a websocket. The relay keeps the newest connection as the
  single current one. On connect it closes the previous socket and ignores any error from that close. On
  disconnect it empties the slot only if the disconnecting socket is still the current one.
- **Event buffer.** Frames from the agent go into a FIFO buffer with room for 100 frames. When the buffer is
  full, the oldest frame is dropped to make room.
- **Event stream.** The stream takes frames from the buffer oldest first. When nothing is buffered it sends
  a `keepalive` comment.
- **Commands.** `send_command` answers 503 when no agent is connected. Otherwise it forwards the request body
  to the current socket and answers `Sent`. It answers 500 if the body does not parse or the write fails.
  It never changes the slot.
- **Health check.** It reports whether an agent is connected and how many frames are buffered.
- **Tool registry.** `TOOLS` is filled by the `mcp_tool` decorator, which defaults the name and the input
  schema and overwrites existing keys. `tool_manager` queries it.

Modules:

- `Wrappers` (`wrappers.dfy`): `Option`.
- `EventQueue` (`event_queue.dfy`): the drop-oldest buffer as a function (`Admit`), measured against an
  independent reference (`Newest`: the newest 100 frames of everything received); the stream step (`Take`)
  and a run of it (`Drain`); and `MessageQueue`, the `asyncio.Queue` the relay mutates in place.
- `ConnectionSlot` (`connection_slot.dfy`): the slot as a function of the history of locked connect and
  cleanup blocks (`Replay`), proved equal to an independent description of it (`Live`: the latest
  connection, not yet cleaned up).
- `RelayServer` (`relay_server.dfy`): the `Relay` class with the slot (`localAgent`) and the buffer
  (`queue`) as fields. Each locked block of `main.py` is one method. A ghost `history` of slot events is tied
  to the slot by the class invariant.
- `ToolsRegistry` (`tools_registry.dfy`): JSON values and Python truthiness, name and schema defaulting,
  `Catalog` (the `TOOLS` map plus its keys in insertion order), the `ToolRegistry` class and `mark_as_tool`.
- `ToolManager` (`tool_manager.dfy`): `list_tools`, `get_tool_metadata_dict` and `tool_exists` as
  functions of a `Catalog`, with lemmas about them.

`send_command` returns right after the write: there is no table of pending calls, no correlation id and no
per-call timeout. A failed write is answered with status 500 and the exception's text.

## Model

| member | source | states |
|---|---|---|
| `EventQueue.Admit` | ProjectMCP_Relay/main.py:72-78 | admitting a frame leaves the newest 100 frames of the old buffer followed by the frame: appended when there is room, otherwise only the oldest frame is dropped |
| `EventQueue.AdmitKeepsNewest` | ProjectMCP_Relay/main.py:72-80 | frame-by-frame admission keeps exactly the newest 100 frames received, in arrival order, so the buffer never exceeds 100 |
| `EventQueue.Take` | ProjectMCP_Relay/main.py:105-109 | the stream step yields a keepalive exactly when the buffer is empty, leaving it unchanged; otherwise it yields the oldest frame, and that frame followed by what remains is the old buffer |
| `EventQueue.DrainDelivers` | ProjectMCP_Relay/main.py:99-109 | over n steps the stream yields n events: the buffered frames oldest first, none lost or repeated, then keepalives once the buffer is empty |
| `EventQueue.MessageQueue.constructor` | ProjectMCP_Relay/main.py:33 | the buffer starts empty and within its bound |
| `EventQueue.MessageQueue.PutNowait` | ProjectMCP_Relay/main.py:73-74 | `put_nowait` reports full exactly at 100 frames and then changes nothing; otherwise it appends the frame |
| `EventQueue.MessageQueue.GetNowait` | ProjectMCP_Relay/main.py:76 | `get_nowait` reports empty exactly on an empty buffer; otherwise it removes and returns the head |
| `ConnectionSlot.Cleared` | ProjectMCP_Relay/main.py:88-90 | the cleanup empties the slot exactly when it held the disconnecting socket (or nothing), and otherwise leaves it as it was |
| `ConnectionSlot.ReplayIsLive` | ProjectMCP_Relay/main.py:56-90 | after any interleaving of connects and cleanups, the slot holds h exactly when h is the latest connection and has not disconnected, so a superseded cleanup never erases a newer connection |
| `ConnectionSlot.OccupiedIffSomeLive` | ProjectMCP_Relay/main.py:40 | the slot is occupied exactly when some connection is the latest one and is still live |
| `RelayServer.AgentSocket.Close` | ProjectMCP_Relay/main.py:58-62 | a close either succeeds and marks the socket closed, or raises and leaves the socket as it was; it writes nothing |
| `RelayServer.AgentSocket.SendText` | ProjectMCP_Relay/main.py:135 | a write succeeds exactly on an open socket with no transport fault, and only then appends the text to what the socket sent; otherwise it reports the send-after-close error or the fault's text |
| `RelayServer.Relay.constructor` | ProjectMCP_Relay/main.py:29-33 | the relay starts with no agent, an empty buffer and an empty history |
| `RelayServer.Relay.Connect` | ProjectMCP_Relay/main.py:56-64 | after connect the new socket is current whether or not closing the previous one raised; the previous socket is closed unless its close raised, and nothing was written to it |
| `RelayServer.Relay.Disconnect` | ProjectMCP_Relay/main.py:86-90 | the cleanup empties the slot only if the socket is still current, and otherwise leaves the newer socket in place |
| `RelayServer.Relay.Receive` | ProjectMCP_Relay/main.py:72-80 | one received frame changes the buffer as `Admit` says; the fallback handler never loses the new frame |
| `RelayServer.Relay.ReceiveAll` | ProjectMCP_Relay/main.py:66-80 | after the receive loop the buffer holds the newest 100 of the old buffer plus the received frames, in order |
| `RelayServer.Relay.NextEvent` | ProjectMCP_Relay/main.py:103-109 | one stream step returns the oldest frame and removes it, or a keepalive with the buffer unchanged |
| `RelayServer.Relay.EventStream` | ProjectMCP_Relay/main.py:97-109 | the stream loop yields the events `DrainDelivers` describes and removes exactly the frames it delivered |
| `RelayServer.Relay.SendCommand` | ProjectMCP_Relay/main.py:119-142 | with no agent: 503 and nothing is written; with an agent: a malformed body gives 500 with the parse error and no write; otherwise the body is written to the current socket only and the answer is `Sent` with the body when the write succeeds, else 500 with the write's exception text and nothing written; the slot never changes |
| `RelayServer.Relay.HealthCheck` | ProjectMCP_Relay/main.py:36-43 | `agent_connected` holds exactly when the slot is occupied, that is when some connection is latest and live; `queue_size` is the buffer length and at most 100 |
| `ToolsRegistry.ToolName` | ProjectMCP_Relay/tools_registry.py:31 | the tool name is the given name unless that is missing or empty, in which case it is the function's name |
| `ToolsRegistry.EffectiveSchema` | ProjectMCP_Relay/tools_registry.py:36-40 | a truthy schema is kept as given; a falsy one (None, an empty dict, ...) becomes the default object schema; the stored schema is always truthy |
| `ToolsRegistry.Registered` | ProjectMCP_Relay/tools_registry.py:33-41 | registration stores the entry under its key, overwriting any entry there; all other entries are unchanged; existing keys keep their place and a new key comes last; the registry stays well formed |
| `ToolsRegistry.ToolRegistry.constructor` | ProjectMCP_Relay/tools_registry.py:19 | the registry starts empty |
| `ToolsRegistry.ToolRegistry.McpTool` | ProjectMCP_Relay/tools_registry.py:25-45 | the decorator registers the function under its tool name with its description and effective schema, and returns the same function |
| `ToolsRegistry.MarkAsTool` | ProjectMCP_Relay/tools_registry.py:81-83 | `mark_as_tool` sets the function's tool flag and returns the same function |
| `ToolManager.ListTools` | ProjectMCP_Relay/tool_manager.py:5-14 | one record per registry key, in iteration order, as many records as tools, names pairwise distinct; each record carries its entry's description and schema, or `""` and `{}` when they are missing |
| `ToolManager.GetToolMetadataDict` | ProjectMCP_Relay/tool_manager.py:17-19 | the registry itself: the same keys as `tool_exists` accepts, each with its stored entry |
| `ToolManager.ToolExists` | ProjectMCP_Relay/tool_manager.py:22-23 | `tool_exists` holds exactly when the name is one of the registry's keys, that is one of the names it lists in iteration order |
| `ToolManager.ToolExistsIffListed` | ProjectMCP_Relay/tool_manager.py:22-23 | a tool exists exactly when `list_tools` has a record with its name |
| `ToolManager.ListToolsAfterRegister` | ProjectMCP_Relay/tool_manager.py:7-14 | after a registration, a new name adds its record at the end of the listing; an existing name has its record replaced in place and nothing else moves |

## Left out

- `ProjectMCP_Relay/agent_server.py` is not part of this model. It is an outbound websocket client with a reconnect loop and heartbeat, a `git` subprocess and a call into a pipe client whose code is not in the repository.
- `load_all_tools` (the directory scan and dynamic imports) is not modelled: it is file-system and import machinery. Its loop over each module's members has `pass` as its only action, so it never changes `TOOLS` itself. Entries come only from the decorator.
- HTTP routing, CORS, websocket accept and receive, the SSE response wiring and logging are I/O and are not modelled. Payloads are opaque strings.
- The `asyncio` lock and cooperative interleaving are not modelled. Each `async with ws_lock` block is one atomic method, and the connection history (`ConnectionSlot.Replay`) stands for any interleaving of those blocks.
- RelayServer.Relay.ReceiveAll and RelayServer.Relay.EventStream describe runs of their loops with no other flow interleaved. In the source the receive loop, the stream loop and other requests share the buffer.
- RelayServer.Relay.EventStream replaces `request.is_disconnected()` with a count of polls before the subscriber leaves.
- RelayServer.Relay.NextEvent treats the 30-second `wait_for` timeout as "the buffer is empty". A frame arriving during the wait is not modelled.
- RelayServer.Relay.HealthCheck leaves out the timestamp, which comes from the clock.
- RelayServer.Relay.SendCommand does not model JSON parsing and serialisation. The parsed body is kept as its serialised text, so `json.dumps` of it is that same text. A body that does not parse is `Malformed` with the exception text.
- RelayServer.AgentSocket.Close and RelayServer.AgentSocket.SendText stand for framework behaviour, reduced to what the relay relies on. A transport fault is a parameter. The text of a transport exception is opaque.
- ToolsRegistry.ToolRegistry.McpTool folds the decorator factory `mcp_tool(...)` and the decorator it returns into one call.
- ToolsRegistry.ToolName takes the name as a string or `None`. Non-string names are not modelled.
- ToolsRegistry.EffectiveSchema: the `Json` values leave out floats.
- ToolsRegistry.ToolRegistry.McpTool models descriptions as strings only. In the source `description=None` is stored as `None`, and `list_tools` then returns `None` rather than `""`.
- ToolManager.GetToolMetadataDict returns the registry as a map value. In the source it returns the `TOOLS` dict object itself, so a caller that changes the result changes the registry; that aliasing is not modelled.
