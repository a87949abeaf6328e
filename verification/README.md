# copilot-mcp: JSON-RPC dispatch and the lazy warehouse connection

This project models the only pieces of behaviour in the copilot-mcp server (`server.py`) that go beyond wiring:

- **`mcp_endpoint`.** This is the JSON-RPC dispatch on the `/mcp` route. Absent request fields take the defaults method `""`, params `{}` and id `1`. `tools/list` answers with the single `copilot_chat` tool descriptor. `tools/call` of `copilot_chat` answers with a fixed-template echo of the message. Everything else gets error -32601, `"Not found"`. The code is "Method not found" in section 5.1 of the JSON-RPC 2.0 specification, although the message text is shorter. The server also uses this code for an unknown tool name.
- **`get_snowflake_connection`.** This holds one process-wide connection handle and creates it on first use. A handle that exists is returned and kept. A failed creation leaves the holder empty, so the next call tries again.
- **`query_hive_mind`.** This reads recent warehouse rows. Each `(source, category, summary)` row becomes the line `source (category): summary`, and the lines are joined with `"\n"`. A missing connection or a failing query gives `""`.

Everything is modelled as immutable datatypes and pure functions:

| file | module | contents |
|---|---|---|
| `option.dfy` | `Opt` | `Option`, with `GetOr` as Python's `dict.get(key, default)` |
| `connection.dfy` | `Connection` | the lazy holder `Option<H>` over an abstract handle type; each call is given the driver's connect outcome |
| `lines.dfy` | `Lines` | Python's `sep.join` and `str.split` for a one-character separator, and their round trips |
| `hive_mind.dfy` | `HiveMind` | rows, row formatting, the read with its failure collapse |
| `mcp.dfy` | `Mcp` | request and response records, `Dispatch` (the response), `Serve` (the response plus the holder after the handler) |

The driver's connect call and the query's outcome are inputs of the model, so that it stays deterministic. A connect outcome is `Connected(handle)` or `Failed`. A query outcome is `Fetched(rows)` or `QueryFailed`.

`query_hive_mind` checks `if not conn`. The model reads this as "no connection is held", because a driver connection object is always truthy.

## Model

| member | source | states |
|---|---|---|
| Connection.GetConnection | server.py:50-61 | If a handle is held, it is returned and kept, whatever the driver would do. Otherwise the holder ends holding a handle exactly when the driver connects, and the handle is the one the driver gave. |
| Connection.HeldConnectionIsKept | server.py:50-61 | Once a handle is held, no sequence of later calls replaces or drops it. |
| Connection.EmptyIffAllFailed | server.py:50-61 | Starting empty, the holder is still empty after a run of calls exactly when every attempt failed. A failure is not cached, and a later call retries. |
| Connection.FirstSuccessWins | server.py:52-58 | Starting empty, the holder ends with the handle of the first attempt that connected. Later successes never replace it. |
| Lines.SplitJoin | server.py:70 | For at least one line, none of which holds a newline, joining the lines with `"\n"` and splitting on `"\n"` gives back exactly those lines. |
| Lines.JoinSplit | server.py:70 | Joining the pieces of any split on `"\n"` gives back the original string, so join and split are inverse both ways. |
| Lines.JoinEmptyIff | server.py:70 | A `"\n"`-join is empty exactly when there are no parts, or only one empty part. |
| HiveMind.FormatRow | server.py:70 | A row's line is the source, then `" ("`, then the category, then `"): "`, then the summary. Its length is the sum of the three field lengths plus 5. |
| HiveMind.QueryHiveMind | server.py:64-72 | The read goes through the lazy holder, and the holder after it is what one accessor call leaves. With no connection, or a query that raises, the text is `""`. Otherwise the text is the formatted rows joined by `"\n"`. A failing query does not drop the connection. |
| HiveMind.EmptyTextIff | server.py:64-72 | The read returns `""` exactly when there is no connection, the query raised, or there were no rows. The caller cannot tell these three apart. |
| HiveMind.LinesAreRows | server.py:68-70 | With a connection and at least one row, and no field holding a newline, splitting the text on `"\n"` gives one `source (category): summary` line per row, in the warehouse's order. |
| Mcp.Dispatch | server.py:93-114 | Every response carries `jsonrpc` `"2.0"` and the request's id, or `1` when the id is absent. It is a result exactly when the method is `tools/list`, or when it is `tools/call` with tool `copilot_chat`. Every error has code -32601 and message `"Not found"`. |
| Mcp.Serve | server.py:93-114 | The whole handler echoes the request's id, or the default `1`, whatever the warehouse does. |
| Mcp.EmptyRequestNotFound | server.py:96-114 | An empty request gets `{jsonrpc "2.0", id 1, error {-32601, "Not found"}}`. |
| Mcp.NullIdIsEchoed | server.py:96 | An id that is present but null is echoed as null. Only an absent id defaults to 1. |
| Mcp.ListsOneTool | server.py:98-103 | `tools/list` gives a tool list with exactly one tool. The tool is named `copilot_chat` and has an object input schema. The schema has a single string property `message`, and `required` is `["message"]`. |
| Mcp.ChatEchoesMessage | server.py:105-112 | A `copilot_chat` call gives exactly one content block, of type `text`. The message can be read back unchanged from that block's reply. An absent message counts as `""`. |
| Mcp.MissingMessageIsEmpty | server.py:106-111 | A `copilot_chat` call with no arguments, or with arguments but no message, gets the prefix followed directly by the disclaimer. |
| Mcp.UnknownMethodNotFound | server.py:98-114 | Any method other than `tools/list` and `tools/call` gets error -32601, `"Not found"`, with the request's id. |
| Mcp.UnknownToolNotFound | server.py:105-114 | A `tools/call` naming any tool other than `copilot_chat` gets the same -32601 error. This includes a missing name, which defaults to `""`. |
| Mcp.ChatResponse | server.py:111 | The reply is `"Copilot (Sovereign Mind) received: "`, then the message verbatim, then `". Note: Full Azure OpenAI integration pending."`. Its length is the sum of the three lengths. |
| Mcp.EchoRoundTrip | server.py:111 | Reading the message back out of a reply gives exactly the message that was sent. |
| Mcp.EchoedMessageSound | server.py:111 | Any text that reads back as a message is exactly that message's reply. |
| Mcp.ChatResponseInjective | server.py:111 | Different messages get different replies. |
| Mcp.ResponseIgnoresWarehouse | server.py:108-112 | The handler's response is the same for every holder state, connect outcome and query outcome. The rows that are read never reach the response. |
| Mcp.HolderEffect | server.py:98-114 | Only a `copilot_chat` call touches the connection holder, and it does so as exactly one accessor call. Every other request leaves the holder as it was. |

## Left out

- HTTP plumbing is not modelled, because it consists of static payloads and framework wiring. This covers the Flask app, CORS, route registration, the `OPTIONS` preflight, and the `/` and `/health` handlers (server.py:17-18, 75-94, 117-120). The connection probe made by `/` is therefore not modelled either.
- JSON parsing and `json.dumps` are not modelled. The request and response are records. The text block of a chat result holds the `{response: ...}` object as a `ChatReply` record instead of its JSON text.
- Ill-typed `params` and `arguments` are not modelled, because the model uses a typed request. A body that is not a JSON object makes `data.get` raise for every request. A `params` that is not an object raises only on `tools/call` (server.py:106). An `arguments` that is not an object raises only when the tool is `copilot_chat` (server.py:111). By then the warehouse read at server.py:109 has run and may have created the connection. Each of these raises gives an HTTP 500. On every other path the bad value is never read.
- Request fields of unexpected JSON types are not modelled. Method, tool name and message are strings or absent. A present non-string method or name behaves like an unknown one. A present `null` message would be interpolated as `None`.
- Request ids are integers, strings, booleans or null. Fractional, object and array ids are left out.
- The warehouse is not modelled, because it is an external collaborator. This covers the Snowflake driver, the connection parameters, the SQL text, the cursor and the `limit` argument (server.py:54-58, 68-69). The connect outcome and the fetched rows are inputs. Row fields are text, so a NULL column's rendering as `None` is not modelled.
- Environment configuration, the unused Azure settings, the system prompt string and logging are not modelled, because they are data and side effects (server.py:12, 14-15, 21-47, 60).
- The unsynchronised check-then-set on the global connection is not modelled, because the model is sequential. Concurrent first calls may each connect and leak all but one handle; this race is not represented.
