# DAX sales assistant: completion client and chat handler

This project models the two pieces of logic in a small HTTP service that turns
natural-language questions about a sales data model into DAX formulas by
forwarding them to a hosted chat-completion provider:

- the completion client `call_llm` (`src/LLM1.py`), which assembles the outbound
  message list (one system message, at most the last six history entries
  reduced to role and content, one user message), makes a single provider call
  with a fixed token budget, returns the first choice's text with surrounding
  whitespace removed, and turns any failure inside its `try` block into a fixed
  fallback reply;
- the `/chat` handler `generate_response` and the `/health` endpoint
  (`src/mainn.py`), which convert the request history to dicts, choose the
  system context (the caller's non-empty `system_instruction`, otherwise the
  `SALES_SCHEMA` constant), always call the client at temperature 0.2, and map
  any exception to a 500 response carrying the exception text.

Modules, one per concept:

- `Wrappers` (`wrappers.dfy`): `Option` for Python's `Optional`, `Result` for
  "returns a value or raises".
- `PyText` (`pytext.dfy`): CPython's whitespace class and `str.strip()`.
- `PyList` (`pylist.dfy`): Python's `s[start:]` slice with negative starts.
- `Llm` (`llm.dfy`): `call_llm`.
- `ChatService` (`chat_service.dfy`): `mainn.py`'s request shapes and handlers.

The provider is an oracle: `CallLlm` and `GenerateResponse` take a function
from the outbound `CompletionRequest` (model, messages, temperature,
max_tokens) to a `ProviderOutcome`, so contracts can say exactly which request
the provider is given. The outcome is either `Raised` or `Returned(choices)`,
where a choice's content may be `None`. Reading `choices[0]` of an empty list
and calling `.strip()` on `None` both raise inside the `try` block, so both end
in the fallback reply, like a raised call.

The `history` field keeps three cases apart: left out (the schema default `[]`
applies), an explicit JSON `null` (the field is declared `Optional`, so it
reaches the handler as `None`; iterating it raises `TypeError`, which the handler
turns into a 500 with detail `'NoneType' object is not iterable`), and a list.
The request has no temperature field. The schema ignores extra JSON keys, so
nothing a caller sends can change the 0.2 the handler passes.

`generate_response` never passes `model`, so `call_llm`'s default
`gpt-4o-mini` is always used. `system_instruction` is tested for truthiness, so
`""` selects `SALES_SCHEMA` just as `None` does.

## Model

| member | source | states |
|---|---|---|
| `PyText.Strip` | src/LLM1.py:46 | the stripped text is a slice of the input with only whitespace before and after it; it neither starts nor ends with whitespace, and it is empty exactly when the input is all whitespace |
| `PyText.StripSpec` | src/LLM1.py:46 | whenever the input splits into leading whitespace, a middle with no whitespace at either end, and trailing whitespace, strip returns that middle; with `Strip`'s contract this fixes the result uniquely |
| `PyText.StripIdempotent` | src/LLM1.py:46 | stripping an already stripped text changes nothing |
| `PyText.StripPadding` | src/LLM1.py:46 | whitespace padding around unpadded text is removed and the text itself is kept intact |
| `PyList.SliceFrom` | src/LLM1.py:31 | `s[start:]` is a suffix of `s`; with a negative start its length is `min(-start, len(s))`, otherwise `len(s) - min(start, len(s))` |
| `Llm.Project` | src/LLM1.py:30 | reshaping one entry succeeds exactly when it has both `role` and `content`, and then keeps those two values unchanged |
| `Llm.ProjectAll` | src/LLM1.py:29-32 | reshaping succeeds iff every entry has both keys; it keeps length, order, role and content; otherwise the `KeyError` is the one for the first entry lacking a key |
| `Llm.Truthy` | src/LLM1.py:27 | `if conversation_history:` is true exactly when a history is given and has at least one entry; `None` and `[]` are both false |
| `Llm.Forwarded` | src/LLM1.py:27-31 | the forwarded entries are the last `min(6, len(history))` history entries in order, none for `None` or `[]` |
| `Llm.WellFormedHistoryWindow` | src/LLM1.py:29-32 | a history whose every entry has `role` and `content` never takes the `KeyError` path |
| `Llm.BuildMessages` | src/LLM1.py:24-36 | the list is built iff every forwarded entry has both keys; then it has `2 + min(6, n)` messages, the system message first, the user message last, and the forwarded entries reshaped in between |
| `Llm.NoHistoryOnlySystemAndUser` | src/LLM1.py:24-36 | with no history or an empty one the outbound list is exactly `[system, user]` |
| `Llm.MiddleIsHistoryTail` | src/LLM1.py:27-33 | message `1 + p` is history entry `len(history) - min(6, len(history)) + p` reduced to its role and content |
| `Llm.OlderHistoryIgnored` | src/LLM1.py:29-31 | entries older than the last six, even malformed ones, do not affect the outbound list |
| `Llm.BuildRequest` | src/LLM1.py:39-44 | the provider request carries the caller's model and temperature, `max_tokens` 1500 and the assembled messages, and exists iff the message list can be built |
| `Llm.FirstText` | src/LLM1.py:46 | the readable first-choice text is `None` exactly when the provider raised, returned no choices, or returned `None` content (the `IndexError` and `AttributeError` paths); otherwise it is `choices[0].content` |
| `Llm.CallLlm` | src/LLM1.py:23-50 | a missing key in a forwarded entry gives the fallback reply; otherwise the reply is the stripped first-choice text when the provider returns readable content and the fallback reply when it raises or returns none; the reply never has surrounding whitespace |
| `Llm.FallbackUnpadded` | src/LLM1.py:50 | the fallback reply is longer than the warning sign it starts with, and it has no surrounding whitespace |
| `Llm.MalformedWindowSkipsProvider` | src/LLM1.py:23-50 | when a forwarded entry lacks a key the reply is the fallback whatever the provider would answer, so no exception escapes and the provider is not consulted |
| `Llm.ProviderTextReturned` | src/LLM1.py:46 | a provider first choice of whitespace-padded text comes back as that text without the padding |
| `ChatService.HealthCheck` | src/mainn.py:67-69 | `/health` returns status `online` and system `Sales DAX Engine Ready` and takes no input, so nothing served before can change it |
| `ChatService.ParsedHistory` | src/mainn.py:60-65 | an omitted history becomes `[]`, an explicit `null` stays `None`, and a given list is kept |
| `ChatService.ModelDump` | src/mainn.py:77 | a dumped message has exactly the keys `role` and `content`, with the message's values |
| `ChatService.HistoryDicts` | src/mainn.py:77 | converting a `None` history raises `TypeError` with its message; otherwise conversion keeps length, order, role and content |
| `ChatService.DumpAll` | src/mainn.py:77 | the comprehension `[m.model_dump() for m in request.history]` keeps the list's length and order, and entry `k` is the dump of message `k` |
| `ChatService.SystemContext` | src/mainn.py:81 | a non-empty instruction is the context; `None` and `""` both select `SALES_SCHEMA`; the context is never empty |
| `ChatService.GenerateResponse` | src/mainn.py:71-95 | the handler answers 500 with the `TypeError` text exactly when the history is an explicit `null`, and a reply otherwise |
| `ChatService.DumpedHistoryWellFormed` | src/mainn.py:77 | converted history always has both keys, so the handler never reaches the client's `KeyError` fallback |
| `ChatService.OutboundRequestShape` | src/mainn.py:81-89 | the provider receives model `gpt-4o-mini`, temperature 0.2 and 1500 tokens regardless of the request, the chosen context first, the prompt last, and the last `min(6, n)` request messages in order in between |
| `ChatService.ReplyFollowsProvider` | src/mainn.py:84-91 | with a non-null history the reply is the stripped provider text when readable and the fallback reply otherwise, always as a 200 reply |
| `ChatService.OmittedHistoryIsEmpty` | src/mainn.py:62-95 | leaving `history` out behaves like sending `[]`; sending `null` is a 500 with the `TypeError` text |

## Left out

- The provider client and its network call: the call is the `provider` function parameter. Authentication, timeouts and the response object's other fields are not modelled.
- Loading the API key from the environment and `.env`: process I/O at start-up.
- FastAPI routing, the CORS middleware and the uvicorn entry point: framework plumbing with no logic of the service's own.
- JSON parsing and schema validation: the handler starts from a parsed `ChatRequest`. Rejected bodies, such as a missing `prompt` or a non-string role, never reach the handler.
- Logging and `print`: side effects that do not influence any result.
- Async execution and concurrent requests: requests share no mutable state.
- `temperature` is a Dafny `real` that is passed through unchanged. Floating-point representation is not modelled.
- `SalesSchema` is a non-empty stand-in for the text of `SALES_SCHEMA`. Nothing in the handler depends on the schema text beyond it being non-empty. The fallback reply's text is reproduced exactly.
- History entries are string-to-string maps. Entries that are not dicts raise `TypeError` at src/LLM1.py:30 and end in the fallback. Non-string values are copied into the request unchanged, and what happens next is up to the provider. `/chat` only ever sends strings. Neither case is modelled.
- `CallLlm` takes every argument explicitly. `call_llm`'s defaults `conversation_history=None` and `temperature=0.3` (src/LLM1.py:15-16) are not modelled; `/chat` passes both.
