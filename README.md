# Conversation relay: a verified model

This project models the core of a small conversation-relay web service (`app.py`). The service keeps chat
conversations in memory. It forwards a prompt built from a conversation's history to a text-generation
backend chosen from a fixed two-entry table, and appends the backend's reply. It can also send one message
to several backends and collect the replies. Uploaded media files get a locator string.

Modules (one per component of `app.py`):

- `Common` (common.dfy): `Option`, `Result` and the error kinds `NotFound`, `MediaUploadFailed`, `BackendUnavailable` (an `httpx.HTTPError`, status 502) and `Unexpected` (any other exception, status 500).
- `Messages` (messages.dfy): the `Message` and `Conversation` records. A role is free text, as in the source.
- `Prompt` (prompt.dfy): the role label, `Render` (a recursive function over the history) and `BuildPrompt`, the `+=` loop, proved equal to `Render`.
- `Backend` (backend.dfy): the URL table, `ResolveUrl` with its fallback to `model_a`, the result of one backend call, and the reply text with `""` for a missing `"response"` field.
- `Media` (media.dfy): the file name `media/<token>_<name>`, its locator `/<file name>`, the stored/failed outcome of an upload, and a parser that recovers token and name from a locator.
- `Conversations` (conversations.dfy): the pure functions `Start` and `Send` that specify the store changes, lemmas about them, and the class `ConversationStore`. The class holds the `conversations` map, which its methods reassign.
- `Comparison` (comparison.dfy): `Compare` (a specification by recursion over the request) and `CompareModels`, the loop, proved equal to it.

Nondeterminism and the outside world are parameters. A fresh conversation id is an argument that must not
already be in the store; it stands for `uuid4`. A media upload is `Upload(token, filename, written)`: the
token stands for the UUID, and `written` says whether the directory creation and the file write succeeded.
A backend call is an oracle function. In `send_message` it is `answer(url, prompt)`. In `compare_models`
it is `answer(i, url, prompt)`, the answer received by the call for the i-th requested model. So two calls
for the same name can get different answers, which makes the overwrite of a duplicated name visible.

Three details of the code that a reader might not expect:
- The comparison takes a list of names, not a set. A repeated name is called again, and its last reply overwrites the earlier one.
- Only an HTTP-level failure becomes the `"Error fetching response"` sentinel. Any other failure, such as an undecodable body, aborts the whole comparison with `Unexpected`.
- `send_message` checks that the conversation exists before the media step.

## Model

| member | source | states |
|---|---|---|
| `Prompt.Label` | app.py:83 | the label is "User" exactly when the role is "user", and "Assistant" for every other role |
| `Prompt.BuildPrompt` | app.py:81-84 | the `+=` loop over the history produces exactly `Render` of the history |
| `Prompt.RenderConcat` | app.py:81-84 | rendering a concatenated history is the concatenation of the renderings, so lines keep history order |
| `Prompt.RenderSnoc` | app.py:82-84 | appending one message to the history appends exactly `Label + ": " + content + "\n"` to the prompt |
| `Prompt.RenderFirstLine` | app.py:83-84 | each line is "User: " or "Assistant: " followed by the content and a newline, "User" exactly for role "user" |
| `Prompt.RenderIgnoresMedia` | app.py:84 | two histories with the same roles and contents render the same, so media locators never reach the prompt |
| `Prompt.RenderTwoTurns` | app.py:81-84 | a user "hi" then an assistant "hello" render as "User: hi\nAssistant: hello\n" |
| `Backend.ResolveUrl` | app.py:89 | "model_a" and "model_b" resolve to their table URLs, and every other name to model_a's URL |
| `Backend.ResolveFallsBackToDefault` | app.py:130 | a name outside the table resolves as the default model does; a name in it resolves to its entry |
| `Backend.ResolveTargetsTable` | app.py:16-19 | every resolved URL is a table entry, and it is model_b's URL exactly when model_b was requested |
| `Backend.ReplyText` | app.py:93 | the reply text is the "response" field when present and "" when it is absent |
| `Media.Store` | app.py:144-151 | an upload succeeds exactly when the write succeeds, yields the locator "/media/<token>_<filename>" of that upload, and otherwise fails with MediaUploadFailed |
| `Media.LocatorRoundTrip` | app.py:145-149 | for a token without underscores, the token and the original name can be read back from the locator |
| `Media.DistinctTokensDistinctLocators` | app.py:69 | distinct tokens give distinct locators, whatever the uploaded names |
| `Conversations.StartStoresEmpty` | app.py:48-50 | starting files an empty conversation with the given theme under the fresh id, keeps all others, and keeps the store well keyed |
| `Conversations.SendUnknownId` | app.py:62-63 | sending to an unknown id fails with NotFound and leaves the store unchanged |
| `Conversations.SendMediaFailure` | app.py:66-75 | a failed media write fails with MediaUploadFailed before any append, so the message count is unchanged |
| `Conversations.SendPromptCoversHistory` | app.py:78-84 | the prompt sent covers the whole earlier history followed by the new user message as its last line |
| `Conversations.SendSuccess` | app.py:78-105 | on a backend reply the conversation grows by a user message (with its locator) then an assistant message with the reply text, which is returned; other conversations are unchanged |
| `Conversations.SendBackendFailure` | app.py:86-97 | on a backend failure the user message (with its locator when an upload was written) stays appended, no assistant message is added, and the error is BackendUnavailable exactly for an HTTP failure |
| `Conversations.SendAppendOnly` | app.py:78-100 | sending keeps the same ids, ids and themes, only extends each history at its end (by at most two messages), and keeps the store well keyed |
| `Conversations.ConversationStore.constructor` | app.py:22 | the store starts empty |
| `Conversations.ConversationStore.StartConversation` | app.py:43-50 | stores the new conversation under the fresh id, returns that id, and leaves the rest of the store as it was |
| `Conversations.ConversationStore.GetConversation` | app.py:107-115 | returns the stored conversation (whose id is the one asked for), or NotFound for an unknown id |
| `Conversations.ConversationStore.SendMessage` | app.py:52-105 | the reply and the new store are exactly those of `Send`: check, media, append user message, render, call, append reply |
| `Comparison.CompareModels` | app.py:117-137 | the loop over the requested models returns exactly `Compare` of the request |
| `Comparison.CompareOkIff` | app.py:126-136 | the comparison succeeds exactly when no call ends in a non-HTTP failure; HTTP failures never stop later models |
| `Comparison.CompareKeys` | app.py:125-137 | the keys of a successful comparison are exactly the requested model names |
| `Comparison.CompareEntry` | app.py:133-136 | each name's entry comes from the call for its last occurrence: the reply text ("" if absent) or the sentinel after an HTTP failure |
| `Comparison.ComparePartialFailure` | app.py:135-136 | when the first backend fails at the HTTP level and the second replies with anything, both entries are present: the sentinel and that reply's text |
| `Comparison.CompareAbortSticks` | app.py:126-137 | once a call for an earlier model aborts the request, the whole comparison fails |

## Left out

- FastAPI routing, the `/static` mount and serving `index.html` (app.py:10-13, 34-41): framework and file I/O.
- The HTTP calls themselves, `raise_for_status` and JSON decoding: the backend is an oracle that returns a reply, an HTTP failure or another failure.
- A `"response"` field that is present but is not a string, and a JSON body that is not an object: these are the second failure kind, or are not modelled.
- Directory creation, the file write and reading the upload's bytes: only the outcome (written or not) and the locator string are modelled.
- `uuid.uuid4()`: the fresh conversation id and the media token are inputs. The id must not already be in the store. The round trip needs a token without underscores, which the text of a UUID satisfies.
- The file name is not sanitised against path traversal, neither in the source nor in the model.
- Async execution and interleaving of concurrent requests: each request is modelled as one atomic step on the store.
- HTTP status codes and error detail texts: only the error kind is kept.
- Pydantic validation of the records, and the truthiness of the uploaded file object: an upload is either present or absent.
- Small response details: the `conversation_id` that `send_message` echoes back next to the reply (app.py:102-105) is not returned, since it is the caller's own argument; the form default `"model_a"` for the model choice (app.py:56) is left to the caller, and any name falls back to `model_a` anyway; the key order of the comparison result (a Python dict keeps first-insertion order) is not modelled, since a Dafny map has no order.
