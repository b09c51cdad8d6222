# Chat front-end for a natural-language-to-SQL backend, modelled in Dafny

The repository is a Streamlit page through which a user asks questions about a
data warehouse. A remote backend turns each question into SQL, the page runs that
SQL on the warehouse and asks the backend for chart scripts, and the exchange is
kept as a list of messages in the browser session. Two versions of the page exist:
`app.py` (current) and `app_orig.py` (older).

This project models the logic of both pages:

- `backend.dfy`, module `Backend`: the `call_*` wrappers. The HTTP exchange is an
  input (`HttpOutcome`: a response with status, reason phrase and decoded body, or
  a transport failure). Each wrapper is a pure map from it to what the wrapper
  returns: the payload, or the error string, `None` or `False` that it returns
  instead of raising. `raise_for_status` raises for 400–599 and for nothing else.
- `chat.dfy`, module `Chat` (`app.py`): the stored message kinds (`ok_code` 200,
  201 and 500) and the classifier. `Respond` is the prompt handler as a function
  of the answers that `generate_sql`, the warehouse and `generate_viz` would give.
  It returns the calls made in order, the messages appended and whether the run
  raised. `ViewOf` is the per-message render dispatch. `SessionState` is the
  session's transcript, a class whose methods create it once, render it and
  append to it in place. `Conversation` and its lemmas cover many submissions in
  a row.
- `chat_orig.dfy`, module `ChatOrig` (`app_orig.py`): the older handler. It
  branches on the Python truthiness of the `generate_sql` result. Messages hold
  only role and content. The module also has that page's session list and its
  replay loop.
- `common.dfy`, module `Common`: roles, avatars, rows, chart payloads, the
  warehouse outcome and the two fixed replies both pages use.

The warehouse client and the identity token are outside the model. A query
result is an input: rows, or an exception nothing catches. A handler run can end
in an exception. Examples are subscripting a wrapper's error string or `None`
sentinel, or a warehouse error. The model records such a run as `raised`, with
only the messages appended before it.

Behaviour of the code that a reader might not expect:

- A failed `generate_sql` request does not produce an "unanswerable" reply in
  `app.py`; the handler raises and the question stays without a reply (see
  Findings).
- A warehouse error or a failed chart request also raises instead of producing a
  reply, in both pages.
- `call_embed_sql` acknowledges every status that `raise_for_status` lets
  through (e.g. a 3xx), not only 2xx.
- In `app_orig.py` the whole `generate_sql` result, or its error string, is what
  is handed to the warehouse as the query. That page asks for charts for every
  row, and even for an empty result.

## Model

| member | source | states |
|---|---|---|
| `Backend.CallListDatabases` | app.py:65-77 | returns the database list exactly when the request does not raise; otherwise a non-empty "Error listing databases: …" string with the exception's text |
| `Backend.PayloadOrNone` | app.py:85-92 | the shape of the wrappers whose sentinel is `None`: `Some` of the payload exactly when the request does not raise, `None` otherwise |
| `Backend.CallGetKnownSql` | app.py:79-92 | returns `Some` of the suggestions exactly when the request does not raise, `None` otherwise |
| `Backend.CallGenerateSql` | app.py:94-108 | returns the whole decoded response exactly when the request does not raise; otherwise a non-empty "Error generating SQL: …" string (used by both pages; app_orig.py:94-108 differs only in sending no token) |
| `Backend.CallRunQuery` | app.py:111-124 | returns `Some` of the result rows exactly when the request does not raise, `None` otherwise |
| `Backend.CallEmbedSql` | app.py:131-147 | `True` exactly when the request does not raise: for a response, exactly when its status is outside 400–599 (a redirect status included); never after a transport failure |
| `Backend.CallNaturalResponse` | app.py:149-162 | returns `Some` of the natural-language answer exactly when the request does not raise, `None` otherwise |
| `Backend.CallGenerateViz` | app.py:164-180 | returns `Some` of the chart object exactly when the request does not raise, `None` otherwise |
| `Chat.Classify` | app.py:277-279 | 500 exactly when the response code is not 200; 201 exactly when it is 200 and there are no rows; 200 exactly when it is 200 and there are rows |
| `Chat.VizRows` | app.py:280 | the rows sent for charts are a prefix of the result of length min(12, number of rows) |
| `Chat.Answer` | app.py:277-294 | after a response object: code ≠ 200 gives only the 500 "still learning" reply with empty data, SQL and graphs, and no query; otherwise the query runs on `GeneratedSQL`; no rows gives the 201 reply carrying that SQL and no chart request; rows give a chart request with the first min(12, n) rows, and the 200 reply stores all rows, the SQL and both chart scripts; a warehouse error or failed chart request raises before any reply; the reply's `ok_code` equals `Classify`; charts are requested only for a non-empty result |
| `Chat.Respond` | app.py:270-294 | an empty prompt does nothing; otherwise the human message is appended first and `generate_sql` is the first call; a turn appends two messages (human, then assistant) exactly when it does not raise, and one when it raises; a failed `generate_sql` request raises with only the human message stored |
| `Chat.RespondGuarded` | app.py:276-277 | the corrected handler: a failed `generate_sql` request yields the human message and the 500 reply, with no other call; in every other case it behaves as `Respond` |
| `Chat.TransportFailureDropsReply` | app.py:276-277 | as written, a transport failure of `generate_sql` leaves the human message without reply; the corrected handler appends the 500 reply |
| `Chat.ConversationExtends` | app.py:272-293 | handling a sequence of questions never changes earlier entries and adds at most two entries per question |
| `Chat.ConversationAlternates` | app.py:270-294 | when every question is non-empty and handled without an exception, the transcript grows by exactly two entries per question, in order: that question's human message, then an assistant reply |
| `Chat.ViewOf` | app.py:220-268 | every message shows its content, with the user avatar exactly for human messages; a 200 reply shows data and SQL tabs, preceded by the two chart tabs (4 tabs) when graphs are on, else 2; a 201 reply shows its SQL; other replies and human messages show nothing more |
| `Chat.SessionState.constructor` | app.py:215 | a new session has no `session_data` |
| `Chat.SessionState.EnsureTranscript` | app.py:215-218 | creates the empty transcript only when none exists; an existing one is kept unchanged |
| `Chat.SessionState.Render` | app.py:219-268 | draws one view per stored message, in order, each as `ViewOf` chooses |
| `Chat.SessionState.Submit` | app.py:270-294 | the transcript becomes the old one followed by what `Respond` appends, in place; calls and exception as `Respond`; earlier entries are unchanged; growth is 0, 1 or 2 entries |
| `Chat.SessionState.RunScript` | app.py:215-294 | one page run: the transcript is created if absent, the stored messages are drawn before the new prompt is handled, then the prompt's messages are appended |
| `ChatOrig.Respond` | app_orig.py:196-244 | an empty prompt does nothing; otherwise the human message comes first and `generate_sql` is the first call; a falsy result appends only the fallback reply with no query or chart call; a truthy result is itself passed to the warehouse and, with all the result rows (no cap), to the chart request; it raises exactly when the query or the chart request fails; a warehouse error stops it after exactly the `generate_sql` and query calls; otherwise it appends the fixed affirmative reply holding only role and content |
| `ChatOrig.ErrorStringTakesAnswerBranch` | app_orig.py:202-204 | a failed `generate_sql` request (transport failure or 4xx/5xx status) returns a truthy error string, so the handler takes the answering branch and the error text is sent to the warehouse as the query |
| `ChatOrig.SessionState.constructor` | app_orig.py:189 | a new session has no `messages` |
| `ChatOrig.SessionState.EnsureMessages` | app_orig.py:189-190 | creates the empty list only when none exists; an existing one is kept unchanged |
| `ChatOrig.SessionState.Replay` | app_orig.py:192-194 | shows every stored message in insertion order with its role, the avatar for that role and its content |
| `ChatOrig.SessionState.Submit` | app_orig.py:196-244 | the list becomes the old one followed by what `ChatOrig.Respond` appends, in place; earlier entries are unchanged; growth is 0, 1 or 2 entries |

## Left out

- Identity-token fetching (app.py:60-63) is a foreign call. In `app.py` it runs outside each wrapper's `try`, so its failure would raise out of every wrapper; the model does not cover that.
- The HTTP requests themselves are inputs (`HttpOutcome`). A body that is not valid JSON, and a missing key (`KnownDB`, `KnownSQL`, `ResponseCode`, `GeneratedSQL`, `GeneratedChartjs`, `chart_div`, `chart_div_1`), are not modelled. Bodies are typed values that always hold their fields.
- `Backend.ExceptionText`: the text of an error-status exception is the reason phrase. The status code and URL that the HTTP library adds to it are not modelled.
- The warehouse client (`call_run_query_bq`, app.py:126-128) is an input: rows or an exception. A data frame is its sequence of rows. pandas also calls a frame with rows but no columns empty; the model does not.
- `DataFrame.to_json` is modelled as the rows it serialises, not as JSON text.
- UI only: page setup, CSS, images, instructions, the immediate echo of the prompt, the spinner, the SQL preview shown right after a 201 reply is built (app.py:287-288), the tabs and charts the older page draws right away (app_orig.py:208-239), HTML chart embedding, `st.rerun`. The graph toggle is a parameter of rendering.
- The error messages the wrappers print before returning `None` or `False` (app.py:91, 123, 146, 161, 179) are console output and are not modelled.
- 201 and 500 turns store an empty list `[]` in `SQL`, `Graph1` and `Graph2` (app.py:289, 293). The model stores the empty string instead. Rendering never reads those fields for such turns.
- Configuration loading (app.py:19-36), the unused reply lists and the `random` import.
- The older page's other `call_*` wrappers are the same as `app.py`'s without the token header. The `Backend` functions cover them.

## Findings

| source | as written | input that shows it | evidently intended | confidence | as-written member | corrected member |
|---|---|---|---|---|---|---|
| app.py:276-277 | On a failed request, `call_generate_sql` returns an error string. The handler then reads `result_sql_code["ResponseCode"]` from that string, which raises `TypeError`. The human message stays in the transcript with no reply. | any non-empty prompt whose `generate_sql` request fails to connect or gets status 500 | the error string handled as an unanswerable turn: the 500 "still learning" reply | medium (not executed) | `Chat.TransportFailureDropsReply` | `Chat.RespondGuarded` |

`SessionState.Submit` follows the code as written. `RespondGuarded` is the
corrected handler.
