# PairD chat: session state and persistence, in Dafny

PairD is a single-user chat front-end. It relays a conversation to a hosted
completion service, streams the reply, and keeps the conversation across page
reloads in a pickled temporary file, one per session id. This project models
the logic of `app.py` around the message history:

- the ephemeral store protocol (save, load and cleanup of the session file);
- export of the history as a JSON document, and import of an uploaded one;
- the numbered plain-text transcript;
- the conversation controller's transitions on the per-session state bag:
  first-run restore, model change, Clear Chat, the "loaded from file" notice,
  and a submitted turn, including the request sent to the completion service.

Files:

- `wrappers.dfy`: `Option` and `Result`.
- `pyjson.dfy` (module `PyJson`): JSON values as Python holds them, and the three
  Python operations the app applies to them: `key in v`, `v[key]` and `str(v)`.
  Their exception texts are those of CPython 3.11 and later. The history is a
  sequence of these values, because an import stores whatever list it is given.
- `store.dfy` (module `EphemeralStore`): the temporary directory as a map from
  session id to file. A file is either `Intact(record)` or `Unreadable(reason)`.
  The module gives the directory after a save or a removal, and what a load
  returns, as functions, plus lemmas relating them.
- `history.dfy` (module `History`): the export document, validation of an upload,
  the transcript, and the request and reply of a turn, as functions and lemmas.
- `conversation.dfy` (module `Conversation`): class `SessionState` has the
  session-state fields and the handlers as methods. Class `TempDir` holds the
  directory. Each method's `modifies` clause names exactly the fields that the
  handler in `app.py` assigns, so nothing else changes.

Two consequences of `app.py` that the model keeps:

- An import keeps each uploaded entry as it is (extra keys included).
  Entries do not have to be role/content objects, because only the list itself
  is checked (app.py:137-138).
- The role of an entry is any JSON value, not only "user" or "assistant".

## Model

| member | source | states |
|---|---|---|
| `EphemeralStore.Saved` | app.py:56-78 | a save of an empty history leaves the directory exactly as it was; a save changes at most the session's own file and never another session's |
| `EphemeralStore.Load` | app.py:80-96 | the count is the length of the returned list; an error is recorded exactly when the file cannot be unpickled, and the list is then empty; a non-empty list is exactly the list stored in the session's intact file |
| `EphemeralStore.Removed` | app.py:98-106 | after removal the session has no file; every other session's file is kept unchanged |
| `EphemeralStore.SaveThenLoad` | app.py:63-91 | saving a non-empty history and loading with the same session id returns that history, its length, and no error |
| `EphemeralStore.EmptySaveKeepsRecord` | app.py:59-60 | saving an empty history, whatever fault occurs, never overwrites an earlier record |
| `EphemeralStore.LoadEmptyCases` | app.py:85-96 | load returns the empty history exactly when the file is absent or unreadable, has no "messages" key, or holds an empty list |
| `EphemeralStore.LoadAfterCleanup` | app.py:98-104 | after cleanup, a load for the session returns `([], 0)` and records no error |
| `EphemeralStore.LastSaveWins` | app.py:69-70 | a successful save replaces whatever an earlier save (successful or not) left in the file |
| `EphemeralStore.OtherSessionsUntouched` | app.py:43-54 | a save or a cleanup for one session id never changes what another session id loads |
| `PyJson.Contains` | app.py:137 | Python `"messages" in v` raises a TypeError exactly for a scalar; on a dict it is key membership |
| `PyJson.Subscript` | app.py:137-138 | Python `v["messages"]` yields a value exactly when `v` is a dict holding the key, and then the value stored under it |
| `PyJson.Entry` | app.py:264 | an entry built by the app has a role and a content, holding the given strings |
| `History.ExportOf` | app.py:109-127 | there is no export document exactly when the history is empty; otherwise its messages are the history, its total is the history's length, and its model and timestamp are the given ones |
| `History.DocumentJson` | app.py:113-118 | the downloaded object has exactly the keys timestamp, messages, model and total_messages; they hold the document's timestamp, its history, its model name and the history's length |
| `History.DownloadFilename` | app.py:125 | the download is named `chat_history_<timestamp>.json` |
| `History.ImportMessages` | app.py:129-146 | an import succeeds exactly when the upload parses to a dict whose "messages" value is a list, and yields that list; malformed JSON gives the invalid-JSON error and nothing else does; any other failing dict gives the invalid-format error; any document for which `"messages" in doc` is false (a list without a "messages" element, a string without that substring) gives the invalid-format error; a read or decode failure, a scalar document's TypeError, and the TypeError of `doc["messages"]` on a list or string that does contain "messages" give the exception error with that text |
| `History.StampLabel` | app.py:140 | the timestamp shown after a successful import is the document's timestamp string, or "Unknown date" when the document has none |
| `History.ErrorText` | app.py:141-146 | every failure message starts with the cross mark; the exception message ends with the exception's text |
| `History.ImportFeedback` | app.py:137-146 | the flag is true exactly when the import succeeds; the message is then "✅ Loaded N messages from <timestamp>" with N the number of imported entries, and otherwise the message for the failure |
| `History.ImportOfExport` | app.py:113-138 | importing an exported document gives back exactly the exported history |
| `History.ImportIgnoresOtherFields` | app.py:137-138 | adding or changing any key other than "messages" does not change the outcome of an import |
| `History.ImportFeedbackDistinct` | app.py:137-146 | the returned flag is true exactly when the import succeeded; failure messages start with a cross mark, the success message with a check mark |
| `History.ErrorTextsDistinct` | app.py:141-146 | the three kinds of import failure (invalid format, invalid JSON, exception) never show the same message |
| `History.Header` | app.py:153-157 | the transcript header starts with the "Chat History Export" line and ends with the rule of fifty '=' followed by a blank line |
| `History.Transcript` | app.py:148-164 | the text export is None exactly on an empty history; it succeeds exactly when every entry has a role and a content; it is then the header followed by one block per entry, in order, numbered from 1 |
| `History.RoleLabel` | app.py:160 | the role label is "You" exactly for the role "user", and "AI Assistant" for any other role |
| `History.Block` | app.py:159-161 | an entry's transcript block exists exactly when the entry has a role and a content; otherwise reading it raises |
| `History.BlocksStep` | app.py:159-161 | each loop iteration extends the transcript body by the next entry's block, numbered one past the entries already done |
| `History.BlocksFromSnoc` | app.py:159-161 | appending an entry to the history appends exactly its block, numbered last, to the front-to-back transcript |
| `History.BlocksInOrder` | app.py:159-161 | the loop's accumulated body equals one block per entry in history order, numbered from 1 |
| `History.BlocksSucceed` | app.py:159-161 | the transcript body is produced exactly when every entry has a role and a content |
| `History.BlocksPrefixFailure` | app.py:159-161 | the first entry that raises decides the export's exception; later entries play no part |
| `History.TranscriptGrowsByOneBlock` | app.py:159-161 | for a well-formed history, adding one well-formed entry grows the body by exactly that entry's block |
| `History.Projected` | app.py:287-290 | the projection succeeds exactly when every entry has a role and a content; it then has one message per entry, in order, holding that entry's role and content |
| `History.RequestMessages` | app.py:280-291 | the request is built exactly when every entry has a role and a content; it then has one message more than the history: first the system message with the system prompt, then, at position k+1, the k-th entry's role and content |
| `History.Concat` | app.py:297 | the streamed reply's length is the sum of the fragments' lengths, and it begins with the first fragment |
| `History.ConcatSnoc` | app.py:297 | each fragment that arrives is appended at the end of the reply, so the reply keeps the arrival order |
| `History.ErrorNotice` | app.py:304 | the notice starts with the cross mark and ends with the exception's text |
| `History.Reply` | app.py:276-306 | the reply is the concatenated stream when the request was built and the stream finished; otherwise it is the error notice carrying the exception's text |
| `History.FailedStreamGivesNotice` | app.py:303-306 | after a failed stream the reply is the error notice; it is the same whatever text arrived before the failure, so a stream that delivered "Partial" does not leave "Partial" as the reply |
| `History.MalformedEntryFailsRequest` | app.py:287-290 | once the history holds an entry without a role or a content, building the request raises, and the reply the request builder yields no longer depends on the service |
| `Conversation.SessionState.constructor` | app.py:35-36 | a new session starts with the default model selected, an empty history, and every flag and buffer unset |
| `Conversation.SessionState.SessionFilePath` | app.py:53 | the session file is `<temp dir>/<session id>.pkl` |
| `Conversation.SessionState.SaveSessionData` | app.py:56-78 | the directory becomes `Saved` of the old one; the result is true exactly when the history is empty or no fault occurred; the last-save time and path are set only on a real write, and the save error only on a fault |
| `Conversation.SessionState.LoadSessionData` | app.py:80-96 | returns what `Load` reads, with its length; `load_error` is set exactly when the file is unreadable |
| `Conversation.SessionState.CleanupSessionData` | app.py:98-106 | true unless removing an existing file failed; on true the session's file is gone; on false the directory is unchanged |
| `Conversation.SessionState.SaveChatHistory` | app.py:109-127 | true exactly on a non-empty history; the download data is then the export document of the history, and the filename is `chat_history_<timestamp>.json`; otherwise nothing changes |
| `Conversation.SessionState.LoadChatHistory` | app.py:129-146 | on success the history becomes exactly the uploaded list and conversation_loaded is set; on every failure the history and the flag are unchanged; the message is the one for the outcome |
| `Conversation.SessionState.ExportChatAsText` | app.py:148-164 | returns None on an empty history; otherwise the header and one numbered block per entry, or the exception raised by the first malformed entry |
| `Conversation.SessionState.ChangeModel` | app.py:176-179 | the selected model becomes the chosen one, which is one the selector offers; the history is not touched |
| `Conversation.SessionState.ClearChat` | app.py:184-193 | the history is empty, the download data and text export are cleared, and the session file is removed unless removing it failed |
| `Conversation.SessionState.InitializeSession` | app.py:215-226 | only on the first run: the history becomes what the store loads (empty if nothing usable), with the restored flag and count set exactly when that is non-empty; on later runs nothing changes |
| `Conversation.SessionState.ShowLoadedNotice` | app.py:243-246 | the loaded-from-file notice is shown exactly when the history is non-empty and the flag is set, and showing it clears the flag |
| `Conversation.SessionState.Submit` | app.py:261-309 | the history grows by exactly two entries, the prompt and then one assistant entry holding the reply; earlier entries are unchanged; the request sent is the system message followed by every entry's role and content; the directory reflects the two saves in order |
| `Conversation.TurnIsPersisted` | app.py:298-301 | when a turn's second save succeeds, loading the session returns the whole history after the turn |

## Left out

- Streamlit rendering is not modelled: page setup, header, layout, HTML, avatars, spinners, `st.error` and `st.info`. The same goes for the display loop over the history, and for the control flow of `st.rerun`/`st.stop` (app.py:13-20, 229-257). A handler is modelled as one method call, not as a whole script run.
- The Azure OpenAI client and the network stream (app.py:203-207, 278-297) are not modelled. The stream is an input: `Streamed(fragments)`, or `StreamFailed(partial, error)` with the fragments that arrived before the exception. Incremental display of the fragments is not modelled.
- prompts.py is not part of this model. The formatted system prompt is an opaque string parameter.
- Pickle and JSON serialisation are not modelled. The download data is the JSON value that `json.dumps` would write, not its text. An upload arrives already parsed, as malformed JSON, or as a read/decode failure with its text.
- The clock (`datetime.now`) is not modelled. Each operation takes one `Clock` reading, with the four formats the app writes. Where the source reads the clock twice in one call, the model uses one reading.
- The session id derivation `hash(str(id(...)))` (app.py:47-51) and `tempfile.gettempdir()` are not modelled. Both become constructor parameters. `os.path.join` is written as a "/" join.
- The API-key and client-initialisation checks (app.py:197-207) are a fatal configuration precondition, not modelled logic.
- JSON floating-point numbers are not modelled, and neither is Python's `str()` of a list or a dict: the caller supplies the latter as `containerStr`.
- A session file that unpickles to something other than a dict, or whose "messages" value is not a list, is not modelled. A record's messages are either a list or absent.
- `st.session_state.get('messages')` returning None (app.py:59) is not modelled separately. `messages` is set to `[]` by the constructor, which mirrors app.py:211-212, and that happens before any save runs.
- `Submit` on a history holding an entry without a role or a content cannot be reached in the app. On every script run the display loop (app.py:250-257), which is not modelled, reads each entry's role and content before the chat input, so it raises first. Such an entry can only come from an upload (`load_chat_history`, which app.py never calls) or from a session file this app did not write.
- Concurrent writers to the same session file (two tabs) are not modelled. Every operation here runs to completion before the next one starts.
