# Multi-model chat relay backend, modelled in Dafny

This project models the turn-processing pipeline of a chat backend that relays one user message to two language models in turn. The models are `deepseek1` (order 1) and `deepseek2` (order 2). The backend streams their answers to the client over a socket and keeps each session's transcript in memory. The model covers four source files:

- `backend/src/models/Session.js` (module `SessionModel`, `session_store.dfy`). The module-level `Map` becomes the class `Store`. It holds a map from id to record and the insertion order of the keys. Each session's live `messages` array is an object of its own, the class `Transcript`. `GetHistory` hands out that very object, so pushes through it land in the store.
- `backend/src/services/bedrockService.js` (module `BedrockService`, `bedrock_service.dfy`):
  - the pure request formatter;
  - the frame decoder of `generateStreamingResponse`, as a method with the source's nested loops;
  - `ResponseFor`, the function that specifies that method.
  The provider is a function from the request to its reply. The reply is a finite sequence of frames, possibly followed by a thrown error.
- `backend/src/services/socketService.js` (module `SocketService`, `socket_service.dfy`):
  - the `send_message` handler, `processModelsInSequence` and `processModel`, as methods over a `Socket` whose `emit` appends to an event log;
  - the specification functions `ProcessModelSpec`, `RunModels` and `Turn` that the methods are proved against.

  The model adapter is a function from the model and the history it is handed to its outcome: the chunks it passed to `onChunk`, then a returned string or a thrown error. The clock is a function from the stamping point of a turn to a time: `clock(0)` stamps the user message and `clock(k)` stamps the k-th model's answer.
- `backend/src/controllers/sessionController.js` (module `SessionController`, `session_controller.dfy`). `getSessionHistory` has two parts. Its in-place timestamp backfill is a loop over the stored transcript. Its sort of a copy is a stable insertion sort, `SortByTimestamp`, proved sorted, a permutation and stable.

`messages.dfy` (module `Messages`) holds the shared values:
- the stored message record;
- JavaScript's `!s || s.trim() === ''` as `IsBlank`;
- string accumulation as `Concat`;
- the fixed placeholder and error texts.

`end_to_end.dfy` (module `EndToEnd`) follows one turn with the backend's own adapter on a fresh session, then one history fetch.

Timestamps are integers. Fresh session ids and the current time are inputs.

Points of the code's behaviour that a reader might not expect, all modelled as written:
- The code does not deduplicate appends. The same message added twice is stored twice.
- `getHistory` returns the stored array itself, not a copy.
- After each model, `processModelsInSequence` pushes `{role: 'user', modelId, content}` onto that array. A model that resolves therefore adds two transcript entries, its assistant message and this copy, and a model that throws adds one. A turn grows the transcript by 3 to 5 entries, not by 1 plus one per model. With the backend's adapter, which never throws, it grows by exactly 5 (`BedrockTurnGrowth`).
- The chunks a model streamed concatenate to its stored answer only when nothing was streamed, or when the stream ended normally with non-blank text. A partial stream cut short by an error and blank deltas followed by the placeholder both break the equality (`ChunksConcatenateToResponse`).
- The re-pushed copies carry no timestamp. The history fetch stamps them with the fetch time, so they sort after both assistant answers. A fetch after a first turn returns five entries, not three (`FirstTurnFetchedHistory`).

## Model

| member | source | states |
|---|---|---|
| Messages.IsJsWhitespace | backend/src/services/bedrockService.js:130 | The reference definition of the characters `String.prototype.trim` removes (WhiteSpace and LineTerminator of ECMA-262). `IsBlank` is built on it. |
| Messages.IsBlank | backend/src/services/bedrockService.js:130 | The reference definition of the blank test: `!s`, or `s.trim() === ''`, also used at socketService.js:141. `BlankAppend` and `ConcatBlank` state its properties. |
| Messages.BlankAppend | backend/src/services/bedrockService.js:130 | Joined text is blank if and only if both parts are. |
| Messages.ConcatBlank | backend/src/services/bedrockService.js:79-134 | The accumulated text is blank, and so replaced by the placeholder, if and only if every delta is whitespace only. |
| Messages.Concat | backend/src/services/bedrockService.js:79-127 | The text accumulated by repeated `+=` is empty exactly when every delta is empty. |
| Messages.ConcatAppend | backend/src/services/bedrockService.js:79-127 | Accumulating two runs of deltas one after the other gives the two accumulations joined. |
| Messages.NoResponseText | backend/src/services/bedrockService.js:130-134 | The placeholder naming the model is never blank. |
| Messages.ErrorText | backend/src/services/bedrockService.js:137-141 | The error text starts with `Error: `, is never blank, and is followed by the error's message, or by the fallback when that message is empty. |
| SessionModel.Transcript.constructor | backend/src/models/Session.js:22 | A new session's messages array is empty. |
| SessionModel.Transcript.Push | backend/src/models/Session.js:59 | `push` appends the message at the end, whatever the array already holds. |
| SessionModel.Store.constructor | backend/src/models/Session.js:7 | The store starts with no sessions and an empty insertion order. |
| SessionModel.Store.Create | backend/src/models/Session.js:17-27 | Stores a record with the given id and creation time and a fresh, empty messages array. `GetById` of that id returns it and no other lookup changes. A new key goes at the end of the insertion order, and an existing key keeps its place as `Map.set` does. Only that session's transcript becomes empty. |
| SessionModel.Store.GetAll | backend/src/models/Session.js:33-38 | One `{id, createdAt}` per stored session, in insertion order, carrying the stored creation time. |
| SessionModel.Store.GetAllListsEachOnce | backend/src/models/Session.js:33-38 | The listing names every stored session, names nothing else, and names none twice. |
| SessionModel.Store.OrderCoversKeys | backend/src/models/Session.js:34 | The insertion order has as many entries as the map has keys. |
| SessionModel.Store.GetById | backend/src/models/Session.js:45-47 | Some stored record exactly for a stored id, and null otherwise. |
| SessionModel.Store.AddMessage | backend/src/models/Session.js:55-61 | Returns false and changes nothing for an unknown id. Otherwise it returns true and appends the message to that session's transcript with no duplicate check, and every other transcript keeps its content. |
| SessionModel.Store.GetHistory | backend/src/models/Session.js:68-73 | Null for an unknown id. Otherwise it returns the stored messages array itself, one of the objects the store owns, not a copy. |
| BedrockService.ConverseRole | backend/src/services/bedrockService.js:16-44 | The mapped role is `assistant` exactly for `assistant` and `user` for every other role. |
| BedrockService.FormatMessagesForConverse | backend/src/services/bedrockService.js:14-46 | One converse message per stored message, in order. Each has the mapped role and a single text block holding the stored content. |
| BedrockService.FormatDistributes | backend/src/services/bedrockService.js:14-46 | Formatting works element by element: formatting a concatenation concatenates the formatted parts. |
| BedrockService.BlockTexts | backend/src/services/bedrockService.js:87-94 | The deltas of a content-block list are non-empty and at most one per block. |
| BedrockService.PayloadText | backend/src/services/bedrockService.js:111-117 | The text of a parsed bytes payload is empty exactly when neither `text` nor `content` is truthy. A truthy `text` is used, and `content` only when `text` is not truthy. |
| BedrockService.FrameDeltas | backend/src/services/bedrockService.js:82-126 | No frame yields an empty delta. |
| BedrockService.StreamDeltas | backend/src/services/bedrockService.js:81-127 | No delta of a whole stream is empty. |
| BedrockService.StreamDeltasAppend | backend/src/services/bedrockService.js:81-127 | The deltas of two streams in sequence are the deltas of each, joined. |
| BedrockService.FrameInStream | backend/src/services/bedrockService.js:81-127 | A frame contributes its own deltas at its own place in the stream. |
| BedrockService.SilentFrameSkipped | backend/src/services/bedrockService.js:103-125 | A frame with none of the three fields, a bytes frame whose payload does not parse, and a bytes frame with neither a truthy `text` nor a truthy `content` change no stream's deltas. |
| BedrockService.BytesTextFirst | backend/src/services/bedrockService.js:111-122 | In a bytes frame a truthy `text` is the delta even when `content` is present. `content` is used only when `text` is not truthy. |
| BedrockService.ResponseFor | backend/src/services/bedrockService.js:56-143 | The relayed chunks start with the stream's deltas, and none is empty. The result is never blank. A thrown error gives its error text, relayed once more. A normal end with non-blank text returns the concatenation of exactly the relayed chunks. A blank accumulation returns the placeholder, relayed once more. |
| BedrockService.ChunksConcatenateToResponse | backend/src/services/bedrockService.js:79-142 | The relayed chunks concatenate to the result if and only if nothing was streamed, or the stream ended normally with non-blank text. |
| BedrockService.DecodeFrame | backend/src/services/bedrockService.js:82-126 | One pass of the frame loop relays exactly the frame's deltas and keeps the accumulated text equal to the concatenation of all chunks so far. |
| BedrockService.DecodeBlocks | backend/src/services/bedrockService.js:87-94 | The inner loop over content blocks relays each truthy block text in order, accumulating as it goes. |
| BedrockService.BlockTextsStep | backend/src/services/bedrockService.js:88-93 | One more content block adds its text, if truthy, to the deltas of the blocks before it. |
| BedrockService.GenerateStreamingResponse | backend/src/services/bedrockService.js:56-143 | The chunks passed to `onChunk` and the returned string are those `ResponseFor` gives for the provider's reply to the formatted history. |
| SocketService.Socket.constructor | backend/src/services/socketService.js:10 | A new connection has emitted nothing. |
| SocketService.Socket.Emit | backend/src/services/socketService.js:127-134 | `emit` appends the event to the connection's log. |
| SocketService.BedrockAdapter | backend/src/services/socketService.js:121-136 | The backend's adapter, `generateStreamingResponse` called with the model's configured provider id, always resolves, and never with a blank answer. |
| SocketService.BedrockOutcome | backend/src/services/socketService.js:121-136 | One call of that adapter on a given history resolves with a non-blank answer. |
| SocketService.ChunkEvents | backend/src/services/socketService.js:125-135 | One non-terminal `receive_message` per chunk, in order, tagged with the model's id and order. |
| SocketService.AnswerRun | backend/src/services/socketService.js:138-177 | After a resolved call the answer is never blank. A non-blank answer is kept and followed only by the terminal chunk. A blank one becomes the placeholder, emitted as one more chunk before the terminal chunk. The answer is stored as an assistant message with the model's id and stamp. |
| SocketService.FailureRun | backend/src/services/socketService.js:178-205 | After a thrown error nothing is stored. The result is the non-blank `Error: ` text, emitted as a chunk and then followed by the terminal chunk. |
| SocketService.ProcessModelSpec | backend/src/services/socketService.js:115-207 | `processModel` as a function of the adapter's outcome. It emits more events than the chunks it relays, never resolves with a blank answer, and stores an entry exactly when the adapter resolved. `ProcessModelFacts` states the rest. |
| SocketService.ModelBlockOf | backend/src/services/socketService.js:127-166 | The relayed chunks followed by the terminal chunk, with or without one extra chunk before it, form one model block. |
| SocketService.ProcessModelFacts | backend/src/services/socketService.js:115-207 | A model's events start with its relayed chunks. Every one is a `receive_message` with the model's id and order, and only the last is complete, with an empty message. The result is never blank. A blank answer becomes the placeholder, emitted once more. A non-blank answer, including one starting with `Error:`, is kept and followed only by the terminal chunk. A resolved answer is stored as an assistant message stamped for this model. A thrown error stores nothing and resolves with its error text. |
| SocketService.StepModel | backend/src/services/socketService.js:80-96 | One pass of the model loop adds at least two events, the last being `model_complete` for that model. It adds one or two transcript entries, the last a `user` entry tagged with the model's id. |
| SocketService.RunModels | backend/src/services/socketService.js:80-96 | The model loop over a list of models adds at least two events per model. `RunModelsGrowth` states the transcript growth and the prefixes. |
| SocketService.Turn | backend/src/services/socketService.js:32-99 | A turn on a known session emits at least five events, and the last is `all_responses_complete`. `TurnEvents`, `TurnSteps` and `TurnGrowth` state the rest. |
| SocketService.ProcessModel | backend/src/services/socketService.js:115-207 | The events emitted, the entry stored and the resolved answer are those of `ProcessModelSpec` for the adapter's outcome on the live transcript. |
| SocketService.CompleteAnswer | backend/src/services/socketService.js:138-177 | After a resolved adapter call: the placeholder chunk for a blank answer only, then the terminal chunk, then the assistant message appended to the live transcript. |
| SocketService.ReportFailure | backend/src/services/socketService.js:178-205 | After a thrown error: an error chunk and a terminal chunk, nothing stored, and the error text resolved. |
| SocketService.RelayChunks | backend/src/services/socketService.js:125-135 | Each chunk the adapter produces is emitted at once as a non-terminal `receive_message`, in order. |
| SocketService.ProcessModelsInSequence | backend/src/services/socketService.js:63-105 | Runs the models in configured order, each on the live transcript. After each it pushes the re-pushed copy onto that array and emits `model_complete`, then it emits `all_responses_complete`. The events and the transcript are those `RunModels` gives. |
| SocketService.SendMessage | backend/src/services/socketService.js:18-53 | An unknown session gets exactly one `invalid_session` error event, and no transcript changes. A known session's events and transcript are those of `Turn`, and no other session's transcript changes. |
| SocketService.AcceptMessage | backend/src/services/socketService.js:32-44 | The stamped user message is stored before any model runs, and the models run on the session's own stored array. |
| SocketService.RunModelsGrowth | backend/src/services/socketService.js:80-96 | Running models only appends to the events and the transcript. Each model adds one or two entries, and exactly two when the adapter never throws. |
| SocketService.TurnSteps | backend/src/services/socketService.js:80-99 | A turn is the first model's block and its `model_complete`, then the second model's block, its `model_complete` and `all_responses_complete`. The second model runs on the transcript holding the first model's entries. |
| SocketService.SecondModelSeesFirstAnswer | backend/src/services/socketService.js:81-88 | The second model's history extends the first's. If the first model resolved, it holds that model's stamped assistant answer. If it threw, it holds only the `Error: ` text. In both cases the last entry is the non-blank copy under role `user`. |
| SocketService.TurnGrowth | backend/src/services/socketService.js:32-99 | A turn keeps the stored transcript, appends the stamped user message, and adds 3 to 5 entries in all, exactly 5 when the adapter never throws. |
| SocketService.TurnEvents | backend/src/services/socketService.js:79-99 | A turn's events are only `receive_message` and `model_complete` for the session, tagged with a configured model's id and order, in non-decreasing order. Each terminal chunk is followed at once by its `model_complete`, and every `model_complete` follows its terminal chunk. `all_responses_complete` comes last. |
| SocketService.TwoBlocks | backend/src/services/socketService.js:80-99 | Two model blocks, each closed by its `model_complete`, then `all_responses_complete`, form a well-shaped turn log. |
| SocketService.BedrockAdapterDirect | backend/src/services/socketService.js:121-156 | The backend's adapter never throws and never returns a blank answer. `processModel` relays its chunks, adds only the terminal chunk, and stores and resolves its answer unchanged. |
| SocketService.BedrockTurnGrowth | backend/src/services/socketService.js:80-96 | With the backend's adapter every turn adds exactly five transcript entries. |
| SessionController.GetSessions | backend/src/controllers/sessionController.js:8-22 | Status 200 with one summary per stored session, in insertion order, carrying the stored creation time. |
| SessionController.CreateSession | backend/src/controllers/sessionController.js:29-45 | Status 201 with the new id. The store then holds that id with the given creation time and an empty transcript, and no other transcript changes. |
| SessionController.Stamped | backend/src/controllers/sessionController.js:70-72 | A message after the backfill has a timestamp and keeps its role, model and content. A stamped message is untouched, and an unstamped one gets the fetch time. |
| SessionController.Backfilled | backend/src/controllers/sessionController.js:69-74 | Same length and order. Every entry has a timestamp. Stamped entries are untouched, and any other entry keeps its role, model and content and is stamped with the fetch time. |
| SessionController.BackfillIdempotent | backend/src/controllers/sessionController.js:69-74 | A second fetch stamps nothing further. |
| SessionController.TimeOf | backend/src/controllers/sessionController.js:78 | The time the comparator compares, `new Date(m.timestamp)`, is the stored time of a stamped message. |
| SessionController.Insert | backend/src/controllers/sessionController.js:77-79 | Inserting adds exactly the new entry: one longer, the same multiset plus it. |
| SessionController.InsertSorted | backend/src/controllers/sessionController.js:77-79 | Inserting into a time-ordered sequence keeps it time-ordered. |
| SessionController.InsertStable | backend/src/controllers/sessionController.js:77-79 | Inserting keeps each time's entries in order and puts the new entry last among those of its time. |
| SessionController.SortByTimestamp | backend/src/controllers/sessionController.js:77-79 | The sorted copy has the input's length and multiset. |
| SessionController.SortByTimestampCorrect | backend/src/controllers/sessionController.js:77-79 | The sorted copy is non-decreasing in time, a permutation of the input, and stable: for every time its entries appear in input order. |
| SessionController.SortedInputUnchanged | backend/src/controllers/sessionController.js:77-79 | An input already in time order comes back unchanged. |
| SessionController.GetSessionHistory | backend/src/controllers/sessionController.js:52-93 | An unknown session gets 404 `invalid_session` and nothing changes. Otherwise the stored transcript is backfilled in place, keeping its order, and no other transcript changes. The answer is 200 with the sorted copy of the backfilled transcript. |
| SessionController.HistoryResponseOrdered | backend/src/controllers/sessionController.js:68-82 | The fetched history is time-ordered, a permutation of the backfilled transcript, fully stamped, and keeps the stored order among equal times. |
| EndToEnd.FirstTurnTranscript | backend/src/services/socketService.js:32-99 | With the backend's adapter, a first turn stores five entries: the user message, `deepseek1`'s answer, its copy under role `user`, `deepseek2`'s answer and its copy. The answers are non-blank and stamped with the turn's times. |
| EndToEnd.FirstTurnFetchedHistory | backend/src/controllers/sessionController.js:68-82 | Fetching after that turn returns five entries: the user message, both answers, then both copies stamped with the fetch time. |
| EndToEnd.SortFive | backend/src/controllers/sessionController.js:77-79 | Of five entries, one later than the next and earlier than the last, the sort swaps exactly that pair. |

## Left out

- The timestamps carried by `receive_message` events are not modelled. They are not stored and nothing orders by them.
- The `model_error` branch of the `send_message` handler (socketService.js:46-52) is not modelled. In the source it is reached, for example, when `data` is null or undefined, so that `const { message, sessionId } = data` (socketService.js:20) throws. The model's inputs are a typed message and session id, which excludes that case, and nothing else the modelled handler calls can throw. `processModelsInSequence`'s rethrow is left out for the same reason.
- The `500` branches of the three REST handlers are not modelled, for the same reason.
- Concurrency is not modelled. Two `send_message` turns on one session can interleave at `await` points because the code has no per-session lock. The model runs one turn at a time.
- The environment configuration, `parseFloat`/`parseInt` and the generation parameters (`temperature`, `maxTokens`, `topP`) are not modelled. Each model's provider id is the default `us.deepseek.r1-v1:0`.
- The AWS client, `bedrockClient.send`, `Buffer` and `JSON.parse` are not modelled. A bytes payload is already parsed, and its `text`/`content` fields are strings. A non-string truthy field, which `+=` would convert to text, is not modelled.
- GetSessionHistory: stamps every unstamped message with one time `now`. The code calls `new Date()` once per message, and those times can differ by milliseconds.
- ISO time strings and their parsing by `new Date(...)` are not modelled. Times are integers, and `TimeOf` of an unstamped message (0) is never used, since only backfilled messages are sorted.
- `uuidv4()` is not modelled. The fresh id is an input to `CreateSession` and `Store.Create`.
- Authentication, the socket server, routes, the error-handler helpers, logging and the frontend are not part of this model.
