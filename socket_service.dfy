/** The sequential orchestrator of backend/src/services/socketService.js:
    the `send_message` handler, `processModelsInSequence` and `processModel`.
    `socket.emit` appends to the socket's event log; the model adapter is a
    function from the model and the history it is given to what it did (the
    chunks it passed to `onChunk`, then a returned string or a thrown error);
    the clock is a function from the stamping point of the turn (0 for the
    user message, k for the k-th model's answer) to a time. */
module SocketService {
  import opened Messages
  import opened SessionModel
  import BedrockService

  // ---------------------------------------------------------------------
  // Configuration and events
  // ---------------------------------------------------------------------

  /** A configured model: its id, the provider model id of its config and its fixed order. */
  datatype ModelEntry = ModelEntry(id: string, providerModelId: string, order: nat)

  /** The configured provider model id when no environment override is set. */
  const DefaultProviderModelId := "us.deepseek.r1-v1:0"

  /** The fixed list `processModelsInSequence` walks through. */
  const Models: seq<ModelEntry> := [
    ModelEntry("deepseek1", DefaultProviderModelId, 1),
    ModelEntry("deepseek2", DefaultProviderModelId, 2)
  ]

  /** The outbound socket events; the `timestamp` of `receive_message` is not modelled. */
  datatype Event =
    | ReceiveMessage(modelId: string, message: string, isComplete: bool, sessionId: string, order: nat)
    | ModelComplete(modelId: string, sessionId: string, order: nat)
    | AllResponsesComplete(sessionId: string)
    | ErrorEvent(code: string, message: string)

  /** The client connection; `events` is everything emitted to it so far. */
  class Socket {
    var events: seq<Event>

    constructor ()
      ensures events == []
    {
      events := [];
    }

    method Emit(e: Event)
      modifies this
      ensures events == old(events) + [e]
    {
      events := events + [e];
    }
  }

  /** What one adapter call did: the `onChunk` arguments in order, then either
      the string it resolved with or the message of the error it threw. */
  datatype AdapterOutcome =
    | Returned(chunks: seq<string>, response: string)
    | Threw(chunks: seq<string>, message: string)

  type Adapter = (ModelEntry, seq<Message>) -> AdapterOutcome

  /** The adapter the backend uses: `generateStreamingResponse` with the
      model's provider id, over a provider given as a function of the request. */
  function BedrockAdapter(provider: BedrockService.ConverseRequest -> BedrockService.ProviderReply): (r: Adapter)
    ensures forall model, history :: r(model, history).Returned? && !IsBlank(r(model, history).response)
  {
    (model: ModelEntry, history: seq<Message>) => BedrockOutcome(provider, model, history)
  }

  /** One call of the backend's adapter: it always resolves, never with a blank answer. */
  function BedrockOutcome(provider: BedrockService.ConverseRequest -> BedrockService.ProviderReply,
                          model: ModelEntry, history: seq<Message>): (o: AdapterOutcome)
    ensures o.Returned? && !IsBlank(o.response)
  {
    var r := BedrockService.ResponseFor(model.providerModelId,
      provider(BedrockService.ConverseRequest(model.providerModelId, BedrockService.FormatMessagesForConverse(history))));
    Returned(r.chunks, r.response)
  }

  // ---------------------------------------------------------------------
  // processModel, as a function of the adapter's outcome
  // ---------------------------------------------------------------------

  /** The fallback of `processModel`'s own error text. */
  const UnknownModelError := "An unknown error occurred"

  function ChunkEvent(model: ModelEntry, sessionId: string, text: string): Event {
    ReceiveMessage(model.id, text, false, sessionId, model.order)
  }

  function TerminalEvent(model: ModelEntry, sessionId: string): Event {
    ReceiveMessage(model.id, "", true, sessionId, model.order)
  }

  /** One non-terminal `receive_message` per chunk, in order. */
  function ChunkEvents(model: ModelEntry, sessionId: string, chunks: seq<string>): (r: seq<Event>)
    ensures |r| == |chunks|
    ensures forall i :: 0 <= i < |r| ==> r[i] == ChunkEvent(model, sessionId, chunks[i])
  {
    if chunks == [] then []
    else ChunkEvents(model, sessionId, chunks[..|chunks| - 1]) + [ChunkEvent(model, sessionId, chunks[|chunks| - 1])]
  }

  /** The events one model emits: all are `receive_message` events carrying
      the model's id and order, and exactly the last is complete, with an
      empty message. */
  ghost predicate ModelBlock(evs: seq<Event>, model: ModelEntry, sessionId: string) {
    && |evs| > 0
    && (forall i :: 0 <= i < |evs| ==>
          evs[i].ReceiveMessage? && evs[i].modelId == model.id && evs[i].order == model.order
          && evs[i].sessionId == sessionId && (evs[i].isComplete <==> i == |evs| - 1))
    && evs[|evs| - 1].message == ""
  }

  /** What `processModel` emits, resolves with and stores. */
  datatype ModelRun = ModelRun(events: seq<Event>, response: string, assistant: Option<Message>)

  /** What follows the relayed chunks when the adapter resolved with `response`. */
  function AnswerRun(model: ModelEntry, sessionId: string, response: string, stamp: int): (r: ModelRun)
    ensures !IsBlank(r.response)
    ensures r.assistant == Some(Message("assistant", Some(model.id), r.response, Some(stamp)))
    ensures !IsBlank(response) ==> r.response == response && r.events == [TerminalEvent(model, sessionId)]
    ensures IsBlank(response) ==>
      r.response == NoResponseText(model.id)
      && r.events == [ChunkEvent(model, sessionId, r.response), TerminalEvent(model, sessionId)]
  {
    var completeResponse := if IsBlank(response) then NoResponseText(model.id) else response;
    var extra := if IsBlank(response) then [ChunkEvent(model, sessionId, completeResponse)] else [];
    ModelRun(extra + [TerminalEvent(model, sessionId)], completeResponse,
             Some(Message("assistant", Some(model.id), completeResponse, Some(stamp))))
  }

  /** What follows the relayed chunks when the adapter threw `message`. */
  function FailureRun(model: ModelEntry, sessionId: string, message: string): (r: ModelRun)
    ensures r.assistant.None? && StartsWith(r.response, "Error: ") && !IsBlank(r.response)
    ensures r.events == [ChunkEvent(model, sessionId, r.response), TerminalEvent(model, sessionId)]
  {
    var errorMessage := ErrorText(message, UnknownModelError);
    ModelRun([ChunkEvent(model, sessionId, errorMessage), TerminalEvent(model, sessionId)], errorMessage, None)
  }

  /** `processModel` as a function of the adapter's outcome: the relayed
      chunks, then what `AnswerRun` or `FailureRun` adds. */
  function ProcessModelSpec(model: ModelEntry, sessionId: string, outcome: AdapterOutcome, stamp: int): (r: ModelRun)
    ensures |outcome.chunks| < |r.events| && !IsBlank(r.response)
    ensures r.assistant.Some? <==> outcome.Returned?
  {
    var tail := match outcome
      case Returned(_, response) => AnswerRun(model, sessionId, response, stamp)
      case Threw(_, message) => FailureRun(model, sessionId, message);
    ModelRun(ChunkEvents(model, sessionId, outcome.chunks) + tail.events, tail.response, tail.assistant)
  }

  /** What `processModel` promises: the events form one model block that
      starts with the relayed chunks; the stored and resolved answer is never
      blank; a blank answer becomes the placeholder, relayed once more; any
      other answer, one starting with "Error:" included, is kept; a thrown
      error stores nothing and resolves with its error text. */
  lemma ProcessModelFacts(model: ModelEntry, sessionId: string, outcome: AdapterOutcome, stamp: int)
    ensures var r := ProcessModelSpec(model, sessionId, outcome, stamp);
      && ModelBlock(r.events, model, sessionId)
      && |outcome.chunks| < |r.events|
      && r.events[..|outcome.chunks|] == ChunkEvents(model, sessionId, outcome.chunks)
      && !IsBlank(r.response)
      && (outcome.Returned? ==> r.assistant == Some(Message("assistant", Some(model.id), r.response, Some(stamp))))
      && (outcome.Returned? && !IsBlank(outcome.response) ==>
            r.response == outcome.response && |r.events| == |outcome.chunks| + 1)
      && (outcome.Returned? && IsBlank(outcome.response) ==>
            r.response == NoResponseText(model.id) && r.events[|outcome.chunks|] == ChunkEvent(model, sessionId, r.response))
      && (outcome.Threw? ==>
            r.assistant == None && r.response == ErrorText(outcome.message, UnknownModelError)
            && r.events[|outcome.chunks|] == ChunkEvent(model, sessionId, r.response))
  {
    var r := ProcessModelSpec(model, sessionId, outcome, stamp);
    var ce := ChunkEvents(model, sessionId, outcome.chunks);
    var tail := match outcome
      case Returned(_, response) => AnswerRun(model, sessionId, response, stamp)
      case Threw(_, message) => FailureRun(model, sessionId, message);
    assert r.events == ce + tail.events && r.response == tail.response && r.assistant == tail.assistant;
    assert r.events[..|ce|] == ce;
    ModelBlockOf(ce, tail.events, model, sessionId);
  }

  /** The relayed chunks followed by one or two closing events form one model block. */
  lemma ModelBlockOf(ce: seq<Event>, tail: seq<Event>, model: ModelEntry, sessionId: string)
    requires forall i :: 0 <= i < |ce| ==>
      (ce[i].ReceiveMessage? && !ce[i].isComplete
       && ce[i].modelId == model.id && ce[i].order == model.order && ce[i].sessionId == sessionId)
    requires tail == [TerminalEvent(model, sessionId)]
      || (|tail| == 2 && tail[0].ReceiveMessage? && !tail[0].isComplete && tail[0].modelId == model.id
          && tail[0].order == model.order && tail[0].sessionId == sessionId && tail[1] == TerminalEvent(model, sessionId))
    ensures ModelBlock(ce + tail, model, sessionId)
  {
    var evs := ce + tail;
    assert forall i :: 0 <= i < |ce| ==> evs[i] == ce[i];
    assert forall i :: |ce| <= i < |evs| ==> evs[i] == tail[i - |ce|];
  }

  // ---------------------------------------------------------------------
  // processModelsInSequence and the whole turn, as functions
  // ---------------------------------------------------------------------

  /** The events emitted so far and the session's transcript so far. */
  datatype TurnState = TurnState(events: seq<Event>, history: seq<Message>)

  function OptionSeq(o: Option<Message>): seq<Message> {
    if o.Some? then [o.value] else []
  }

  /** The entry `history.push({role: 'user', modelId, content})` adds after a
      model: since `history` is the stored array, it lands in the transcript. */
  function AliasEntry(model: ModelEntry, response: string): Message {
    Message("user", Some(model.id), response, None)
  }

  /** The stored user message of the turn. */
  function UserEntry(message: string, stamp: int): Message {
    Message("user", None, message, Some(stamp))
  }

  /** One iteration of the model loop: run the model on the current
      transcript, then push its answer and emit `model_complete`. */
  function StepModel(st: TurnState, model: ModelEntry, slot: nat, sessionId: string,
                     clock: nat -> int, adapter: Adapter): (r: TurnState)
    ensures |st.events| + 2 <= |r.events| && r.events[|r.events| - 1] == ModelComplete(model.id, sessionId, model.order)
    ensures |st.history| < |r.history| <= |st.history| + 2
    ensures r.history[|r.history| - 1].role == "user" && r.history[|r.history| - 1].modelId == Some(model.id)
  {
    var run := ProcessModelSpec(model, sessionId, adapter(model, st.history), clock(slot));
    TurnState(st.events + run.events + [ModelComplete(model.id, sessionId, model.order)],
              st.history + OptionSeq(run.assistant) + [AliasEntry(model, run.response)])
  }

  /** The models of `models`, in order, the k-th (from 1) stamped with `clock(k)`. */
  function RunModels(models: seq<ModelEntry>, sessionId: string, start: TurnState,
                     clock: nat -> int, adapter: Adapter): (r: TurnState)
    ensures |start.events| + 2 * |models| <= |r.events|
    decreases |models|
  {
    if models == [] then start
    else StepModel(RunModels(models[..|models| - 1], sessionId, start, clock, adapter),
                   models[|models| - 1], |models|, sessionId, clock, adapter)
  }

  /** A `send_message` turn on a known session whose transcript is `history`. */
  function Turn(sessionId: string, message: string, history: seq<Message>, clock: nat -> int, adapter: Adapter): (r: TurnState)
    ensures |r.events| >= 5 && r.events[|r.events| - 1] == AllResponsesComplete(sessionId)
  {
    var st := RunModels(Models, sessionId, TurnState([], history + [UserEntry(message, clock(0))]), clock, adapter);
    TurnState(st.events + [AllResponsesComplete(sessionId)], st.history)
  }

  // ---------------------------------------------------------------------
  // The handlers
  // ---------------------------------------------------------------------

  /** `processModel`: the adapter's chunks are relayed as they come; a blank
      answer is replaced by the placeholder (emitted as one more chunk), an
      answer starting with "Error:" is kept as it is; the terminal chunk
      follows and the answer is stored as an assistant message. A thrown
      error is relayed as an error chunk and a terminal chunk, nothing is
      stored, and the error text is the result. */
  method ProcessModel(socket: Socket, store: Store, sessionId: string, model: ModelEntry, slot: nat,
                      history: Transcript, clock: nat -> int, adapter: Adapter) returns (response: string)
    requires store.Valid() && sessionId in store.sessions && history == store.sessions[sessionId].messages
    modifies socket, history
    ensures var run := ProcessModelSpec(model, sessionId, adapter(model, old(history.items)), clock(slot));
      && response == run.response
      && socket.events == old(socket.events) + run.events
      && history.items == old(history.items) + OptionSeq(run.assistant)
  {
    var outcome := adapter(model, history.items);
    RelayChunks(socket, model, sessionId, outcome.chunks);
    match outcome
    case Returned(_, r) =>
      response := CompleteAnswer(socket, store, sessionId, model, history, r, clock(slot));
    case Threw(_, message) =>
      response := ReportFailure(socket, model, sessionId, message);
  }

  /** The rest of `processModel`'s `try` block once the adapter resolved
      with `r`: a blank answer becomes the placeholder and is emitted as one
      more chunk, an answer starting with "Error:" is kept as it is, then the
      terminal chunk is emitted and the answer is stored. */
  method CompleteAnswer(socket: Socket, store: Store, sessionId: string, model: ModelEntry,
                        history: Transcript, r: string, stamp: int) returns (response: string)
    requires store.Valid() && sessionId in store.sessions && history == store.sessions[sessionId].messages
    modifies socket, history
    ensures var tail := AnswerRun(model, sessionId, r, stamp);
      && response == tail.response
      && socket.events == old(socket.events) + tail.events
      && history.items == old(history.items) + OptionSeq(tail.assistant)
  {
    var completeResponse := r;
    if IsBlank(completeResponse) || StartsWith(completeResponse, "Error:") {
      if IsBlank(completeResponse) {
        completeResponse := NoResponseText(model.id);
        socket.Emit(ChunkEvent(model, sessionId, completeResponse));
      }
    }
    socket.Emit(TerminalEvent(model, sessionId));
    var _ := store.AddMessage(sessionId, Message("assistant", Some(model.id), completeResponse, Some(stamp)));
    response := completeResponse;
  }

  /** `processModel`'s `catch` block: the error text is emitted as a chunk,
      then the terminal chunk; nothing is stored. */
  method ReportFailure(socket: Socket, model: ModelEntry, sessionId: string, message: string)
    returns (response: string)
    modifies socket
    ensures var tail := FailureRun(model, sessionId, message);
      && response == tail.response
      && socket.events == old(socket.events) + tail.events
  {
    var errorMessage := ErrorText(message, UnknownModelError);
    socket.Emit(ChunkEvent(model, sessionId, errorMessage));
    socket.Emit(TerminalEvent(model, sessionId));
    response := errorMessage;
  }

  /** The `onChunk` callback for each chunk the adapter produces: one
      non-terminal `receive_message` per chunk, in order. */
  method RelayChunks(socket: Socket, model: ModelEntry, sessionId: string, chunks: seq<string>)
    modifies socket
    ensures socket.events == old(socket.events) + ChunkEvents(model, sessionId, chunks)
  {
    for i := 0 to |chunks|
      invariant socket.events == old(socket.events) + ChunkEvents(model, sessionId, chunks[..i])
    {
      assert chunks[..i + 1][..i] == chunks[..i];
      socket.Emit(ChunkEvent(model, sessionId, chunks[i]));
    }
    assert chunks[..|chunks|] == chunks;
  }

  /** `processModelsInSequence`: the models one after another, each given the
      live transcript; after each, its answer is pushed onto that same array
      and `model_complete` is emitted; finally `all_responses_complete`. */
  method ProcessModelsInSequence(socket: Socket, store: Store, sessionId: string, history: Transcript,
                                 clock: nat -> int, adapter: Adapter)
    requires store.Valid() && sessionId in store.sessions && history == store.sessions[sessionId].messages
    modifies socket, history
    ensures var st := RunModels(Models, sessionId, TurnState([], old(history.items)), clock, adapter);
      && socket.events == old(socket.events) + st.events + [AllResponsesComplete(sessionId)]
      && history.items == st.history
  {
    ghost var start := TurnState([], history.items);
    ghost var st := start;
    for i := 0 to |Models|
      invariant st == RunModels(Models[..i], sessionId, start, clock, adapter)
      invariant socket.events == old(socket.events) + st.events
      invariant history.items == st.history
    {
      var model := Models[i];
      ghost var prev := st;
      ghost var run := ProcessModelSpec(model, sessionId, adapter(model, history.items), clock(i + 1));
      var response := ProcessModel(socket, store, sessionId, model, i + 1, history, clock, adapter);
      history.Push(AliasEntry(model, response));
      socket.Emit(ModelComplete(model.id, sessionId, model.order));
      st := TurnState(prev.events + run.events + [ModelComplete(model.id, sessionId, model.order)],
                      prev.history + OptionSeq(run.assistant) + [AliasEntry(model, response)]);
      AppendAssoc(old(socket.events), prev.events, run.events);
      AppendAssoc(old(socket.events), prev.events + run.events, [ModelComplete(model.id, sessionId, model.order)]);
      assert Models[..i + 1][..i] == Models[..i];
    }
    assert Models[..|Models|] == Models;
    socket.Emit(AllResponsesComplete(sessionId));
  }

  /** The `send_message` handler: an unknown session gets one `invalid_session`
      error and nothing else happens; otherwise the user message is stored
      with its timestamp and the models run on the session's live array. */
  method SendMessage(socket: Socket, store: Store, message: string, sessionId: string,
                     clock: nat -> int, adapter: Adapter)
    requires store.Valid()
    modifies socket, store.Objects()
    ensures sessionId !in store.sessions ==>
      && socket.events == old(socket.events) + [ErrorEvent("invalid_session", "Invalid session ID")]
      && store.Contents() == old(store.Contents())
    ensures sessionId in store.sessions ==>
      var t := Turn(sessionId, message, old(store.Contents())[sessionId], clock, adapter);
      && socket.events == old(socket.events) + t.events
      && store.Contents() == old(store.Contents())[sessionId := t.history]
  {
    var session := store.GetById(sessionId);
    if session.None? {
      socket.Emit(ErrorEvent("invalid_session", "Invalid session ID"));
      return;
    }
    ghost var before := store.Contents();
    var history := AcceptMessage(socket, store, message, sessionId, clock, adapter);
    forall other | other in store.sessions && other != sessionId
      ensures store.sessions[other].messages.items == before[other]
    {
      assert store.sessions[other].messages != history;
    }
    store.ContentsExcept(sessionId, before);
  }

  /** The handler's work on a known session: the user message is stored
      with its timestamp, the session's live array is fetched and the models
      run on it; that array is the only stored one that changes. */
  method AcceptMessage(socket: Socket, store: Store, message: string, sessionId: string,
                       clock: nat -> int, adapter: Adapter) returns (history: Transcript)
    requires store.Valid() && sessionId in store.sessions
    modifies socket, store.sessions[sessionId].messages
    ensures history == store.sessions[sessionId].messages
    ensures var t := Turn(sessionId, message, old(history.items), clock, adapter);
      && socket.events == old(socket.events) + t.events
      && history.items == t.history
  {
    ghost var items0 := store.sessions[sessionId].messages.items;
    ghost var events0 := socket.events;
    var _ := store.AddMessage(sessionId, UserEntry(message, clock(0)));
    var fetched := store.GetHistory(sessionId);
    history := fetched.value;
    assert history.items == items0 + [UserEntry(message, clock(0))];
    ghost var st := RunModels(Models, sessionId, TurnState([], history.items), clock, adapter);
    ProcessModelsInSequence(socket, store, sessionId, history, clock, adapter);
    AppendAssoc(events0, st.events, [AllResponsesComplete(sessionId)]);
  }

  // ---------------------------------------------------------------------
  // Properties of a turn
  // ---------------------------------------------------------------------

  /** An adapter that always resolves and never throws. */
  ghost predicate NeverThrows(adapter: Adapter) {
    forall model, history :: adapter(model, history).Returned?
  }

  /** Running models only appends: the events and the transcript before the
      run are prefixes of those after it; each model adds one or two
      transcript entries (its answer if it resolved, then the re-pushed
      entry), exactly two when the adapter never throws. */
  lemma {:induction false} RunModelsGrowth(models: seq<ModelEntry>, sessionId: string, start: TurnState,
                                           clock: nat -> int, adapter: Adapter)
    ensures var r := RunModels(models, sessionId, start, clock, adapter);
      && |start.events| <= |r.events| && r.events[..|start.events|] == start.events
      && |start.history| + |models| <= |r.history| <= |start.history| + 2 * |models|
      && r.history[..|start.history|] == start.history
      && (NeverThrows(adapter) ==> |r.history| == |start.history| + 2 * |models|)
    decreases |models|
  {
    if models != [] {
      var init := models[..|models| - 1];
      RunModelsGrowth(init, sessionId, start, clock, adapter);
      var before := RunModels(init, sessionId, start, clock, adapter);
      var model := models[|models| - 1];
      var run := ProcessModelSpec(model, sessionId, adapter(model, before.history), clock(|models|));
      var r := RunModels(models, sessionId, start, clock, adapter);
      assert r.events == before.events + (run.events + [ModelComplete(model.id, sessionId, model.order)]);
      assert r.history == before.history + (OptionSeq(run.assistant) + [AliasEntry(model, run.response)]);
      assert r.events[..|start.events|] == before.events[..|start.events|];
      assert r.history[..|start.history|] == before.history[..|start.history|];
    }
  }

  /** A whole `send_message` turn on a known session, with the history
      `h1` the first model sees and `h2` the second model sees: `h2` holds
      the first model's stored answer and its re-pushed entry. */
  lemma TurnSteps(sessionId: string, message: string, history: seq<Message>, clock: nat -> int, adapter: Adapter)
    ensures var h1 := history + [UserEntry(message, clock(0))];
      var r1 := ProcessModelSpec(Models[0], sessionId, adapter(Models[0], h1), clock(1));
      var h2 := h1 + OptionSeq(r1.assistant) + [AliasEntry(Models[0], r1.response)];
      var r2 := ProcessModelSpec(Models[1], sessionId, adapter(Models[1], h2), clock(2));
      var t := Turn(sessionId, message, history, clock, adapter);
      && t.events == r1.events + [ModelComplete("deepseek1", sessionId, 1)]
                     + r2.events + [ModelComplete("deepseek2", sessionId, 2), AllResponsesComplete(sessionId)]
      && t.history == h2 + OptionSeq(r2.assistant) + [AliasEntry(Models[1], r2.response)]
  {
    var start := TurnState([], history + [UserEntry(message, clock(0))]);
    assert Models[..1][..0] == [];
    assert Models[..2][..1] == Models[..1];
    assert Models[..2] == Models;
    assert RunModels(Models[..1][..0], sessionId, start, clock, adapter) == start;
    var s1 := RunModels(Models[..1], sessionId, start, clock, adapter);
    assert s1 == StepModel(start, Models[0], 1, sessionId, clock, adapter);
    var s2 := RunModels(Models, sessionId, start, clock, adapter);
    assert s2 == StepModel(s1, Models[1], 2, sessionId, clock, adapter);
  }

  /** The second model is given the first model's answer: its history is
      the stored transcript, the user message, then (if the first model
      resolved) the first model's assistant entry, and last the re-pushed
      copy of the first model's non-blank answer under role "user". */
  lemma SecondModelSeesFirstAnswer(sessionId: string, message: string, history: seq<Message>,
                                   clock: nat -> int, adapter: Adapter)
    ensures var h1 := history + [UserEntry(message, clock(0))];
      var o1 := adapter(Models[0], h1);
      var r1 := ProcessModelSpec(Models[0], sessionId, o1, clock(1));
      var h2 := RunModels(Models[..1], sessionId, TurnState([], h1), clock, adapter).history;
      && |h1| < |h2| && h2[..|h1|] == h1
      && h2[|h2| - 1] == Message("user", Some("deepseek1"), r1.response, None)
      && !IsBlank(h2[|h2| - 1].content)
      && (o1.Returned? ==> |h2| == |h1| + 2 && h2[|h1|] == Message("assistant", Some("deepseek1"), r1.response, Some(clock(1))))
      && (o1.Threw? ==> |h2| == |h1| + 1 && StartsWith(h2[|h1|].content, "Error: "))
  {
    var h1 := history + [UserEntry(message, clock(0))];
    var o1 := adapter(Models[0], h1);
    ProcessModelFacts(Models[0], sessionId, o1, clock(1));
    assert Models[..1][..0] == [];
    var start := TurnState([], h1);
    assert RunModels(Models[..1][..0], sessionId, start, clock, adapter) == start;
    var r1 := ProcessModelSpec(Models[0], sessionId, o1, clock(1));
    var h2 := RunModels(Models[..1], sessionId, start, clock, adapter).history;
    assert h2 == h1 + OptionSeq(r1.assistant) + [AliasEntry(Models[0], r1.response)];
  }

  /** The transcript of a known session grows by the user message and one
      or two entries per model, everything before it untouched; with an
      adapter that never throws it grows by exactly five. */
  lemma TurnGrowth(sessionId: string, message: string, history: seq<Message>, clock: nat -> int, adapter: Adapter)
    ensures var t := Turn(sessionId, message, history, clock, adapter);
      && |history| + 3 <= |t.history| <= |history| + 5
      && t.history[..|history| + 1] == history + [UserEntry(message, clock(0))]
      && (NeverThrows(adapter) ==> |t.history| == |history| + 5)
  {
    var start := TurnState([], history + [UserEntry(message, clock(0))]);
    RunModelsGrowth(Models, sessionId, start, clock, adapter);
  }

  /** The model order an event is tagged with; 0 for the events that carry none. */
  function OrderOf(e: Event): nat {
    match e
    case ReceiveMessage(_, _, _, _, order) => order
    case ModelComplete(_, _, order) => order
    case _ => 0
  }

  /** What a client of a known session sees in one turn: only
      `receive_message` and `model_complete` events for that session, tagged
      with a configured model's id and order, in non-decreasing order (the
      second model starts after the first has finished); each model's
      terminal chunk is followed at once by its `model_complete` and every
      `model_complete` follows its terminal chunk; `all_responses_complete`
      comes once, last; no error event is emitted. */
  ghost predicate TurnLog(evs: seq<Event>, sessionId: string) {
    TurnLogTags(evs, sessionId) && TurnLogCompletion(evs, sessionId)
  }

  /** The tags part of `TurnLog`: kinds, session, model ids and orders. */
  ghost predicate TurnLogTags(evs: seq<Event>, sessionId: string) {
    && |evs| >= 5
    && evs[|evs| - 1] == AllResponsesComplete(sessionId)
    && (forall i :: 0 <= i < |evs| - 1 ==>
          (evs[i].ReceiveMessage? || evs[i].ModelComplete?) && evs[i].sessionId == sessionId
          && ((evs[i].order == 1 && evs[i].modelId == "deepseek1") || (evs[i].order == 2 && evs[i].modelId == "deepseek2")))
    && (forall i, j :: 0 <= i < j < |evs| - 1 ==> OrderOf(evs[i]) <= OrderOf(evs[j]))
  }

  /** The completion part of `TurnLog`: terminal chunks and `model_complete` come in pairs. */
  ghost predicate TurnLogCompletion(evs: seq<Event>, sessionId: string) {
    && (forall i :: 0 <= i < |evs| && evs[i].ModelComplete? ==>
          0 < i && evs[i - 1] == ReceiveMessage(evs[i].modelId, "", true, sessionId, evs[i].order))
    && (forall i :: 0 <= i < |evs| && evs[i].ReceiveMessage? && evs[i].isComplete ==>
          i + 1 < |evs| && evs[i + 1] == ModelComplete(evs[i].modelId, sessionId, evs[i].order))
  }

  /** The event log of every `send_message` turn on a known session has the shape `TurnLog` describes. */
  lemma TurnEvents(sessionId: string, message: string, history: seq<Message>, clock: nat -> int, adapter: Adapter)
    ensures TurnLog(Turn(sessionId, message, history, clock, adapter).events, sessionId)
  {
    var h1 := history + [UserEntry(message, clock(0))];
    var r1 := ProcessModelSpec(Models[0], sessionId, adapter(Models[0], h1), clock(1));
    var h2 := h1 + OptionSeq(r1.assistant) + [AliasEntry(Models[0], r1.response)];
    var r2 := ProcessModelSpec(Models[1], sessionId, adapter(Models[1], h2), clock(2));
    TurnSteps(sessionId, message, history, clock, adapter);
    ProcessModelFacts(Models[0], sessionId, adapter(Models[0], h1), clock(1));
    ProcessModelFacts(Models[1], sessionId, adapter(Models[1], h2), clock(2));
    TwoBlocks(r1.events, r2.events, sessionId);
  }

  /** The event log of two model blocks, each closed by its `model_complete`,
      then `all_responses_complete`. */
  lemma TwoBlocks(a: seq<Event>, b: seq<Event>, sessionId: string)
    requires ModelBlock(a, Models[0], sessionId) && ModelBlock(b, Models[1], sessionId)
    ensures TurnLog(a + [ModelComplete("deepseek1", sessionId, 1)]
                    + b + [ModelComplete("deepseek2", sessionId, 2), AllResponsesComplete(sessionId)], sessionId)
  {
    TwoBlocksTags(a, b, sessionId);
    TwoBlocksCompletion(a, b, sessionId);
  }

  lemma TwoBlocksTags(a: seq<Event>, b: seq<Event>, sessionId: string)
    requires ModelBlock(a, Models[0], sessionId) && ModelBlock(b, Models[1], sessionId)
    ensures TurnLogTags(a + [ModelComplete("deepseek1", sessionId, 1)]
                        + b + [ModelComplete("deepseek2", sessionId, 2), AllResponsesComplete(sessionId)], sessionId)
  {
    var evs := a + [ModelComplete("deepseek1", sessionId, 1)]
               + b + [ModelComplete("deepseek2", sessionId, 2), AllResponsesComplete(sessionId)];
    var m1, m2 := |a|, |a| + 1 + |b|;
    assert forall i :: 0 <= i < |a| ==> evs[i] == a[i];
    assert evs[m1] == ModelComplete("deepseek1", sessionId, 1);
    assert forall i :: m1 < i < m2 ==> evs[i] == b[i - m1 - 1];
    assert evs[m2] == ModelComplete("deepseek2", sessionId, 2);
    assert |evs| == m2 + 2;
    assert forall i :: 0 <= i <= m1 ==> OrderOf(evs[i]) == 1;
    assert forall i :: m1 < i <= m2 ==> OrderOf(evs[i]) == 2;
  }

  lemma TwoBlocksCompletion(a: seq<Event>, b: seq<Event>, sessionId: string)
    requires ModelBlock(a, Models[0], sessionId) && ModelBlock(b, Models[1], sessionId)
    ensures TurnLogCompletion(a + [ModelComplete("deepseek1", sessionId, 1)]
                              + b + [ModelComplete("deepseek2", sessionId, 2), AllResponsesComplete(sessionId)], sessionId)
  {
    var evs := a + [ModelComplete("deepseek1", sessionId, 1)]
               + b + [ModelComplete("deepseek2", sessionId, 2), AllResponsesComplete(sessionId)];
    var m1, m2 := |a|, |a| + 1 + |b|;
    assert forall i :: 0 <= i < |a| ==> evs[i] == a[i];
    assert evs[m1] == ModelComplete("deepseek1", sessionId, 1);
    assert forall i :: m1 < i < m2 ==> evs[i] == b[i - m1 - 1];
    assert evs[m2] == ModelComplete("deepseek2", sessionId, 2);
    assert |evs| == m2 + 2;
  }

  /** The adapter the backend uses never throws, and `processModel` then
      adds nothing of its own: the adapter's chunks are relayed, followed
      only by the terminal chunk, and its (never blank) answer is what is
      stored and resolved. */
  lemma BedrockAdapterDirect(provider: BedrockService.ConverseRequest -> BedrockService.ProviderReply,
                             model: ModelEntry, sessionId: string, history: seq<Message>, stamp: int)
    ensures NeverThrows(BedrockAdapter(provider))
    ensures var o := BedrockAdapter(provider)(model, history);
      var r := ProcessModelSpec(model, sessionId, o, stamp);
      && o.Returned? && !IsBlank(o.response)
      && r.response == o.response
      && r.events == ChunkEvents(model, sessionId, o.chunks) + [TerminalEvent(model, sessionId)]
      && r.assistant == Some(Message("assistant", Some(model.id), o.response, Some(stamp)))
  {
    var o := BedrockAdapter(provider)(model, history);
    var reply := provider(BedrockService.ConverseRequest(model.providerModelId,
      BedrockService.FormatMessagesForConverse(history)));
    assert o.response == BedrockService.ResponseFor(model.providerModelId, reply).response;
  }

  /** With the backend's adapter every turn stores exactly five entries:
      the user message, and per model its answer and the re-pushed copy. */
  lemma BedrockTurnGrowth(provider: BedrockService.ConverseRequest -> BedrockService.ProviderReply,
                          sessionId: string, message: string, history: seq<Message>, clock: nat -> int)
    ensures |Turn(sessionId, message, history, clock, BedrockAdapter(provider)).history| == |history| + 5
  {
    BedrockAdapterDirect(provider, Models[0], sessionId, history, 0);
    TurnGrowth(sessionId, message, history, clock, BedrockAdapter(provider));
  }
}
