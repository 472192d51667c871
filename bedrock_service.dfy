/** The model adapter of backend/src/services/bedrockService.js: the request
    formatter `formatMessagesForConverse` and the frame decoder of
    `generateStreamingResponse`. The provider call is a function from the
    request to its reply, a finite sequence of stream frames possibly cut
    short by a thrown error. */
module BedrockService {
  import opened Messages

  // ---------------------------------------------------------------------
  // Request formatting
  // ---------------------------------------------------------------------

  datatype ConverseBlock = ConverseBlock(text: string)
  datatype ConverseMessage = ConverseMessage(role: string, content: seq<ConverseBlock>)
  /** The request handed to the provider; generation parameters are not modelled. */
  datatype ConverseRequest = ConverseRequest(modelId: string, messages: seq<ConverseMessage>)

  /** Role mapping: "user" and "assistant" are kept, every other role is sent as "user". */
  function ConverseRole(role: string): (r: string)
    ensures r == "assistant" <==> role == "assistant"
    ensures r == "user" <==> role != "assistant"
  {
    if role == "user" then "user"
    else if role == "assistant" then "assistant"
    else "user"
  }

  /** `formatMessagesForConverse`: one converse message per stored message,
      in the same order, each with a single text block holding the content. */
  function FormatMessagesForConverse(messages: seq<Message>): (r: seq<ConverseMessage>)
    ensures |r| == |messages|
    ensures forall i :: 0 <= i < |r| ==>
      r[i].role == ConverseRole(messages[i].role) && |r[i].content| == 1 && r[i].content[0].text == messages[i].content
  {
    if messages == [] then []
    else
      var last := messages[|messages| - 1];
      FormatMessagesForConverse(messages[..|messages| - 1])
        + [ConverseMessage(ConverseRole(last.role), [ConverseBlock(last.content)])]
  }

  /** Formatting works message by message: formatting a concatenation is the
      concatenation of the formatted parts. */
  lemma {:induction false} FormatDistributes(a: seq<Message>, b: seq<Message>)
    ensures FormatMessagesForConverse(a + b) == FormatMessagesForConverse(a) + FormatMessagesForConverse(b)
  {
    var l, r := FormatMessagesForConverse(a + b), FormatMessagesForConverse(a) + FormatMessagesForConverse(b);
    assert |l| == |r|;
    forall i | 0 <= i < |l| ensures l[i] == r[i] {
      if i < |a| {
        assert (a + b)[i] == a[i];
      } else {
        assert (a + b)[i] == b[i - |a|];
      }
    }
  }

  // ---------------------------------------------------------------------
  // Stream frames
  // ---------------------------------------------------------------------

  datatype ContentBlock = ContentBlock(text: Option<string>)
  /** `chunk.message`; an absent `content` list behaves as an empty one. */
  datatype MessageBody = MessageBody(content: seq<ContentBlock>)
  /** `chunk.contentBlockDelta`; `text` is `delta.delta.text`, absent when
      either `delta.delta` or its `text` is missing. */
  datatype DeltaBody = DeltaBody(text: Option<string>)
  /** The JSON object a `bytes` payload parses to. */
  datatype Payload = Payload(text: Option<string>, content: Option<string>)
  /** `chunk.bytes`; `parsed` is `None` when the payload is not a JSON object. */
  datatype BytesBody = BytesBody(parsed: Option<Payload>)

  /** One stream frame. A frame may carry several of the three fields; the
      decoder looks at them in the order message, contentBlockDelta, bytes. */
  datatype Frame = Frame(message: Option<MessageBody>, contentBlockDelta: Option<DeltaBody>, bytes: Option<BytesBody>)

  /** What the provider's `send` yields: the frames read from the stream, and
      the message of the error thrown after them, if any (an outright failure
      of `send` is an empty frame list with an error). */
  datatype ProviderReply = ProviderReply(frames: seq<Frame>, failure: Option<string>)

  /** JavaScript truthiness of an optional string field. */
  predicate Truthy(o: Option<string>) {
    o.Some? && o.value != ""
  }

  /** The texts of the truthy `text` fields of a list of content blocks, in order. */
  function BlockTexts(blocks: seq<ContentBlock>): (r: seq<string>)
    ensures forall i :: 0 <= i < |r| ==> r[i] != ""
    ensures |r| <= |blocks|
  {
    if blocks == [] then []
    else
      var last := blocks[|blocks| - 1];
      BlockTexts(blocks[..|blocks| - 1]) + (if Truthy(last.text) then [last.text.value] else [])
  }

  /** `textChunk` of a parsed payload: `text` if truthy, else `content` if truthy, else empty. */
  function PayloadText(p: Payload): (r: string)
    ensures r == "" <==> !Truthy(p.text) && !Truthy(p.content)
    ensures Truthy(p.text) ==> r == p.text.value
    ensures !Truthy(p.text) && Truthy(p.content) ==> r == p.content.value
  {
    if Truthy(p.text) then p.text.value
    else if Truthy(p.content) then p.content.value
    else ""
  }

  /** The deltas one frame contributes, each of which is passed to `onChunk`. */
  function FrameDeltas(f: Frame): (r: seq<string>)
    ensures forall i :: 0 <= i < |r| ==> r[i] != ""
  {
    if f.message.Some? then
      BlockTexts(f.message.value.content)
    else if f.contentBlockDelta.Some? then
      if Truthy(f.contentBlockDelta.value.text) then [f.contentBlockDelta.value.text.value] else []
    else if f.bytes.Some? then
      match f.bytes.value.parsed
      case None => []
      case Some(p) => if PayloadText(p) != "" then [PayloadText(p)] else []
    else
      []
  }

  /** All deltas of a stream, frame after frame. */
  function StreamDeltas(frames: seq<Frame>): (r: seq<string>)
    ensures forall i :: 0 <= i < |r| ==> r[i] != ""
  {
    if frames == [] then []
    else StreamDeltas(frames[..|frames| - 1]) + FrameDeltas(frames[|frames| - 1])
  }

  lemma {:induction false} StreamDeltasAppend(a: seq<Frame>, b: seq<Frame>)
    ensures StreamDeltas(a + b) == StreamDeltas(a) + StreamDeltas(b)
    decreases |b|
  {
    if b == [] {
      assert a + b == a;
    } else {
      var init, last := b[..|b| - 1], b[|b| - 1];
      assert (a + b)[..|a + b| - 1] == a + init;
      assert (a + b)[|a + b| - 1] == last;
      StreamDeltasAppend(a, init);
      AppendAssoc(StreamDeltas(a), StreamDeltas(init), FrameDeltas(last));
    }
  }

  /** A frame contributes its own deltas at its own place in the stream. */
  lemma FrameInStream(a: seq<Frame>, f: Frame, b: seq<Frame>)
    ensures StreamDeltas(a + [f] + b) == StreamDeltas(a) + FrameDeltas(f) + StreamDeltas(b)
  {
    StreamDeltasAppend(a + [f], b);
    StreamDeltasAppend(a, [f]);
    assert StreamDeltas([f]) == StreamDeltas([]) + FrameDeltas(f);
  }

  /** A frame with none of message, contentBlockDelta and bytes, a bytes
      frame whose payload does not parse, and a bytes frame whose payload has
      neither a truthy `text` nor a truthy `content` are skipped: removing
      one from any stream leaves the deltas as they were. */
  lemma SilentFrameSkipped(a: seq<Frame>, f: Frame, b: seq<Frame>)
    requires f.message.None? && f.contentBlockDelta.None?
    requires f.bytes.None? || f.bytes.value.parsed.None? || PayloadText(f.bytes.value.parsed.value) == ""
    ensures StreamDeltas(a + [f] + b) == StreamDeltas(a + b)
  {
    FrameInStream(a, f, b);
    StreamDeltasAppend(a, b);
  }

  /** For a bytes frame, a truthy `text` is the delta even when `content` is
      present; `content` is used only when `text` is not truthy. */
  lemma BytesTextFirst(a: seq<Frame>, p: Payload, b: seq<Frame>)
    requires Truthy(p.text) || Truthy(p.content)
    ensures var f := Frame(None, None, Some(BytesBody(Some(p))));
      StreamDeltas(a + [f] + b)
        == StreamDeltas(a) + [if Truthy(p.text) then p.text.value else p.content.value] + StreamDeltas(b)
  {
    FrameInStream(a, Frame(None, None, Some(BytesBody(Some(p)))), b);
  }

  // ---------------------------------------------------------------------
  // generateStreamingResponse
  // ---------------------------------------------------------------------

  /** The `onChunk` arguments in call order and the returned string. */
  datatype StreamResult = StreamResult(chunks: seq<string>, response: string)

  /** The fallback of the adapter's error text. */
  const UnknownError := "Unknown error occurred"

  /** What `generateStreamingResponse` does with a provider reply: the deltas
      are passed on; a thrown error turns into `Error: <message>`, passed on
      and returned; otherwise a blank accumulation is replaced by the
      placeholder, which is passed on once more. */
  function ResponseFor(modelId: string, reply: ProviderReply): (r: StreamResult)
    ensures |StreamDeltas(reply.frames)| <= |r.chunks| && r.chunks[..|StreamDeltas(reply.frames)|] == StreamDeltas(reply.frames)
    ensures forall i :: 0 <= i < |r.chunks| ==> r.chunks[i] != ""
    ensures !IsBlank(r.response)
    ensures reply.failure.Some? ==> r.response == ErrorText(reply.failure.value, UnknownError)
    ensures reply.failure.None? && !IsBlank(Concat(StreamDeltas(reply.frames))) ==>
      r.chunks == StreamDeltas(reply.frames) && r.response == Concat(r.chunks)
    ensures reply.failure.None? && IsBlank(Concat(StreamDeltas(reply.frames))) ==>
      r.response == NoResponseText(modelId)
    ensures reply.failure.Some? || IsBlank(Concat(StreamDeltas(reply.frames))) ==>
      r.chunks == StreamDeltas(reply.frames) + [r.response]
    ensures r.chunks != StreamDeltas(reply.frames) ==> r.chunks == StreamDeltas(reply.frames) + [r.response]
  {
    var deltas := StreamDeltas(reply.frames);
    match reply.failure
    case Some(msg) =>
      var e := ErrorText(msg, UnknownError);
      StreamResult(deltas + [e], e)
    case None =>
      var acc := Concat(deltas);
      if IsBlank(acc) then StreamResult(deltas + [NoResponseText(modelId)], NoResponseText(modelId))
      else StreamResult(deltas, acc)
  }

  /** The chunks concatenate to the returned string exactly when nothing was
      streamed, or the stream ended normally with non-blank text: a partial
      stream followed by an error, or blank deltas followed by the
      placeholder, leave the earlier deltas out of the returned string. */
  lemma ChunksConcatenateToResponse(modelId: string, reply: ProviderReply)
    ensures var r := ResponseFor(modelId, reply);
      var deltas := StreamDeltas(reply.frames);
      Concat(r.chunks) == r.response <==> deltas == [] || (reply.failure.None? && !IsBlank(Concat(deltas)))
  {
    var r := ResponseFor(modelId, reply);
    var deltas := StreamDeltas(reply.frames);
    if r.chunks != deltas {
      assert r.chunks == deltas + [r.response];
      ConcatAppend(deltas, [r.response]);
      assert Concat([r.response]) == Concat([]) + r.response;
      if deltas != [] {
        assert deltas[0] != "";
        assert |Concat(deltas)| > 0;
        assert |Concat(r.chunks)| > |r.response|;
      }
    }
  }

  /** The body of the `for await` loop for one frame: each delta is appended
      to the accumulated text and passed to `onChunk` (recorded in `chunks`). */
  method DecodeFrame(frame: Frame, chunksBefore: seq<string>, accBefore: string)
    returns (chunks: seq<string>, completeResponse: string)
    requires accBefore == Concat(chunksBefore)
    ensures chunks == chunksBefore + FrameDeltas(frame)
    ensures completeResponse == Concat(chunks)
  {
    chunks, completeResponse := chunksBefore, accBefore;
    if frame.message.Some? {
      chunks, completeResponse := DecodeBlocks(frame.message.value.content, chunks, completeResponse);
    } else if frame.contentBlockDelta.Some? {
      var delta := frame.contentBlockDelta.value;
      if Truthy(delta.text) {
        ConcatAppend(chunks, [delta.text.value]);
        completeResponse := completeResponse + delta.text.value;
        chunks := chunks + [delta.text.value];
      }
    } else if frame.bytes.Some? {
      match frame.bytes.value.parsed
      case None =>
      case Some(parsedChunk) =>
        var textChunk := "";
        if Truthy(parsedChunk.text) {
          textChunk := parsedChunk.text.value;
        } else if Truthy(parsedChunk.content) {
          textChunk := parsedChunk.content.value;
        }
        if textChunk != "" {
          ConcatAppend(chunks, [textChunk]);
          completeResponse := completeResponse + textChunk;
          chunks := chunks + [textChunk];
        }
    }
  }

  /** The loop over `chunk.message.content`: each block with a truthy text
      is one delta. */
  method DecodeBlocks(blocks: seq<ContentBlock>, chunksBefore: seq<string>, accBefore: string)
    returns (chunks: seq<string>, completeResponse: string)
    requires accBefore == Concat(chunksBefore)
    ensures chunks == chunksBefore + BlockTexts(blocks)
    ensures completeResponse == Concat(chunks)
  {
    chunks, completeResponse := chunksBefore, accBefore;
    for j := 0 to |blocks|
      invariant chunks == chunksBefore + BlockTexts(blocks[..j])
      invariant completeResponse == Concat(chunks)
    {
      ghost var step := if Truthy(blocks[j].text) then [blocks[j].text.value] else [];
      BlockTextsStep(blocks, j);
      AppendAssoc(chunksBefore, BlockTexts(blocks[..j]), step);
      if Truthy(blocks[j].text) {
        var text := blocks[j].text.value;
        ConcatPush(chunks, text);
        completeResponse := completeResponse + text;
        chunks := chunks + [text];
      }
    }
    assert blocks[..|blocks|] == blocks;
  }

  /** One more block adds its text, if truthy, to the texts of the prefix. */
  lemma BlockTextsStep(blocks: seq<ContentBlock>, j: nat)
    requires j < |blocks|
    ensures BlockTexts(blocks[..j + 1])
      == BlockTexts(blocks[..j]) + (if Truthy(blocks[j].text) then [blocks[j].text.value] else [])
  {
    assert blocks[..j + 1][..j] == blocks[..j];
  }

  /** `generateStreamingResponse(modelId, messages, parameters, onChunk)`:
      formats the history, calls the provider, folds the frames into deltas
      while accumulating them, then applies the error and blank rules. The
      `onChunk` calls are recorded in `chunks`; the function never throws. */
  method GenerateStreamingResponse(modelId: string, messages: seq<Message>, provider: ConverseRequest -> ProviderReply)
    returns (chunks: seq<string>, response: string)
    ensures StreamResult(chunks, response) == ResponseFor(modelId, provider(ConverseRequest(modelId, FormatMessagesForConverse(messages))))
  {
    var formatted := FormatMessagesForConverse(messages);
    var reply := provider(ConverseRequest(modelId, formatted));
    var frames := reply.frames;
    var completeResponse := "";
    chunks := [];
    for i := 0 to |frames|
      invariant chunks == StreamDeltas(frames[..i])
      invariant completeResponse == Concat(chunks)
    {
      assert frames[..i + 1][..i] == frames[..i];
      chunks, completeResponse := DecodeFrame(frames[i], chunks, completeResponse);
    }
    assert frames[..|frames|] == frames;
    if reply.failure.Some? {
      response := ErrorText(reply.failure.value, UnknownError);
      chunks := chunks + [response];
      return;
    }
    if IsBlank(completeResponse) {
      completeResponse := NoResponseText(modelId);
      chunks := chunks + [completeResponse];
    }
    response := completeResponse;
  }
}
