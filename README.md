# Telephony voice bridge: audio framing and turn control, in Dafny

This project models the bookkeeping at the centre of a telephony voice assistant. The assistant
relays a caller's μ-law audio to a streaming transcription service. It runs a conversational agent on
each finished transcript and speaks the agent's answers back to the caller as 8 kHz μ-law frames.

The model covers:

- **`Pcm16kToMulaw8k`** (`convert_audio.dfy`, module `ConvertAudio`): the streaming converter from
  16 kHz 16-bit PCM to fixed-size 8 kHz μ-law frames. It keeps the odd byte that ends a chunk in the
  middle of a sample (the carry), the rate converter's continuation state, and the μ-law bytes not yet
  emitted as a full frame. It is a class whose `Feed` and `Flush` update those fields in place. Each
  method is proved equal to a pure step function (`FeedStep`, `FlushStep`), and the properties are
  proved about those functions.
- **μ-law encoding** (`mulaw.dfy`, module `Mulaw`): `audioop.lin2ulaw` for 2-byte samples. It uses the
  segment algorithm of ITU-T G.711 μ-law, applied to the top 14 bits of each sample, as Python's
  audioop module computes it. Silence (a zero sample) encodes to 0xFF.
- **Re-chunking and queue drain** (`tts.dfy`, module `Tts`). `generate_audio` re-chunks the synthesis
  service's PCM stream into 2048-byte pieces, puts an even-length remainder, then the end-of-stream
  sentinel. `speak` takes items up to the first sentinel.
- **The agent** (`agent.dfy`, module `Agents`): the chat history (`__init__`, `invoke`) and the speech
  path. `speech` feeds every dequeued chunk into a fresh 50 ms converter, then flushes it with padding.
  A converter error is swallowed, and the producer is always cancelled.
- **Search-result shaping** (`vector_db.dfy`, module `VectorDb`). `search` keeps the non-empty texts
  of the points in order, plus the set of their sources. `upsert` zips ids, vectors and payloads
  index by index.
- **The telephony bridge of one call** (`server.dfy`, module `Server`):
  - the inbound relay that re-frames caller audio into 400-byte chunks and dispatches `media`,
    `start` and `stop` events and disconnects;
  - the filter that launches a turn for each final transcript;
  - the turn loop (`safe_send_event`): invoke, speak, optional knowledge lookup, stop on `end_turn`;
  - the prompt built from the search contexts;
  - the outbound media message.

Shared definitions live in `chunking.dfy` (module `Chunking`): byte sequences, concatenation, and
`SplitFrames`. `SplitFrames` is the "slice fixed-size frames off the front of a buffer while one
remains" loop that the converter, the producer and the bridge all run. It is proved to be the unique
framing into full pieces plus a shorter leftover.

External services are parameters or inputs:

- The rate converter `audioop.ratecv` is an opaque function value. It returns whole samples and a new
  state, or `None` where it raises.
- The language model's reply, the synthesis service's chunks and the vector store's scored points are
  scripted per iteration of the turn loop (`Exchange`).
- Sockets are sequences: received messages are an input, and sent messages are a field that only grows.
- JSON is a tree value, and Base64 is abstract (`JBase64(data)`).

Three behaviours of the code are easy to miss:

- The turn loop has no iteration bound.
- When a reply sets both `query_rag` and `end_turn`, the lookup is made and appended, then the loop ends.
- `flush` on an empty μ-law buffer returns at once and does not reset the carry.

## Model

| member | source | states |
|---|---|---|
| `Chunking.SplitFrames` | AGENTS/convert_audio.py:52-54 | every frame sliced off is exactly `n` long, fewer than `n` bytes are left, and the frames followed by the leftover are the input |
| `Chunking.SplitFramesUnique` | AGENTS/convert_audio.py:52-54 | any split into full `n`-sized frames plus a leftover shorter than `n` that concatenates back to the input is the one the slicing loop produces |
| `Chunking.SplitFramesCount` | AGENTS/tts.py:36-39 | the slicing loop emits `len / n` pieces and leaves `len % n` bytes |
| `Chunking.SplitFramesPrefix` | RAG/server.py:89-91 | the frames sent are the longest prefix of the buffer whose length is a multiple of the frame size |
| `Chunking.Repeat` | AGENTS/convert_audio.py:69 | `silence * missing`: exactly `missing` bytes, every one the silence byte |
| `Mulaw.Lin2Ulaw` | AGENTS/convert_audio.py:48 | one μ-law byte per 2-byte little-endian sample, in order, each the G.711 code of that sample |
| `Mulaw.EncodeSample` | AGENTS/convert_audio.py:48 | a sample's μ-law code has its top bit set exactly when the sample is non-negative |
| `Mulaw.SilenceIsFF` | AGENTS/convert_audio.py:22-23 | encoding two zero bytes gives the single silence byte 0xFF |
| `ConvertAudio.FrameBytesAt8k` | AGENTS/convert_audio.py:19-20 | `int(out_rate * frame_ms / 1000)` is 160 for 20 ms frames and 400 for 50 ms frames at 8 kHz |
| `ConvertAudio.AlignedThenCarry` | AGENTS/convert_audio.py:35-38 | the whole samples followed by the new carry are exactly the old carry followed by the chunk |
| `ConvertAudio.FeedStep` | AGENTS/convert_audio.py:25-56 | an empty chunk changes nothing and returns no frames; every returned frame is full; the buffer then holds less than one frame |
| `ConvertAudio.FeedStepConverts` | AGENTS/convert_audio.py:39-54 | without a whole sample, nothing is emitted and rate state and buffer are unchanged; otherwise the frames followed by the new buffer are the old buffer followed by this call's μ-law, and the converter's new state is kept; a converter error leaves state and buffer alone |
| `ConvertAudio.PadLength` | AGENTS/convert_audio.py:67-69 | the silence added is shorter than a frame and brings the buffer to a multiple of the frame size |
| `ConvertAudio.Padded` | AGENTS/convert_audio.py:67-69 | with padding requested, the buffer followed by just enough silence to reach a multiple of the frame size; without, the buffer unchanged |
| `ConvertAudio.FlushStep` | AGENTS/convert_audio.py:58-79 | on an empty buffer, nothing is emitted and the carry is kept; otherwise carry and buffer end empty and the rate state is kept; only full frames are emitted |
| `ConvertAudio.FlushStepFrames` | AGENTS/convert_audio.py:67-74 | a padded flush emits the buffer followed by just enough silence; an unpadded one emits the buffer with its short remainder dropped |
| `ConvertAudio.FlushPadsOneFrame` | AGENTS/convert_audio.py:67-74 | with less than a frame buffered, a padded flush emits exactly one frame: the buffer, then silence up to the frame size |
| `ConvertAudio.UnpaddedFlushOfShortBufferIsEmpty` | AGENTS/convert_audio.py:71-77 | with less than a frame buffered, an unpadded flush emits nothing |
| `ConvertAudio.FlushTwice` | AGENTS/convert_audio.py:63-79 | a second flush right after a first returns no frames |
| `ConvertAudio.FeedAll` | AGENTS/agent.py:37-41 | feeding chunks in order until one raises yields only full frames, keeps the buffer under one frame, and takes every chunk unless one raised |
| `ConvertAudio.FeedAllStopsAtFailure` | AGENTS/agent.py:37-48 | once a feed has raised, later chunks are never fed |
| `ConvertAudio.FeedAllTotal` | AGENTS/convert_audio.py:43-45 | a rate converter that never raises lets every chunk be fed |
| `ConvertAudio.FeedAllCarry` | AGENTS/convert_audio.py:33-38 | across any chunks, empty and one-byte ones included, the carry is the trailing odd byte of everything fed so far |
| `ConvertAudio.FeedAllConverts` | AGENTS/convert_audio.py:33-54 | over a run of feeds, the inputs handed to `ratecv` followed by the final carry are the old carry followed by the chunks taken, so each byte reaches the converter once and in order; the frames emitted followed by the final buffer are the old buffer followed by the μ-law of every converter output, in order; every call but the last returned, and the last raised exactly when the run failed |
| `ConvertAudio.Pcm16kToMulaw8k.constructor` | AGENTS/convert_audio.py:13-23 | the frame size is fixed from rate and duration, silence is the encoded zero sample, and carry, rate state and buffer start empty |
| `ConvertAudio.Pcm16kToMulaw8k.SliceFrames` | AGENTS/convert_audio.py:52-54 | the slicing loop returns the frames and leaves the leftover of `SplitFrames` on the old buffer |
| `ConvertAudio.Pcm16kToMulaw8k.Feed` | AGENTS/convert_audio.py:25-56 | `feed` returns and leaves exactly what `FeedStep` gives on the old state, keeping carry under 2 bytes and buffer under one frame |
| `ConvertAudio.Pcm16kToMulaw8k.Flush` | AGENTS/convert_audio.py:58-79 | `flush` returns and leaves exactly what `FlushStep` gives on the old state |
| `Tts.RechunkPieces` | AGENTS/tts.py:33-44 | the byte items are non-empty whole samples of at most 2048 bytes, all but the last exactly 2048; together, in order, they are the input with a trailing odd byte dropped |
| `Tts.Rechunk` | AGENTS/tts.py:33-44 | one item per full 2048-byte piece of the stream, plus one more exactly when at least two bytes are left over |
| `Tts.FinalPieces` | AGENTS/tts.py:41-44 | the full pieces are kept in order, and one item, the even part of the leftover, is added exactly when the leftover holds a whole sample |
| `Tts.EmitChunks` | AGENTS/tts.py:36-39 | the inner loop puts the full 2048-byte pieces of the buffer and keeps the leftover |
| `Tts.ChunkStream` | AGENTS/tts.py:28-39 | the read loop, skipping empty chunks, puts exactly the full pieces of the concatenated stream and keeps the rest in the buffer |
| `Tts.RemainderKeepsSamples` | AGENTS/tts.py:41-44 | putting the even part of the leftover, when non-empty, completes the stream but for a trailing odd byte |
| `Tts.RemainderSizes` | AGENTS/tts.py:41-44 | the remainder item is a non-empty even-length piece shorter than 2048 bytes |
| `Tts.GenerateAudio` | AGENTS/tts.py:20-46 | the queue receives the re-chunked byte items and then the sentinel exactly once, after all of them |
| `Tts.FirstSentinel` | AGENTS/tts.py:49-55 | the first sentinel's position: everything before it is audio |
| `Tts.Speak` | AGENTS/tts.py:49-57 | `speak` yields the items before the first sentinel in order, calls `task_done` once per item taken including the sentinel, and leaves the rest queued |
| `Tts.SpeakAfterGenerate` | AGENTS/tts.py:46-55 | on a queue filled by `generate_audio` alone, `speak` yields exactly the byte items and consumes the whole queue |
| `Agents.SpeechConfig` | AGENTS/agent.py:34 | the converter of `speech` has a valid 400-byte frame |
| `Agents.SpeechFrames` | AGENTS/agent.py:34-48 | every frame of the speech path is 400 bytes; a converter error stops it where it happened, with no flush |
| `Agents.SpeechPadsLastFrame` | AGENTS/agent.py:43-45 | when no feed raised, the speech path adds to the fed frames at most one frame: the leftover μ-law padded with 0xFF to 400 bytes |
| `Agents.ConvertSpeech` | AGENTS/agent.py:34-45 | a fresh 50 ms converter fed each chunk in order, then flushed with padding, gives the frames of `SpeechFrames` |
| `Agents.Consume` | AGENTS/agent.py:37-48 | the consumer side yields only 400-byte frames, always removes something from the queue, and leaves a tail of it |
| `Agents.Produced` | AGENTS/tts.py:20-46 | the producer's queue holds a sentinel, its last item; before it come audio items carrying exactly the re-chunked synthesis output |
| `Agents.SpeechStep` | AGENTS/agent.py:31-51 | one `speech` call yields only 400-byte frames, takes at least one item, and leaves queued a tail of the old queue followed by the producer's items |
| `Agents.ConsumeProduced` | AGENTS/agent.py:32-45 | on exactly what the producer put, the consumer converts the producer's items and leaves the queue empty unless the converter raised |
| `Agents.SpeechDrainsFreshQueue` | AGENTS/agent.py:31-51 | speaking from an empty queue converts exactly the re-chunked synthesis output |
| `Agents.Agent.constructor` | AGENTS/agent.py:16-23 | a new agent's history is only the system prompt, and its queue is empty |
| `Agents.Agent.Invoke` | AGENTS/agent.py:26-29 | exactly one `ai` message carrying the reply text is appended, and the reply is returned unchanged; a raising call changes nothing |
| `Agents.Agent.Speech` | AGENTS/agent.py:31-51 | the frames and the queue left are those of `SpeechStep` on the old queue, and the producer is cancelled on every path |
| `VectorDb.Contexts` | RAG/vector_db.py:35-40 | at most one context per point, none of them empty |
| `VectorDb.Kept` | RAG/vector_db.py:36-39 | a point is kept exactly when its payload exists and its `text` member is a non-empty string |
| `VectorDb.Sources` | RAG/vector_db.py:36-41 | every kept point's source is a source, `""` for a kept point without one; no kept point means no source |
| `VectorDb.ContextsMembership` | RAG/vector_db.py:35-40 | a text is a context exactly when some kept point carries it |
| `VectorDb.ContextsConcat` | RAG/vector_db.py:35-40 | the contexts keep result order across runs of points |
| `VectorDb.DroppedPointContributesNothing` | RAG/vector_db.py:36-39 | a point with no payload, or with missing, null or empty text, adds neither a context nor a source |
| `VectorDb.SourcesConcat` | RAG/vector_db.py:33-40 | the sources of two runs of points are the union of their sources |
| `VectorDb.ListOf` | RAG/vector_db.py:42 | `list(sources)` holds each element of the set exactly once |
| `VectorDb.Search` | RAG/vector_db.py:32-42 | `contexts` are the kept texts in order; `sources` are, without duplicates, exactly the sources of the kept points |
| `VectorDb.BuildPoints` | RAG/vector_db.py:20 | one point per index of `ids`, pairing `ids[i]`, `vectors[i]` and `payloads[i]`; an index error exactly when vectors or payloads are shorter |
| `VectorDb.BuildPointsUnzip` | RAG/vector_db.py:20 | unzipping the points gives back the ids and the paired prefixes of vectors and payloads |
| `Server.RunWith` | RAG/server.py:77-96 | each receive is counted, and nothing more is read once the relay stopped listening |
| `Server.Classify` | RAG/server.py:82-96 | the dispatch on `event`: `stop` stops, an unknown or missing event is ignored, a media event yields its decoded payload and a start event its stream id; a message that is not an object raises |
| `Server.Receive` | RAG/server.py:79-105 | one receive only appends to what was sent; the stream id changes only on a start event; a garbled or raising message ends reading and sends nothing; a disconnect empties the buffer and sends Terminate last; only a stop, a disconnect or a raise ends reading |
| `Server.Run` | RAG/server.py:75-105 | the relay loop counts each receive and reads nothing once reading has ended |
| `Server.RunStopsReading` | RAG/server.py:93-94 | after a `stop`, a disconnect or an error, later messages are never read |
| `Server.ReceiveConserves` | RAG/server.py:83-103 | one receive keeps the bytes: audio sent followed by the buffer grows by exactly that message's media payload |
| `Server.RunConserves` | RAG/server.py:84-103 | the audio sent upstream followed by the buffer is every media payload received, in arrival order |
| `Server.ReceiveFramed` | RAG/server.py:83-105 | one receive keeps the relay's framing shape |
| `Server.RunFramed` | RAG/server.py:89-105 | before a disconnect, only 400-byte frames are sent and under 400 bytes are buffered; after it, at most one short chunk, then a single Terminate, and an empty buffer |
| `Server.FramedTerminate` | RAG/server.py:99-105 | a Terminate is sent exactly when the caller disconnected |
| `Server.RunStreamSid` | RAG/server.py:95-96 | the stored stream id is that of the last `start` event read |
| `Server.MediaSession.SendFrames` | RAG/server.py:89-91 | the framing loop sends the full 400-byte frames of the buffer, in order, and keeps the leftover |
| `Server.MediaSession.TwilioToAai` | RAG/server.py:75-105 | the receive loop leaves buffer, stream id and sent messages as `Run` gives them |
| `Server.TurnQuestions` | RAG/server.py:172-181 | at most one turn per message received |
| `Server.TurnQuestionsMembership` | RAG/server.py:172-181 | a question launches a turn exactly when a message of type Turn with that non-empty transcript and `end_of_turn` true was received |
| `Server.LaunchesTurn` | RAG/server.py:172-180 | a launching message has type Turn, a transcript and a truthy `end_of_turn`, though a truthy value such as 2 does not launch one |
| `Server.AaiToLog` | RAG/server.py:168-187 | the reader launches the filtered questions in order and stops at the first message that raises |
| `Server.ContextBlock` | RAG/server.py:120 | the block is empty exactly when there are no contexts; each context adds its text, `"- "` and a two-byte separator, less one separator |
| `Server.UserContent` | RAG/server.py:121-126 | the prompt starts with the fixed header and ends with the fixed closing line, and its length is the sum of its parts |
| `Server.ContextInBlock` | RAG/server.py:120 | each context appears verbatim after its `"- "`, and each but the last is followed by `"\n\n"` |
| `Server.UserContentLayout` | RAG/server.py:121-126 | the prompt is the fixed header, the block, the fixed lead-in, the question verbatim and the fixed closing line |
| `Server.TalkMessage` | RAG/server.py:133-140 | the outbound message, read back by the inbound dispatch, is a media event carrying that frame, and it carries the stored stream id |
| `Server.TalkMessages` | RAG/server.py:132-140 | one outbound message per frame, in order |
| `Server.MediaSession.SendMedia` | RAG/server.py:132-142 | one media message per frame, in order, each with the stored stream id |
| `Server.MediaSession.Talk` | RAG/server.py:131-142 | the caller receives one media message per frame of the agent's speech |
| `Server.Iterate` | RAG/server.py:152-159 | one iteration ends the turn exactly on `end_turn` (after a successful lookup), raises exactly on a failed invocation or lookup, and makes one lookup of the question with `top_k` 5 exactly when `query_rag` is set |
| `Server.AfterReply` | RAG/server.py:155-159 | a requested lookup appends the prompt from the contexts found as a user message; `end_turn` is checked after it |
| `Server.Answered` | RAG/server.py:152-154 | the reply becomes one `ai` message; the caller is sent one media message per spoken frame; the queue is what speaking left; the producer is cancelled; no lookup is made |
| `Server.Loop` | RAG/server.py:150-159 | one iteration per scripted exchange until one stops the loop |
| `Server.LoopStop` | RAG/server.py:151 | once the loop has ended, later exchanges never happen |
| `Server.LoopExit` | RAG/server.py:150-159 | the loop goes on after every iteration but the last and stops exactly at the first exchange that does not let it go on |
| `Server.TurnsExit` | RAG/server.py:150-164 | the turn stops exactly at the first `end_turn` reply, failed invocation or failed lookup |
| `Server.TurnsQueries` | RAG/server.py:155-157 | every lookup of the turn is of the original question with `top_k` 5, one per reply that set `query_rag` |
| `Server.TurnsHistory` | RAG/server.py:148-157 | the history only grows over a turn |
| `Server.NoIterationBound` | RAG/server.py:150-151 | replies that set neither flag keep the loop going for as long as they come, with no lookup |
| `Server.BothFlagsLookUpThenEnd` | RAG/server.py:155-159 | a reply that sets both flags still has its lookup appended before the loop ends |
| `Server.LookupThenEnd` | RAG/server.py:150-159 | a lookup reply then an `end_turn` reply give exactly two invocations and one lookup, and the history gains the answer, the prompt and the second answer |
| `Server.MediaSession.constructor` | RAG/server.py:63-66 | a call starts with an empty buffer, no stream id, nothing sent, and a fresh agent |
| `Server.MediaSession.RunIteration` | RAG/server.py:152-159 | one pass of the loop body changes the session as `Iterate` says |
| `Server.MediaSession.LookUp` | RAG/server.py:155-159 | the lookup and `end_turn` part of the loop body changes the session as `AfterReply` says |
| `Server.MediaSession.SafeSendEvent` | RAG/server.py:145-164 | the question is appended once as a user message, then the loop runs as `Turns` says |

## Left out

- Sockets and web plumbing (`accept`, `receive_text`, `send_text`, `send`, `websockets.connect`, ping
  settings, `_ws_connect_kwargs`, `media_http`): these are I/O. Received messages are an input
  sequence, and sent messages are fields that only grow.
- JSON and Base64 encoding: decoded messages are a `Json` tree. A payload that does not decode as
  Base64 is one that raises.
- Concurrency. `asyncio.gather` and the `create_task` calls that launch turns are not modelled: `AaiToLog` returns
  the questions it would launch, in order, and each turn is run by `SafeSendEvent` on its own. In
  `speech`, the producer runs to completion before the consumer drains the queue. Its cancellation is
  a flag set on every exit path, not an interruption of the producer.
- Failure of the synthesis service inside the producer task is not modelled. The synthesis output is
  the list of chunks the service delivered.
- `audioop.ratecv` is an opaque function value. Its interpolation is not modelled.
- The language model, embedding and vector-store client calls are scripted per iteration
  (`Exchange`). `QDrantStorage.__init__`, the collection setup and the client's `upsert` call are not
  part of this model.
- `ConvertAudio.Pcm16kToMulaw8k.constructor`: only `width` 2 is modelled, the value every caller uses. The
  constructor requires a frame size above zero, because with a zero frame size `feed` loops forever.
  The frame size is computed with exact rational division truncated toward zero, not in floating point.
- In `aai_to_log`, the float conversion and the logging are left out, and `end_of_turn == True`
  is modelled for JSON `true` and the integer 1 only (a JSON `1.0` is not a value of `Json`).
- `Json` has no arrays and no non-integer numbers: AssemblyAI's `words` array and its float
  `end_of_turn_confidence` cannot be represented, and messages are modelled without them.
- Payload values in search results are strings or null; other JSON values are not modelled.
- `get_inngest_client`, `close_tts_client`, the `VOICE`, `tts_client` and `llm` fields of the agent,
  environment variables and `load_dotenv`: configuration and foreign clients.
- RAG/load_and_upsert_data.py (PDF loading, embedding, `uuid5`, argument parsing) is not part of this
  model. AGENTS/system_prompts.py is a string constant: the system prompt is a constructor parameter.
