# Verzeta Studio: a verified model

Verzeta Studio is a desktop workspace in which several AI agents share a conversation. This
project models, in Dafny 4.11, the parts of its backend whose behaviour is spread over many
calls, and proves what they promise over all inputs and all runs.

`dafny verify dfyconfig.toml` checks everything.

| file | what it models |
|---|---|
| `InferProtocol.dfy` | the length-prefixed frames between the app and its inference sidecar |
| `Sidecar.dfy` | the sidecar process: reading, extracting, dispatching, streaming and cancelling |
| `RagpSlot.dfy` | the decode and generation loop of a one-shot completion |
| `InbandTags.dfy`, `OllamaProvider.dfy` | tool calls hidden in streamed text, and the Ollama stream around them |
| `OpenAIProvider.dfy` | tool calls assembled from deltas keyed by index |
| `StrictMessages.dfy` | message lists made acceptable to strict OpenAI-compatible servers |
| `LlmMessages.dfy`, `Gathering.dfy` | a conversation's messages, and tool results gathered into one turn |
| `ToolNames.dfy` | tool names on the wire and back |
| `BoundedCache.dfy`, `ToolTurns.dfy` | first-in first-out caches, and remembered tool-use turns |
| `AnthropicHistory.dfy`, `AnthropicProvider.dfy` | the message array and the event stream of the Anthropic provider |
| `GeminiProvider.dfy` | the contents array, thought signatures and stream of the Gemini provider |
| `LlamaCppProvider.dfy` | the stale-stream filter of the local provider |
| `ConversationTree.dfy`, `ConversationListModel.dfy` | the conversation tree as a value, and as nodes on the heap kept equal to it |
| `ArtifactsModel.dfy` | the artifacts list and its capped walk of the workspace |
| `QStringArg.dfy` | place markers and what `QString::arg` makes of them |
| `SchemaV4.dfy`, `SchemaV6.dfy` | two migrations that move data |
| `Common.dfy` | optional values, concatenation, and the marked places of a list |

A class of the source is a class here, with its fields; each of its methods is proved to do
what a function on values says, and the theorems are about those functions; what each main
operation gives is also stated from its inputs alone, field by field, without those functions.
Signals are appended to a list, `signals`, and frames written to a log.

## How the outside is modelled

- JSON text and its parsed form are an inverse pair of functions; where only one field of a
  document matters, reading it is a function given as a parameter (`extract`, `resultPath`,
  `parseArgs`, `resolve`, `isBlank`, `sanitise`).
- Tokenising, pieces and greedy sampling are functions of the model; what a random sampler draws
  is a parameter of each request. Decode calls and writes to stdout may fail at any time, and so
  may loading and embedding. Stdin is any sequence of reads.
- The service behind the conversation tree changes its store first and then fires the signal;
  ids are created once; folders are flat. It also writes rows without a signal (a saved message's
  tokens, a cleared token total, an agent or alias rebound, a folder's name), which moves
  nothing. The inference host never hands out a stream id twice. Database ids are not empty and
  not shared.
- A locale is its ten digits, its group separator and where it puts it; the digits are not
  also separators, and each is one code unit (scripts whose digits are surrogate pairs are not
  covered). Numbers in aliases are `QString::arg`'s, plain or localized.
- Characters stand for the code units of a QString.

## Where the code differs from what is written about it

- "Exactly one terminal signal per request" does not hold in general. The number is stated
  exactly for every stream of every HTTP provider, with streams that get two. The transport can
  end a stream twice (backend/utils/http-client.cpp:231-236 and 331); the second end is silent
  for OpenAI, Anthropic and Gemini, and would be one more stop for Ollama, whose handler forgets
  the done line it has seen, but the marker that brings it about is not one of its format.
- The local provider's header promises exactly one terminal signal as well; proved is exactly
  which requests get one, and that none gets two.
- An Ollama done line says "tool_calls" exactly when a call was emitted behind the done line
  before it. With a second done line that can be wrong about the whole request; `FinishReasonIff`
  says exactly when.
- Deleting a folder puts its conversations in front of the root whatever their times, so the root
  need not stay most recently updated first; `FolderDeletedSortsIff` says exactly when it does.
- The Gemini header says finish reasons other than STOP, MAX_TOKENS and SAFETY are ignored; the
  code maps RECITATION too and passes any other on in lower case, and the model follows the code.
- Ids that contain a comma can make two tool-use turns share a replay key; `KeysEqualIff` says
  exactly which do.
- An agent name is numbered by a blank and the number only if every place marker in it is above
  2; `OrdinaryAliasIff` is exact. "a%1" becomes "a2 %2". Aliases stay distinct in any case.
- A saved message sets its conversation's time and token total without a signal, so the sidebar
  shows the older ones until the conversation's next signal (`ShownAsStored`, `SilentIsNotShown`).
- Requests are documented to carry a numeric id that the response echoes
  (backend/inference/infer-protocol.h:29). Any other id is echoed, too, except by the busy error,
  which carries a number (`TerminalCarriesId`, `BusyMakesAnId`).
- Two tools can share the name they are sent under; a call then reaches the one offered last.

## Model

| member | source | states |
|---|---|---|
| InferProtocol.ReadBack | backend/inference/infer-protocol.cpp:22-34 | a 32-bit number written big-endian is read back as itself, whatever bytes follow |
| InferProtocol.AppendU32BE | backend/inference/infer-protocol.cpp:22-28 | appends exactly the four big-endian bytes of the number |
| InferProtocol.EncodeInferFrame | backend/inference/infer-protocol.cpp:38-51 | a frame is refused (empty array) exactly when it is over the cap; anything else is the length-prefixed payload, and a reader takes it back as that one frame with nothing left over |
| InferProtocol.WireIs | backend/inference/infer-protocol.cpp:38-51 | what is on the wire, byte for byte: the length of all that follows, the length of the header, both most significant byte first, then the header and the blob |
| InferProtocol.PayloadDecodes | backend/inference/infer-protocol.cpp:53-70 | the payload of any encodable frame decodes to its header and blob |
| InferProtocol.InferFrameReader.constructor | backend/inference/infer-protocol.h:86-87 | a reader starts with an empty buffer |
| InferProtocol.InferFrameReader.Feed | backend/inference/infer-protocol.h:95-118 | feeding a chunk emits the frames that can be taken off the old buffer followed by the chunk, keeps the rest, and reports a length over the cap |
| InferProtocol.InferFrameReader.Clear | backend/inference/infer-protocol.h:121-121 | drops what is buffered |
| InferProtocol.CutFrontAppend | backend/inference/infer-protocol.h:97-110 | later bytes change neither a frame that can be cut off nor a bad length |
| InferProtocol.DrainAppend | backend/inference/infer-protocol.h:95-118 | bytes that arrive later never change what was taken: draining everything is draining the first part and going on from its residue |
| InferProtocol.ResidueIsDrained | backend/inference/infer-protocol.h:95-118 | nothing more can be taken off a residue, and it is no longer than the buffer was |
| InferProtocol.BadLengthStays | backend/inference/infer-protocol.h:103-105 | once a length prefix is bad, no later bytes make it good and nothing more comes out |
| InferProtocol.DrainFront | backend/inference/infer-protocol.h:95-118 | what is taken off a buffer is its front frame, if it decodes, and then what is taken off the rest |
| InferProtocol.DrainOnePayload | backend/inference/infer-protocol.h:109-117 | one bounded payload is consumed whole whether or not it decodes; the stream stays aligned |
| InferProtocol.ChunkingIrrelevant | backend/inference/infer-protocol.h:95-118 | feeding chunks one after the other gives what one drain of their concatenation gives: the cuts do not matter |
| InferProtocol.DrainWire | backend/inference/main.cpp:164-185 | frames with undecodable payloads in between drain to exactly the frames, in order, with an empty residue, at either end |
| InferProtocol.StreamRoundTrip | backend/inference/infer-protocol.h:95-118 | encoded frames, junk payloads in between, cut into any chunks, come out as exactly those frames with nothing left over, for the host's splitter and the sidecar's |
| InferProtocol.EndsAgreeIff | backend/inference/main.cpp:164-185 | host and sidecar split a byte stream alike if and only if every length prefix met is at least 4 |
| RagpSlot.FedInOrder | backend/inference/ragp-slot.cpp:222-242 | what is fed to the model is positions 0, 1, 2, ... and logits are asked for from the last prompt token on only |
| RagpSlot.GreedyPrefixAt | backend/inference/ragp-slot.cpp:267-289 | at every step of a run the token is the model's choice after those before it, is not an end token, and in JSON mode the text before it was not closed |
| RagpSlot.GreedyRunEnds | backend/inference/ragp-slot.cpp:267-310 | a run is never longer than the cap, and shorter only because the model chose to end or because a brace was opened and all were closed; the model was fed the prompt and the run, or all of it but the token that closed the JSON |
| RagpSlot.TextAppend | backend/inference/ragp-slot.cpp:275-278 | the text of two runs is their texts, one behind the other |
| RagpSlot.ScanBraces | backend/inference/ragp-slot.cpp:278-286 | the depth and the seen flag are the numbers of braces in a piece, opening less closing |
| RagpSlot.AppendPiece | backend/inference/ragp-slot.cpp:275-289 | in JSON mode generation is told to stop exactly when the text has an open brace and as many closing as opening ones |
| RagpSlot.RagpSlot.constructor | backend/inference/ragp-slot.cpp:35-37 | a slot starts unloaded |
| RagpSlot.RagpSlot.Load | backend/inference/ragp-slot.cpp:46-78 | a load works if and only if the file is there and the model and context can be made; a missing file leaves the slot as it was, otherwise failure leaves it unloaded and success sets a context window clamped to 512..131072 |
| RagpSlot.RagpSlot.Unload | backend/inference/ragp-slot.cpp:80-91 | leaves the slot unloaded |
| RagpSlot.RagpSlot.ClearMemory | backend/inference/ragp-slot.cpp:179-183 | the cache of positions is emptied |
| RagpSlot.RagpSlot.Decode | backend/inference/ragp-slot.cpp:224-240 | a batch of 1 to 1024 tokens at the positions right behind the cache is appended, or nothing is and the failure is counted |
| RagpSlot.RagpSlot.DecodePrompt | backend/inference/ragp-slot.cpp:213-242 | the prompt is decoded in such batches to exactly its tokens at their own positions with logits at the last one, unless a decode call fails, which leaves a proper prefix |
| RagpSlot.RagpSlot.Generate | backend/inference/ragp-slot.cpp:262-310 | unless a decode call fails, the text is the pieces of a greedy run that ends at the cap, at an end token or at the first piece boundary where the JSON is closed; positions stay contiguous and within prompt plus cap |
| RagpSlot.RagpSlot.CompletePrompt | backend/inference/ragp-slot.cpp:161-314 | a completion comes off if and only if the slot is loaded, the prompt gives a token and fits with its cap, clamped to 1..1024, and no decode call fails; it is then such a run, every position is below the live context size, and a prompt that does not fit is refused before anything is decoded |
| Sidecar.AnsweredOnce | backend/inference/main.cpp:251-433 | in every unbroken log each request that is not a cancel has had exactly one terminal reply each time it was taken, less those still owed; cancels get none |
| Sidecar.TerminalCarriesId | backend/inference/main.cpp:81-97 | a terminal reply goes to a request still owed one and answers it or is the busy error; it carries that request's id if and only if the request did not come mid-stream or its id is a number |
| Sidecar.BusyMakesAnId | backend/inference/main.cpp:208-213 | the other side happens: a request without an id that comes mid-stream is answered under the id 0 |
| Sidecar.StreamSpan | backend/inference/main.cpp:357-396 | a stream under way began at one complete_stream request; every chunk since is its own and all are counted |
| Sidecar.TokensAreChunks | backend/inference/main.cpp:369-395 | the tokens a stream result reports are the chunk frames sent since its request |
| Sidecar.CancelledIff | backend/inference/main.cpp:196-217 | a stream is reported cancelled if and only if the last thing seen was a cancel with its own id or a framing error; a cancel for another id never stops it |
| Sidecar.ChunkInsideItsStream | backend/inference/main.cpp:371-380 | a chunk frame occurs only between a complete_stream request with its id and that request's terminal reply |
| Sidecar.AccountsRead | backend/inference/main.cpp:125-155 | reading more bytes loses no frame: what arrived is what was taken plus what the buffer will give |
| Sidecar.AccountsTake | backend/inference/main.cpp:178-184 | cutting a payload off the buffer takes exactly the next well-formed frame, or skips a malformed one |
| Sidecar.AllHeard | backend/inference/main.cpp:125-155 | once stdin is at its end, what has arrived is the data of all reads in front of the end, in order |
| Sidecar.SaidAppend | backend/inference/main.cpp:371-380 | what two stretches of a log say is what each says, one behind the other |
| Sidecar.Process.constructor | backend/inference/main.cpp:99-116 | the process starts with nothing read, nothing logged and two separate slots |
| Sidecar.Process.WriteFrame | backend/inference/main.cpp:67-78 | one frame goes out and the protocol moves on by it, or the write failed and is remembered |
| Sidecar.Process.FillFromStdin | backend/inference/main.cpp:125-155 | the buffer and what has arrived grow by the same bytes, which are those of the reads used up; false exactly once stdin is at its end; a blocking read that goes on brings bytes |
| Sidecar.Process.TryExtractFrame | backend/inference/main.cpp:164-185 | gives the next well-formed frame in order of arrival; when it gives none, nothing well-formed was used up; a bad length is met whenever one waits in the buffer and is left there |
| Sidecar.Process.AnswerMidStream | backend/inference/main.cpp:201-215 | mid-stream, the stream's own cancel stops it, another cancel is dropped, any other request gets the busy error |
| Sidecar.Process.PollCancelOrEof | backend/inference/main.cpp:196-217 | the poll stops the stream at end of input, on its own cancel and on a framing error; the bad length then still waits in the buffer, so that the next look meets it again |
| Sidecar.Process.OnPiece | backend/inference/main.cpp:371-380 | a piece that is not empty is one chunk frame with the stream's id and that piece, and is counted; an empty one is nothing; after a failed write nothing more is sent |
| Sidecar.Process.GenerateStream | backend/inference/ragp-slot.cpp:415-452 | the tokens drawn are a run of the model as it is sampled at the request's temperature, and unless a write failed the deltas said since the start are their pieces, one after the other, and the count is the number of pieces that are not empty; it stops at the cap, at an end token the model draws next, or as cancelled exactly when told to; it fails exactly when a decode call does |
| Sidecar.Process.PrepareStream | backend/inference/ragp-slot.cpp:316-414 | no failure if and only if the slot is loaded, the prompt is not empty, gives a token and fits with 16 positions to spare, and no decode call fails; then it is decoded to exactly its tokens at their own positions; and it is called too long exactly when it does not fit so |
| Sidecar.Process.StreamCompletion | backend/inference/main.cpp:357-396 | a stream ends with its one terminal reply, or a write failed or stdin ended inside it; the reply is an error if and only if the prompt cannot be streamed or a decode call failed, and otherwise reports why the run ended and as many tokens as had a piece |
| Sidecar.Process.LoadReply | backend/inference/main.cpp:264-319 | load_model is answered with the request's id, with a result if and only if the slot is known, the file is there and it can be loaded; a slot reported loaded is loaded, with the model of the path, and a failed load leaves no slot loaded that was not |
| Sidecar.Process.ReplyTo | backend/inference/main.cpp:254-356 | every request but complete_stream and cancel is answered with one reply of its own kind, and with an error if and only if it cannot be done, for reasons stated kind by kind: a slot reported loaded or unloaded is, a completion is the text of a greedy run |
| Sidecar.Process.Dispatch | backend/inference/main.cpp:251-433 | each request leaves the process between requests again, unless a write failed or stdin ended inside a stream |
| Sidecar.Process.AwaitFrame | backend/inference/main.cpp:465-476 | blocks until a frame can be taken; exits with 0 at the end of stdin and 1 on a bad length, with every frame that arrived whole taken; a framing error met mid-stream is met here again |
| Sidecar.Process.Run | backend/inference/main.cpp:442-481 | unless a write fails the whole exchange follows the protocol; what arrived is what the reads made of stdin delivered, at exit 0 all of stdin up to its end, and every complete well-formed frame in it is taken once in order; the exit code is 1 only after a write failure or a bad length, and a framing error met mid-stream ends the process with 1 without stdin having ended |
| InbandTags.FindFrom | backend/api/ollama-provider.cpp:640-640 | the first place from a given one where a tag occurs, or that it occurs nowhere |
| InbandTags.PrefixesOfOpen | backend/api/ollama-provider.cpp:646-659 | the twelve hold-back strings are the proper prefixes of the open tag, shortest first |
| InbandTags.HeldIsLongest | backend/api/ollama-provider.cpp:660-665 | what is held back is a prefix of the open tag and no longer one ends the text |
| InbandTags.HeldIsUnique | backend/api/ollama-provider.cpp:660-665 | no two prefixes end a text together, because '<' is only in front: the order of trying them does not matter |
| InbandTags.CloseAfterOpen | backend/api/ollama-provider.cpp:675-683 | the close tag never starts inside the open tag |
| InbandTags.LocateCuts | backend/api/ollama-provider.cpp:640-683 | finding the first block cuts the text into before, body and after with nothing lost |
| InbandTags.ParseOfBlock | backend/api/ollama-provider.cpp:680-683 | in the one-pass meaning a block whose tags are the first to occur is taken out, and nothing else is |
| InbandTags.ScanTurn | backend/api/ollama-provider.cpp:639-683 | one turn of the extractor loop flushes, takes out and keeps what one step of the meaning does |
| InbandTags.FlushedIsSafe | backend/api/ollama-provider.cpp:642-668 | no open tag, however the text goes on, starts in what is flushed |
| InbandTags.BlockStays | backend/api/ollama-provider.cpp:670-683 | a block found in the buffer is the same block whatever comes behind |
| InbandTags.ScanThenParse | backend/api/ollama-provider.cpp:636-730 | parsing the buffer and everything to come is what draining gives now followed by parsing what is kept and everything to come |
| InbandTags.RestIsText | backend/api/ollama-provider.cpp:675-679 | what a drain keeps holds no complete block |
| InbandTags.ScanAppend | backend/api/ollama-provider.cpp:636-730 | draining a text in two pieces is draining the whole: what the first piece kept, followed by the second, gives what the whole gives behind what the first gave |
| InbandTags.RestIsKept | backend/api/ollama-provider.cpp:642-679 | draining what a drain kept gives nothing and keeps it all |
| InbandTags.NothingKeptIff | backend/api/ollama-provider.cpp:642-679 | a drain keeps nothing if and only if behind the last complete block no open tag occurs and the text does not end with a part of one |
| OllamaProvider.OllamaProvider.constructor | backend/api/ollama-provider.cpp:43-71 | the provider starts with nothing held back, nothing pending and no done line seen |
| OllamaProvider.OllamaProvider.SendRequest | backend/api/ollama-provider.cpp:188-196 | a request starts from an empty buffer, nothing pending and no done line seen |
| OllamaProvider.OllamaProvider.SafeLength | backend/api/ollama-provider.cpp:645-665 | the length that may be flushed is the buffer less the tail that may start an open tag |
| OllamaProvider.OllamaProvider.HoistBody | backend/api/ollama-provider.cpp:680-723 | a body that extract reads as a call is emitted as that call and noted; any other is dropped |
| OllamaProvider.OllamaProvider.NextBody | backend/api/ollama-provider.cpp:640-683 | one turn: the text to flush, the next body if a block is complete, and the buffer after it |
| OllamaProvider.OllamaProvider.DrainInband | backend/api/ollama-provider.cpp:639-724 | the loop flushes, emits and keeps exactly what draining the buffer means |
| OllamaProvider.OllamaProvider.ParseContent | backend/api/ollama-provider.cpp:636-730 | one content delta: the calls found, then the text, and the new buffer |
| OllamaProvider.OllamaProvider.OnDelta | backend/api/ollama-provider.cpp:558-751 | one delta line: thinking, content and server-sent calls in that order |
| OllamaProvider.OllamaProvider.OnDone | backend/api/ollama-provider.cpp:453-556 | the done line flushes the buffer, finishes with the right reason and forgets the pending call |
| OllamaProvider.OllamaProvider.ParseStreamChunk | backend/api/ollama-provider.cpp:418-752 | every line moves the state and emits as the protocol of lines says |
| OllamaProvider.OllamaProvider.OnStreamFinished | backend/api/ollama-provider.cpp:49-55 | a synthetic stop is emitted exactly when no done line was seen |
| OllamaProvider.OllamaProvider.OnErrorOccurred | backend/api/ollama-provider.cpp:56-58 | a transport error is passed on |
| OllamaProvider.CuttingIrrelevant | backend/api/ollama-provider.cpp:636-730 | for every way of cutting the content into deltas, the text shown with the buffer, and the calls extracted, each equal those of one pass over everything |
| OllamaProvider.ShownSoFar | backend/api/ollama-provider.cpp:636-730 | at every moment before the done line the text shown, the calls extracted and the buffer are those of one drain of all content so far, however it was cut into deltas |
| OllamaProvider.ResponseIsOnePass | backend/api/ollama-provider.cpp:453-556 | a response with its one done line last shows the text and hoists the calls of one pass over the whole content, and finishes as "tool_calls" if and only if a call was emitted |
| OllamaProvider.CallsAreHoisted | backend/api/ollama-provider.cpp:636-730 | for any delta lines, and however the content is cut, the calls emitted from the text are one for one, in order, the bodies of the content's complete blocks that extract reads: those at strictly ascending places, all of them and no other, each as what extract makes of it |
| OllamaProvider.OneBlockOneCall | backend/api/ollama-provider.cpp:680-723 | in particular one readable block in otherwise plain text, however it is cut, emits its call, once, and nothing else is emitted as a call |
| OllamaProvider.ParseOfPlain | backend/api/ollama-provider.cpp:640-669 | a text without an open tag, or without a close tag, is all text and holds no block |
| OllamaProvider.SentIsForwarded | backend/api/ollama-provider.cpp:558-751 | for any lines the calls the server sends and the thinking are all forwarded, in order and as they came |
| OllamaProvider.PendingIff | backend/api/ollama-provider.cpp:464-543 | a call is pending if and only if one was emitted since the last finish |
| OllamaProvider.LinesEmit | backend/api/ollama-provider.cpp:464-543 | after any lines, done lines included: a call was emitted if and only if some stretch between done lines holds one, and one is pending if and only if the stretch behind the last done line does |
| OllamaProvider.FinishReasonIff | backend/api/ollama-provider.cpp:537-554 | a done line says "tool_calls" if and only if the lines behind the done line before it hold a call; so it is right about the whole request if and only if no call was emitted or those lines hold one |
| OllamaProvider.CutShort | backend/api/ollama-provider.cpp:49-55 | without a done line the text shown lacks exactly what a drain of the content keeps; it is whole if and only if behind the last complete block no open tag occurs and the content does not end with a part of one |
| OllamaProvider.SecondDoneForgets | backend/api/ollama-provider.cpp:543-554 | a second done line reports "stop" although a call was emitted: the reason is right for the first one only |
| OllamaProvider.TerminalSignals | backend/api/ollama-provider.cpp:49-55 | from request to stream end there are as many terminal signals as done lines, and one for none; so exactly one if and only if at most one done line came |
| OllamaProvider.TwoTerminals | backend/api/ollama-provider.cpp:49-55 | that does happen: two done lines are two terminal signals |
| OpenAIProvider.OpenAIProvider.constructor | backend/api/openai-provider.cpp:35-38 | the provider starts with no pending calls and no finish emitted |
| OpenAIProvider.OpenAIProvider.SendRequest | backend/api/openai-provider.cpp:251-271 | without a needed key one error is emitted and nothing changes; otherwise the request state is reset, and a model that refuses tools is one error |
| OpenAIProvider.OpenAIProvider.AbsorbDeltas | backend/api/openai-provider.cpp:650-669 | tool deltas are folded into the call of their index: last non-empty id and name, arguments appended |
| OpenAIProvider.OpenAIProvider.ParseSseLine | backend/api/openai-provider.cpp:569-682 | an error object reports and drops the pending calls; a choice emits its text, absorbs its tool deltas and finishes unless the reason is "tool_calls" |
| OpenAIProvider.OpenAIProvider.EmitPending | backend/api/openai-provider.cpp:40-64 | the named pending calls are emitted in index order, each once; EmittedFields says what each says |
| OpenAIProvider.OpenAIProvider.OnStreamFinished | backend/api/openai-provider.cpp:38-76 | the end of the stream emits the named pending calls in index order and one finish, or a synthetic stop when nothing was signalled, and clears them |
| OpenAIProvider.AssembledFromOwn | backend/api/openai-provider.cpp:650-669 | each pending call is what its own index's deltas alone make: last non-empty id and name, all argument fragments concatenated |
| OpenAIProvider.InterleavingIrrelevant | backend/api/openai-provider.cpp:650-669 | two delta lists with the same subsequence for every index give the same calls, however they interleave |
| OpenAIProvider.EmittedAscending | backend/api/openai-provider.cpp:40-64 | exactly the named calls are emitted, in strictly ascending index order |
| OpenAIProvider.EmittedCalls | backend/api/openai-provider.cpp:38-67 | the end of any stream emits one call per index named since the last error, ascending, each from its own deltas, then finishes as "tool_calls" |
| OpenAIProvider.EmittedFields | backend/api/openai-provider.cpp:38-67 | field by field, from the deltas: one signal per index that was named since the last error, ascending, whose id and name are the last ones of that index's deltas that are not empty, and whose arguments are the object read from the concatenated fragments, "{}" when there are none or none is read; then the finish "tool_calls" |
| OpenAIProvider.DeltasAre | backend/api/openai-provider.cpp:575-669 | the deltas pending are those of all lines behind the last error, in order |
| OpenAIProvider.SignalsAreSaid | backend/api/openai-provider.cpp:569-682 | before the end of the stream the signals are, line by line, the text as it came, each ending under its own reason, and each error with its message or the standard one |
| OpenAIProvider.StateAfter | backend/api/openai-provider.cpp:569-682 | after any lines the pending calls are the deltas since the last error and the finished flag says whether an ending came |
| OpenAIProvider.TerminalSignals | backend/api/openai-provider.cpp:38-76 | the exact number of terminal signals of any stream: its endings, and one more if it had none or a tool delta is behind the last error; so at least one, and exactly one if and only if it had no ending, or one ending and no such delta |
| OpenAIProvider.TwoTerminals | backend/api/openai-provider.cpp:38-76 | that does happen: a finish followed by an error is two terminal signals |
| OpenAIProvider.SecondEndIsSilent | backend/api/openai-provider.cpp:66-76 | the transport may end a stream twice; the second end signals nothing |
| StrictMessages.NormalizeStrictMessages | backend/api/openai-compat-provider.cpp:190-242 | the loop computes the collapse, defined from the other end, of the prepared messages |
| StrictMessages.CollapseSnoc | backend/api/openai-compat-provider.cpp:218-240 | adding a message last to a collapsed list is what one turn of the loop does |
| StrictMessages.NormalizedIsStrict | backend/api/openai-compat-provider.cpp:190-242 | the result has a system turn only in front, no two mergeable neighbours and no empty content beside tool calls |
| StrictMessages.UnchangedIffStrict | backend/api/openai-compat-provider.cpp:190-242 | normalising changes nothing if and only if the list already is strict |
| StrictMessages.Idempotent | backend/api/openai-compat-provider.cpp:190-242 | normalising twice is normalising once |
| StrictMessages.Incremental | backend/api/openai-compat-provider.cpp:190-242 | normalising a normalised beginning with the rest behind it is normalising the whole |
| StrictMessages.TurnsAndTextKept | backend/api/openai-compat-provider.cpp:190-242 | assistant, tool and other turns come through one for one in order, and all text is kept in order up to the joiner |
| StrictMessages.NormalizedAreTurns | backend/api/openai-compat-provider.cpp:190-242 | from the messages' own fields: one turn from each message that starts one to the next that does, where only a user text right behind a user text starts none; a single message goes as it is but for a system role behind the first and empty content beside tool calls, and several user texts go as one turn with the first one's other fields and their texts joined |
| ToolTurns.SortSorts | backend/api/anthropic-provider.cpp:109-109 | sorting gives a sorted permutation |
| ToolTurns.SortedUnique | backend/api/anthropic-provider.cpp:109-109 | two sorted arrangements of the same ids are the same list |
| ToolTurns.ToolTurnKey | backend/api/anthropic-provider.cpp:102-111 | the loop computes the key: the non-empty ids, sorted and joined |
| ToolTurns.KeyIgnoresOrder | backend/api/anthropic-provider.cpp:102-111 | equal multisets of non-empty ids have equal keys |
| ToolTurns.KeyIdentifies | backend/api/anthropic-provider.cpp:102-111 | over comma-free ids, keys are equal if and only if the multisets of non-empty ids are |
| ToolTurns.SplitJoin | backend/api/anthropic-provider.cpp:110-110 | cutting joined ids at the commas gives each id's own parts, concatenated |
| ToolTurns.KeysEqualIff | backend/api/anthropic-provider.cpp:102-111 | for any ids: keys are equal if and only if the sorted non-empty ids, each cut at its commas, read alike |
| ToolTurns.CommaCollides | backend/api/anthropic-provider.cpp:110-110 | an id with a comma in it collides with the turn of its two halves: the comma-free condition is needed |
| ToolTurns.RememberedIsPut | backend/api/anthropic-provider.cpp:759-775 | remembering turns is storing the identified ones in the bounded cache under their keys |
| ToolTurns.RememberStep | backend/api/anthropic-provider.cpp:759-775 | a finished turn keeps the cache well-keyed: bound, order list without duplicates that matches the map, each turn under its own key |
| ToolTurns.ReplayedUnchanged | backend/api/anthropic-provider.cpp:411-419 | while a turn is cached and no later turn took its key, any order of its tool-use ids finds exactly its blocks |
| ToolTurns.NonEmptyArePicked | backend/api/anthropic-provider.cpp:103-108 | the ids that make up a key are those that are not empty, all of them, in order |
| ToolTurns.RememberedIsThere | backend/api/anthropic-provider.cpp:759-775 | a turn with a tool use that has an id is in the cache once it is remembered, found under any order of its ids |
| BoundedCache.PutStep | backend/api/anthropic-provider.cpp:766-772 | one insertion serves its key, leaves the other entries, grows the order list at the end and cuts it at the front |
| BoundedCache.PutIs | backend/api/anthropic-provider.cpp:766-772 | one insertion outright: a key that was there keeps its place, and a new one goes to the end, for which the oldest entry leaves when there is no room |
| BoundedCache.FirstInFirstOut | backend/api/anthropic-provider.cpp:766-772 | over any run the order list is the last entries, up to the bound, of the old list followed by the keys added, and each cached key serves what was stored last under it |
| BoundedCache.StaysCached | backend/api/anthropic-provider.cpp:770-772 | an entry at a place of the order list survives a run that adds no more keys than are free plus its place |
| BoundedCache.StaysCachedIff | backend/api/anthropic-provider.cpp:770-772 | and if the run does not store under its key again, it survives only then |
| BoundedCache.ServedUnchanged | backend/api/gemini-provider.cpp:482-489 | a cached entry whose key no later one took is served as it was stored |
| Gathering.AppendGathers | backend/api/anthropic-provider.cpp:375-393 | adding a result to turns joins it to a last turn of results or opens a new one, and keeps results unmixed and gathered |
| Gathering.GatherGathers | backend/api/anthropic-provider.cpp:375-459 | the turns, with results taken apart, are the messages one by one in order; no two neighbours hold results |
| Gathering.OnlyGathering | backend/api/anthropic-provider.cpp:375-393 | no other list of turns does that: the outcome is the only one |
| Gathering.ResultsInOrder | backend/api/gemini-provider.cpp:254-279 | read off in order, the results of the turns are the answers of the conversation |
| ToolNames.ApiToolName | backend/api/anthropic-provider.cpp:119-133 | a name sent has only characters the API takes and no more of them than it takes, and one that already is such is not changed |
| ToolNames.NameIsSent | backend/api/anthropic-provider.cpp:119-133 | the name sent is, character by character, a colon as two underscores, a character the API takes as itself and any other as one underscore, cut off at the limit |
| ToolNames.OfferTools | backend/api/anthropic-provider.cpp:487-503 | the tools offered are the available ones on the list, if there is one, under their API names, and each is entered in the map back |
| ToolNames.OfferedAreWanted | backend/api/anthropic-provider.cpp:487-496 | the tools offered are those on the list, or all when there is no list, in order |
| ToolNames.OthersStay | backend/api/anthropic-provider.cpp:497-497 | a name that no offered tool has goes on meaning what it meant |
| ToolNames.LastOneAnswers | backend/api/anthropic-provider.cpp:497-497 | a call under a tool's API name reaches the last tool offered under that name |
| ToolNames.CalledBackIff | backend/api/openai-provider.cpp:61-61 | among tools with different names, a tool is called back by its own name if and only if no tool offered after it has the same API name |
| ToolNames.ColonCollides | backend/api/gemini-provider.cpp:211-223 | that does go wrong: "server:tool" and "server__tool" share an API name, so only the later one is ever called |
| AnthropicHistory.ToolCallBlocks | backend/api/anthropic-provider.cpp:411-433 | a tool-use turn is its remembered blocks, or else its text and one tool_use block per stored call in order |
| AnthropicHistory.VisionBlocks | backend/api/anthropic-provider.cpp:434-449 | images in order, then the text if there is any |
| AnthropicHistory.BuildMessages | backend/api/anthropic-provider.cpp:394-470 | the loop and the last-turn fix compute the gathered entries of the history; TurnsAreMessages says what they are |
| AnthropicHistory.ArrayIsAccepted | backend/api/anthropic-provider.cpp:374-470 | for any history: no system turn, no plain assistant turn last, results unmixed, no two neighbours with results |
| AnthropicHistory.ResultsAreIdentified | backend/api/anthropic-provider.cpp:394-403 | the tool results of the request read in order are the tool messages that name their call, an empty one as "(no output)" |
| AnthropicHistory.TurnsAreMessages | backend/api/anthropic-provider.cpp:374-470 | from the messages' own fields: the turns of the request, with results taken apart, are one for one and in order the identified tool results and the messages with tool calls, images or text that is not blank; each says its text as it is, or its images and then its text, or its remembered blocks, or else its text and one tool_use per call with the call's id, API name and input; system goes as user, and so does a last plain assistant turn |
| AnthropicProvider.AnthropicProvider.constructor | backend/api/anthropic-provider.cpp:159-162 | the provider starts with nothing streamed and an empty replay cache |
| AnthropicProvider.AnthropicProvider.ResetRequest | backend/api/anthropic-provider.cpp:294-305 | a request keeps the remembered turns and forgets everything else of the last stream |
| AnthropicProvider.AnthropicProvider.SendRequest | backend/api/anthropic-provider.cpp:288-305 | without a key one error is emitted and nothing changes; with one the request state is reset |
| AnthropicProvider.AnthropicProvider.OnBlockStart | backend/api/anthropic-provider.cpp:616-633 | a block start opens the block with its own fields and, for a tool use, a fresh pending call |
| AnthropicProvider.AnthropicProvider.OnBlockDelta | backend/api/anthropic-provider.cpp:635-668 | text, thinking, signature and input deltas are appended; text and thinking are streamed when not empty |
| AnthropicProvider.AnthropicProvider.RecordBlock | backend/api/anthropic-provider.cpp:671-682 | thinking, redacted thinking and non-empty text are recorded |
| AnthropicProvider.AnthropicProvider.RecordToolUse | backend/api/anthropic-provider.cpp:683-713 | a named pending call is recorded, handed to the app and cleared |
| AnthropicProvider.AnthropicProvider.OnBlockStop | backend/api/anthropic-provider.cpp:670-714 | a block stop records the block and then the pending call, and closes it |
| AnthropicProvider.AnthropicProvider.OnMessageDelta | backend/api/anthropic-provider.cpp:716-731 | a stop reason is kept and reported under the app's name; none changes nothing |
| AnthropicProvider.AnthropicProvider.RememberToolTurn | backend/api/anthropic-provider.cpp:759-775 | the streamed turn goes into the cache, the oldest entries leave, and the turn buffer is cleared |
| AnthropicProvider.AnthropicProvider.OnMessageStop | backend/api/anthropic-provider.cpp:733-740 | remembers the turn and finishes with the last stop reason, or stop |
| AnthropicProvider.AnthropicProvider.ParseSseEvent | backend/api/anthropic-provider.cpp:597-752 | every event moves the state and emits as the protocol of events says |
| AnthropicProvider.AnthropicProvider.OnStreamFinished | backend/api/anthropic-provider.cpp:164-179 | a synthetic stop is emitted exactly when no message_stop came |
| AnthropicProvider.DeltasExtend | backend/api/anthropic-provider.cpp:635-668 | a run of deltas appends to the open block the texts, signatures and input fragments, concatenated, and calls nothing |
| AnthropicProvider.BlockRecorded | backend/api/anthropic-provider.cpp:616-714 | one whole block adds exactly what is recorded of it, hands on its call if it has one, and leaves no call pending |
| AnthropicProvider.TurnRecorded | backend/api/anthropic-provider.cpp:607-714 | for any well-bracketed turn the recorded blocks are the sent blocks with their deltas concatenated, and the calls handed to the app are the tool uses among them |
| AnthropicProvider.TurnIsLeft | backend/api/anthropic-provider.cpp:606-714 | block by block and field by field: what is recorded of a well-bracketed turn is one for one the thinking, redacted thinking, texts that are not empty and named tool uses that were sent, each with its own fields and its deltas appended, and the calls handed to the app are one for one the named tool uses |
| AnthropicProvider.TextIsShown | backend/api/anthropic-provider.cpp:635-668 | whatever the events, the text shown is that of the text deltas and the thinking shown that of the thinking deltas, in order with nothing lost |
| AnthropicProvider.TurnRemembered | backend/api/anthropic-provider.cpp:733-734 | at message_stop the cache gains that turn and nothing else |
| AnthropicProvider.SentBackAsReceived | backend/api/anthropic-provider.cpp:411-419 | whatever requests and streams went before and came after, a message with any permutation of a turn's ids is sent with exactly the streamed blocks while the turn is cached and no later stream brought a turn with its key |
| AnthropicProvider.SentBackAtOnce | backend/api/anthropic-provider.cpp:411-419 | whatever went before, right after a turn that used a tool under an id a message with the ids of its tool uses, in any order, finds the turn, block by block as it was streamed |
| AnthropicProvider.StillCachedIff | backend/api/anthropic-provider.cpp:759-775 | it still is cached if and only if the keys that the later streams' turns added do not push it out of its place |
| AnthropicProvider.LaterCache | backend/api/anthropic-provider.cpp:733-740 | after any later requests and streams the cache is the old one with the turns recorded at their message_stops remembered in order |
| AnthropicProvider.ReachableCache | backend/api/anthropic-provider.cpp:759-775 | in every reachable state the cache is well-keyed, and every request starts with no call pending |
| AnthropicProvider.StateAfter | backend/api/anthropic-provider.cpp:716-747 | after any events the finished flag, the stop reason and the number of terminal signals are those of the message_stops, stop reasons and errors that came |
| AnthropicProvider.FinishIsNamed | backend/api/anthropic-provider.cpp:716-757 | a stop reason is reported when it comes, and a message_stop reports the last one given: tool_use as "tool_calls", the two cut-offs as "length", refusal as "content_filter" and any other, or none, as "stop" |
| AnthropicProvider.TerminalSignals | backend/api/anthropic-provider.cpp:164-179 | the exact number of terminal signals of any stream: its message_stops, at least one, and its errors; so exactly one if and only if no error event and at most one message_stop came |
| AnthropicProvider.TwoTerminals | backend/api/anthropic-provider.cpp:164-179 | that does happen: an error event and the synthetic stop at the end of its stream are two terminal signals |
| AnthropicProvider.SecondEndIsSilent | backend/api/anthropic-provider.cpp:164-179 | a second end of the stream signals nothing |
| GeminiProvider.CollectNames | backend/api/gemini-provider.cpp:237-248 | the loops compute the names by call id over all stored calls |
| GeminiProvider.LabelIsLastName | backend/api/gemini-provider.cpp:240-248 | an id has a name if and only if a stored call carries it, and then that of the last such call |
| GeminiProvider.BuildPieces | backend/api/gemini-provider.cpp:287-328 | images, text and calls in that order, each call with its own signature or the value that skips the check |
| GeminiProvider.BuildContents | backend/api/gemini-provider.cpp:250-335 | the loop computes the gathered entries of the history |
| GeminiProvider.ContentsAreAccepted | backend/api/gemini-provider.cpp:250-335 | for any history: every content is a user or model turn with parts, results are unmixed and gathered, and read in order they are the identified tool messages |
| GeminiProvider.TurnsAreMessages | backend/api/gemini-provider.cpp:237-336 | from the messages' own fields: the contents, with results taken apart, are one for one and in order the identified tool results, each labelled with the API form of the name in the last stored call with its id, or of the id, and the messages with an image, text or a call, each with its images, then its text, then its calls under their API names with their input and the signature kept for them or the value that skips the check |
| GeminiProvider.GeminiProvider.constructor | backend/api/gemini-provider.cpp:33-44 | the provider starts with no signatures kept |
| GeminiProvider.GeminiProvider.SendRequest | backend/api/gemini-provider.cpp:168-175 | without a key one error is emitted; with one the finish and call flags are reset and the signatures kept |
| GeminiProvider.GeminiProvider.RememberSignature | backend/api/gemini-provider.cpp:481-489 | a signature goes into the cache of 256 and the oldest leave |
| GeminiProvider.GeminiProvider.OnPart | backend/api/gemini-provider.cpp:443-499 | a thought is streamed as thinking and nothing else; otherwise the text, then the call |
| GeminiProvider.GeminiProvider.ParseStreamChunk | backend/api/gemini-provider.cpp:411-530 | a payload streams its parts and finishes under the app's name of its reason, or reports a blocked prompt |
| GeminiProvider.GeminiProvider.OnStreamFinished | backend/api/gemini-provider.cpp:36-44 | a synthetic stop is emitted exactly when no finish was emitted, and a second end signals nothing |
| GeminiProvider.StateAfter | backend/api/gemini-provider.cpp:443-529 | after any payloads the calls handed to the app are exactly the function calls streamed, in order, and the terminal signals are the finishes and blocks |
| GeminiProvider.TextIsShown | backend/api/gemini-provider.cpp:446-500 | after any payloads the text shown is that of the open parts and the thinking shown that of the thoughts, in order with nothing lost |
| GeminiProvider.FinishIsNamed | backend/api/gemini-provider.cpp:506-530 | a cut-off is reported as "length", a filtered answer as "content_filter", a reason without a name of its own in lower case, and none or an unspecified one not at all |
| GeminiProvider.RemembersSignatures | backend/api/gemini-provider.cpp:481-490 | the signatures kept are those of the streamed calls in order, and a call is noted if and only if one was streamed |
| GeminiProvider.StopMeansToolCalls | backend/api/gemini-provider.cpp:502-509 | a STOP is reported as "tool_calls" if and only if a call was streamed since the request began |
| GeminiProvider.SignatureSentBack | backend/api/gemini-provider.cpp:318-326 | a call goes back with the signature it came with while that is kept, and otherwise with the value that skips the check |
| GeminiProvider.TerminalSignals | backend/api/gemini-provider.cpp:36-44 | the exact number of terminal signals of any stream: its finish reasons, at least one, and its blocked prompts; so exactly one if and only if no prompt was blocked and at most one finish reason came |
| GeminiProvider.TwoTerminals | backend/api/gemini-provider.cpp:36-44 | that does happen: a blocked prompt and the end of its stream are two terminal signals |
| LlamaCppProvider.LlamaCppProvider.constructor | backend/api/llamacpp-provider.cpp:30-30 | no stream is active at the start |
| LlamaCppProvider.LlamaCppProvider.SendRequest | backend/api/llamacpp-provider.cpp:162-192 | no model or no engine is one error and nothing else; otherwise a live stream is cancelled, a new one asked for, and its refusal reported |
| LlamaCppProvider.LlamaCppProvider.CancelRequest | backend/api/llamacpp-provider.cpp:194-198 | a live stream is cancelled at the host |
| LlamaCppProvider.LlamaCppProvider.OnChatStreamChunk | backend/api/llamacpp-provider.cpp:53-70 | a chunk of the active stream with anything in it is forwarded; any other is dropped |
| LlamaCppProvider.LlamaCppProvider.OnChatStreamFinished | backend/api/llamacpp-provider.cpp:72-95 | a finish of the active stream ends it and is reported once; any other is dropped |
| LlamaCppProvider.RunKeeps | backend/api/llamacpp-provider.cpp:48-96 | in every run against any host that never reuses an id, the active stream is the one started last and its request is unanswered |
| LlamaCppProvider.AtMostOneTerminal | backend/api/llamacpp-provider.cpp:72-95 | no request ever gets two terminal signals, whatever events the host delivers and how often |
| LlamaCppProvider.ChunksOnlyFromTheLiveStream | backend/api/llamacpp-provider.cpp:53-70 | a chunk is forwarded only from the stream started last and only before its request is answered, and unchanged |
| LlamaCppProvider.FinishAnswersIff | backend/api/llamacpp-provider.cpp:72-95 | a finish answers its unanswered request if and only if the provider still listens to that stream |
| LlamaCppProvider.AnsweredIff | backend/api/llamacpp-provider.cpp:72-95 | over every run: a request gets a terminal signal if and only if its send was refused, or a finish of its stream was delivered before the next send that got past the model and host checks; and never two |
| LlamaCppProvider.SignalsAreDue | backend/api/llamacpp-provider.cpp:40-192 | over every run, all that is signalled, and to which request, told from the events: a refused send its reason, and a chunk or finish of the stream under way exactly what the host delivered, its error or the standard one when it failed |
| LlamaCppProvider.SendAsks | backend/api/llamacpp-provider.cpp:162-192 | a send that reaches the host cancels the stream under way, if there is one, and asks for one with the window given, or the last one given, and 1024 tokens when no number is given |
| LlamaCppProvider.DroppedIsNeverAnswered | backend/api/llamacpp-provider.cpp:175-178 | a request whose stream was replaced or given up before it was answered never gets a terminal signal |
| LlamaCppProvider.SecondRequestDropsTheFirst | backend/api/llamacpp-provider.cpp:175-178 | that does happen: a second request while the first streams drops the first |
| ConversationTree.FoundIffCounted | backend/models/conversation-list-model.cpp:521-530 | a folder is found if and only if it is shown |
| ConversationTree.FoundIsRow | backend/models/conversation-list-model.cpp:502-519 | a stored conversation is found where its row says, and nothing else is found |
| ConversationTree.UniqueIds | backend/models/conversation-list-model.cpp:502-519 | no conversation is shown in two places |
| ConversationTree.FolderDeletedTotal | backend/models/conversation-list-model.cpp:400-427 | deleting a folder keeps the number of conversations shown |
| ConversationTree.FolderDeletedAgrees | backend/models/conversation-list-model.cpp:400-427 | after a folder is deleted its conversations are at the root, as the store has them |
| ConversationTree.UpdateAgrees | backend/models/conversation-list-model.cpp:233-329 | an update shows the new row in its new folder |
| ConversationTree.ChangeAgrees | backend/models/conversation-list-model.cpp:205-427 | each of the six signals, fired after its store change, keeps the tree equal to the rows as last told of, and those in the places the store has; rows may have been written without a signal since |
| ConversationTree.SignalReadsOwnRow | backend/models/conversation-list-model.cpp:205-427 | a handler does what it would do had no row been written without a signal: it reads no row but its own |
| ConversationTree.PlacesAreShown | backend/services/message-service.cpp:178-188 | such writes do not disturb the tree: it shows every stored conversation in one place, in its stored folder, nothing else, every stored folder once and no other, and as many conversations as are stored |
| ConversationTree.TotalIsStored | backend/models/conversation-list-model.cpp:78-80 | the number of conversations shown is the number stored |
| ConversationTree.RunAgrees | backend/models/conversation-list-model.cpp:205-427 | through any run of changes with their signals and of rows written without one, the tree shows exactly the stored conversations, each once and in its stored folder, and the total is their number |
| ConversationTree.ShownAsStored | backend/models/conversation-list-model.cpp:233-329 | right after its own signal, and until its row is written without one, a conversation is shown with the id, time and fields it is stored with, in its stored folder |
| ConversationTree.OwnFolderIsShown | backend/models/conversation-list-model.cpp:352-398 | right after its own signal a folder is shown with the fields it is stored with |
| ConversationTree.FolderComesFirst | backend/models/conversation-list-model.cpp:352-370 | a created top-level folder is shown first, empty, with its row's time and fields |
| ConversationTree.SilentIsNotShown | backend/services/message-service.cpp:178-188 | a write without a signal is not shown: the tree goes on showing the row last told of |
| ConversationTree.ChangeSorted | backend/models/conversation-list-model.cpp:205-329 | with times as a clock sets them, a change keeps every folder's conversations most recently updated first |
| ConversationTree.RunSorted | backend/models/conversation-list-model.cpp:205-427 | so does any run of such changes, with rows written without a signal in between, by the times shown |
| ConversationTree.ClockIsTimely | backend/models/conversation-list-model.cpp:205-329 | times are such when every signalled change carries the latest time stored and no other write sets a time back |
| ConversationTree.FolderDeletedSortsIff | backend/models/conversation-list-model.cpp:400-427 | deleting a folder keeps the root most recently updated first if and only if none of its conversations is older than one at the root |
| ConversationTree.DeletionUnsorts | backend/models/conversation-list-model.cpp:400-427 | the other side happens: a folder with a conversation older than one at the root |
| ConversationTree.ChangeTopSorted | backend/models/conversation-list-model.cpp:205-427 | with such times every other change keeps the root's own conversations most recently updated first, and a folder deletion does exactly under that condition |
| ConversationTree.RunTopSorted | backend/models/conversation-list-model.cpp:205-427 | any such run keeps the root in order when each folder it deletes meets the condition; a run without a folder deletion always does |
| ConversationTree.BuiltAgrees | backend/models/conversation-list-model.cpp:433-469 | the initial load agrees with the store and is in order, at the root and in every folder |
| ConversationListModel.ConversationListModel.constructor | backend/models/conversation-list-model.cpp:30-60 | the model starts with the initial load: the nodes show exactly the store and the total is the number stored |
| ConversationListModel.ConversationListModel.FindFolderNode | backend/models/conversation-list-model.cpp:521-530 | the first top-level folder node with an id, or none |
| ConversationListModel.ConversationListModel.ParentNodeForFolderId | backend/models/conversation-list-model.cpp:532-537 | the folder's node, or the root for no folder or an unknown one |
| ConversationListModel.ConversationListModel.FindConversationNode | backend/models/conversation-list-model.cpp:502-519 | the first conversation node with an id in display order, or none |
| ConversationListModel.ConversationListModel.MakeConversationNode | backend/models/conversation-list-model.cpp:539-553 | a new node with the row's fields, not yet in the tree |
| ConversationListModel.ConversationListModel.MakeFolderNode | backend/models/conversation-list-model.cpp:555-566 | a new folder node with the row's fields, not yet in the tree |
| ConversationListModel.ConversationListModel.OnConversationCreated | backend/models/conversation-list-model.cpp:205-231 | a created conversation is prepended to its folder; nodes, parents and total stay consistent |
| ConversationListModel.ConversationListModel.OnConversationUpdated | backend/models/conversation-list-model.cpp:233-329 | an updated conversation is refreshed in place, moved to the front of its own or its new parent, or added when unknown |
| ConversationListModel.ConversationListModel.OnConversationDeleted | backend/models/conversation-list-model.cpp:331-350 | a deleted conversation's node leaves the tree and the total |
| ConversationListModel.ConversationListModel.OnFolderCreated | backend/models/conversation-list-model.cpp:352-370 | a created top-level folder is prepended; a nested one is not shown |
| ConversationListModel.ConversationListModel.OnFolderUpdated | backend/models/conversation-list-model.cpp:372-398 | an updated folder's fields are refreshed where it is |
| ConversationListModel.ConversationListModel.OnFolderDeleted | backend/models/conversation-list-model.cpp:400-427 | the folder's children go to the front of the root in their order and the folder goes; no node is lost |
| ConversationListModel.ConversationListModel.EmptyFolder | backend/models/conversation-list-model.cpp:408-418 | moving the children out one by one, last first, keeps the tree well-formed at every step and empties the folder |
| ConversationListModel.ConversationListModel.BuildTree | backend/models/conversation-list-model.cpp:433-469 | the load builds the folders with their conversations, then the root's conversations, in the service's order |
| ConversationListModel.ConversationListModel.OnSignal | backend/models/conversation-list-model.cpp:205-427 | after each store change and its signal, whatever rows were written without one before, the nodes show exactly the stored conversations where they are stored, the signal's own row as stored, links are consistent, and the total is the number stored |
| ConversationListModel.ConversationListModel.IndexUndoesParent | backend/models/conversation-list-model.cpp:86-116 | from any node's index, its parent's index and its row lead back to it |
| ConversationListModel.ConversationListModel.ParentUndoesIndex | backend/models/conversation-list-model.cpp:86-116 | the parent of a child's index is the index it was asked for under |
| ArtifactsModel.FileNameIs | backend/models/artifacts-model.cpp:322-322 | a file's name is what follows the last slash of its path |
| ArtifactsModel.ExtractFromMessage | backend/models/artifacts-model.cpp:308-368 | a message produces at most one row, and it carries the message's id |
| ArtifactsModel.ExtractedIs | backend/models/artifacts-model.cpp:308-368 | a message produces a row if and only if it is a tool result that names a path, an image filed into the workspace, or a submitted plan result; and then one, each field of it from the message's own fields |
| ArtifactsModel.ArtifactsModel.ListMessages | backend/models/artifacts-model.cpp:213-229 | the message rows are added one after the other, each file once, and the seen keys are theirs |
| ArtifactsModel.ArtifactsModel.ScanDirectory | backend/models/artifacts-model.cpp:270-296 | one directory is taken entry by entry until the file cap is met |
| ArtifactsModel.ArtifactsModel.ListWorkspace | backend/models/artifacts-model.cpp:235-302 | the walk adds the workspace's files behind the rows already listed |
| ArtifactsModel.ArtifactsModel.Reload | backend/models/artifacts-model.cpp:201-306 | a reload lists the messages' rows, then the workspace's other files |
| ArtifactsModel.ArtifactsModel.OnMessageAdded | backend/models/artifacts-model.cpp:118-160 | a message of another conversation or an unknown one changes nothing; otherwise its rows are added, each file once |
| ArtifactsModel.ArtifactsModel.OnMessageDeleted | backend/models/artifacts-model.cpp:162-174 | exactly the rows of the message go, the others stay in order |
| ArtifactsModel.MessagesKeepFirsts | backend/models/artifacts-model.cpp:213-229 | the message rows kept are the first of each key, in order, and every row without a key |
| ArtifactsModel.WalkKeeps | backend/models/artifacts-model.cpp:236-297 | within any walk at most 2000 files are added and 4000 directories visited, and rows listed before stay in front |
| ArtifactsModel.WalkIsComplete | backend/models/artifacts-model.cpp:262-297 | a walk that ends uncapped with nothing queued has listed every visible file reachable through directories it does not prune, cyclic links included |
| ArtifactsModel.WalkSourced | backend/models/artifacts-model.cpp:270-296 | every row the walk adds is a visible file of a directory it may come to |
| ArtifactsModel.ReloadListsOnce | backend/models/artifacts-model.cpp:201-306 | non-empty path keys are pairwise distinct after a reload, message rows come first and win, and the rest are at most the cap's number of workspace files |
| ArtifactsModel.ReloadIs | backend/models/artifacts-model.cpp:201-306 | what a reload lists, in order: the rows of the messages that produce one, one for one with those messages, of those with the same key the first; and then files of the workspace |
| ArtifactsModel.AddAllKeepsDistinct | backend/models/artifacts-model.cpp:129-155 | additions, live or at a reload, never list a file twice while keys stay as they are |
| ArtifactsModel.LiveAdditionIsReload | backend/models/artifacts-model.cpp:118-160 | without a workspace a live addition gives the rows a reload would |
| ArtifactsModel.ReloadListsIff | backend/models/artifacts-model.cpp:201-306 | with a workspace, a reload that meets no cap lists exactly the files its messages produced and the visible files of the workspace |
| ArtifactsModel.LiveAdditionListsSame | backend/models/artifacts-model.cpp:118-160 | with a workspace, a live addition lists exactly the files a reload would, as long as neither reload meets a cap |
| ArtifactsModel.SmallIsComplete | backend/models/artifacts-model.cpp:236-297 | a reload meets no cap when the walk has at most 4000 directories to visit and meets fewer than 2000 files the messages did not list |
| ArtifactsModel.CompleteIsSmall | backend/models/artifacts-model.cpp:236-297 | conversely, when it meets none the walk has at most 4000 directories to visit and meets at most 2000 such files |
| ArtifactsModel.DeleteUndoesAdd | backend/models/artifacts-model.cpp:162-174 | deleting a message right after it was added restores the rows |
| ArtifactsModel.DeleteKeepsDistinct | backend/models/artifacts-model.cpp:162-174 | a deletion keeps exactly the other messages' rows, each file still once |
| ArtifactsModel.DeletionKeeps | backend/models/artifacts-model.cpp:162-174 | a deletion leaves the rows of all other messages, in order |
| QStringArg.DigitsInjective | backend/models/db-manager.cpp:960-960 | different numbers have different decimal digits |
| QStringArg.ArgTellsApart | backend/models/db-manager.cpp:960-960 | filling any template that has a place marker with two different numbers gives two texts, whatever the locale's digits and separators, localized markers included |
| QStringArg.FirstArg | backend/models/db-manager.cpp:960-960 | "%1 %2" filled with any name is the name, a blank and the second marker |
| QStringArg.NumberedTellsApart | backend/models/db-manager.cpp:957-961 | different numbers make different aliases of any name, place markers in the name included: the search cannot repeat itself |
| QStringArg.NumberedIs | backend/models/db-manager.cpp:960-960 | for every name: the number goes to the name's own markers when the lowest of them is below 2, and the second marker stays behind the name; otherwise it goes behind the name, and to the name's markers numbered 2 |
| QStringArg.OrdinaryAliasIff | backend/models/db-manager.cpp:960-960 | a name is numbered by a blank and the number if every marker in it is numbered above 2, in every locale; and only if, unless the locale writes that number with a '%' |
| QStringArg.OrdinaryAlias | backend/models/db-manager.cpp:960-960 | so is every name without a '%' |
| QStringArg.MarkedAliases | backend/models/db-manager.cpp:960-960 | both sides happen: "a%1" is numbered "a2 %2", and "a%3" is numbered "a%3 2" |
| SchemaV4.FirstFreeIsFirst | backend/models/db-manager.cpp:957-961 | for any agent name in any locale the search finds the first number whose alias is free |
| SchemaV4.AliasIsFree | backend/models/db-manager.cpp:955-963 | the alias is the name if free, else the name with the first free number from 2 on, and it is not in use |
| SchemaV4.MemberTable.FindAlias | backend/models/db-manager.cpp:957-963 | the search always ends, and with that alias, for any name |
| SchemaV4.MemberTable.MigrateContainer | backend/models/db-manager.cpp:997-1033 | one member list is inserted row by row, ignoring keys already there |
| SchemaV4.MemberTable.Migrate | backend/models/db-manager.cpp:937-978 | all containers, one after the other |
| SchemaV4.OneRowPerEntry | backend/models/db-manager.cpp:997-1033 | one row per resolvable entry in order, under pairwise distinct aliases; the first alone is coordinator where one is elected |
| SchemaV4.RowsAreGiven | backend/models/db-manager.cpp:997-1033 | row by row: the rows of a list are one for one its entries that resolve to an agent, each with its own agent and container and, as alias, the agent's name or, when an earlier row has it, the name with the first number from 2 on that no earlier row has |
| SchemaV4.NothingIgnored | backend/models/db-manager.cpp:1019-1027 | a table without rows of the container ignores none of its rows |
| SchemaV4.EveryRowIsInserted | backend/models/db-manager.cpp:927-1035 | from an empty membership table no insert is ignored: the table is all containers' rows |
| SchemaV4.MigratedAre | backend/models/db-manager.cpp:927-1035 | from an empty table the migrated table is the rows of all containers, one list after the other, none left out |
| SchemaV4.OneCoordinatorPerGroup | backend/models/db-manager.cpp:997-1033 | every migrated group with a resolvable member has exactly one coordinator, and one without has none |
| SchemaV6.Messages.DeleteLegacy | backend/models/db-manager.cpp:1565-1584 | tool rows and empty call-announcing assistant rows without recorded calls go, and nothing else |
| SchemaV6.Messages.BackfillConversation | backend/models/db-manager.cpp:1617-1639 | the loop gives each selected row the id of its turn's opener |
| SchemaV6.Messages.Backfill | backend/models/db-manager.cpp:1602-1640 | all conversations, one after the other |
| SchemaV6.OpenerIsLatestUser | backend/models/db-manager.cpp:1621-1631 | the opener is the latest user message at or before the row, or the first row when there is none |
| SchemaV6.EveryMessageGetsItsTurn | backend/models/db-manager.cpp:1602-1640 | after the backfill of all conversations every selected message has its opener's id and is otherwise as it was |
| SchemaV6.OthersUntouched | backend/models/db-manager.cpp:1605-1609 | rows that already had a turn id are not touched |
| SchemaV6.TurnByTime | backend/models/db-manager.cpp:1605-1631 | the opener was made no later than the row and no user message lies strictly between them in time |
| SchemaV6.NothingLeft | backend/models/db-manager.cpp:1602-1640 | no message of the conversations is left without a turn id |
| SchemaV6.NothingElseChanges | backend/models/db-manager.cpp:1565-1640 | the migration removes exactly the tool rows and the assistant rows with nothing or only spaces in them that finished for tool calls of which none is recorded, and changes at most the turn id of the others |

## Left out

- Application wiring, QML, HTTP transport and line splitting, model lists, probes, prompts and request fields other than the message arrays: composition, or settled by one reading.
- Transport errors: each is passed on as one more terminal signal and is not part of the terminal-signal counts, which are about streams that reach their end.
- The inline-thinking hoister: providers are modelled behind it, on what it leaves.
- JSON parsing and printing, Unicode trimming and the recognition of tool-call bodies: functions given as parameters.
- Token counts and context-window tables. The providers' `ToolCall` signals carry the API name; `ToolNames` says which tool it stands for.
- `toToolUseBlock` and its Gemini counterpart: a stored call is given by the id, name and input they read out.
- ChatML prompt assembly and chat-template wrapping: plain concatenation.
- OllamaProvider.ResponseIsOnePass: a done line that itself carries text or tool calls is treated as the code treats it, which reads neither; the whole content is that of the delta lines.
- The order of text relative to tool calls inside one Ollama delta: it depends on the cuts, so text and calls are stated separately.
- Sidecar.Process.WriteFrame: why a write fails (a broken pipe, a frame over the cap) is not told apart; after a failed write nothing is claimed about the exchange.
- Sidecar.Process.GenerateStream: the context guard reserves 16 positions only and the token cap can be larger, so no bound on the positions of a stream is stated, just that they are contiguous.
- Sidecar.Process.ReplyTo: what status, load and embed replies carry beyond id, slot and count (models, dimensions, vectors) and the texts of errors are not modelled.
- RagpSlot.RagpSlot.Load: GPU selection, thread counts and error texts are not modelled.
- Qt model notifications and the row captured once while a folder is emptied: claims are about nodes and children lists.
- ConversationTree.RunAgrees: a folder deletion that fails half-way, its conversations moved and the folder kept, is not modelled; nor are nested folders.
- ConversationListModel.ConversationListModel.BuildTree: the order the service lists rows in is an assumption of the initial load.
- Deferred reloads of the artifacts list, its roles and its use of the live file system: the walk sees one fixed snapshot.
- ArtifactsModel.AddAllKeepsDistinct: a change of the workspace directory changes the keys; until the reload that follows, distinctness under the new keys is not claimed.
- SchemaV4 and SchemaV6: DDL, indexes, time stamps of rows and failing statements; the two near-identical v4 loops are one method with a flag.
- SchemaV6.Messages.Backfill: the order of rows created at the same time is any; ids are taken to be non-empty, as the schema's are.
- LlamaCppProvider.LlamaCppProvider.SendRequest: attaching the host twice, which connects its signals twice, is covered only as events delivered twice.
- The other migrations, the canvas console and the remaining providers and tables: they would add easy members.
