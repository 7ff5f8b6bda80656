/**
  The Gemini provider (backend/api/gemini-provider.cpp): the contents array of a request, the
  remembered thought signatures, and the finish of a streamed response.

  The ids made up for streamed calls are an input: `callId` of a function-call part. Call
  arguments are the text of a JSON object. Token counts are not modelled.
 */
module GeminiProvider {
  import opened BoundedCache
  import opened Common
  import opened Gathering
  import opened LlmMessages
  import opened ToolNames

  const MAX_SIGNATURES := 256
  const SKIP_SIGNATURE := "skip_thought_signature_validator"

  // ------------------------------------------------------------------ the contents array

  datatype FunctionResponse = FunctionResponse(name: string, content: string)

  datatype Piece =
    | TextPiece(text: string)
    | InlineData(mimeType: string, base64: string)
    | FunctionCall(name: string, args: string, thoughtSignature: string)

  type ApiTurn = Turn<FunctionResponse, Piece>

  function Value(m: map<string, string>, key: string, otherwise: string): string {
    if key in m then m[key] else otherwise
  }

  /** The stored calls of a history, one list. */
  function AllCalls(history: seq<Message>): seq<StoredCall> {
    if history == [] then [] else AllCalls(history[..|history| - 1]) + history[|history| - 1].toolCalls
  }

  function NamesOf(calls: seq<StoredCall>): map<string, string> {
    if calls == [] then map[] else
    NamesOf(calls[..|calls| - 1])[calls[|calls| - 1].id := calls[|calls| - 1].name]
  }

  lemma NamesSnoc(calls: seq<StoredCall>, last: StoredCall)
    ensures NamesOf(calls + [last]) == NamesOf(calls)[last.id := last.name]
  {
    assert (calls + [last])[..|calls|] == calls;
  }

  method AddNames(toolNames: map<string, string>, calls: seq<StoredCall>, ghost before: seq<StoredCall>)
    returns (names: map<string, string>)
    requires toolNames == NamesOf(before)
    ensures names == NamesOf(before + calls)
  {
    hide NamesOf;
    names := toolNames;
    assert before + calls[..0] == before;
    for i := 0 to |calls|
      invariant names == NamesOf(before + calls[..i])
    {
      NamesSnoc(before + calls[..i], calls[i]);
      assert before + calls[..i + 1] == before + calls[..i] + [calls[i]];
      names := names[calls[i].id := calls[i].name];
    }
    assert calls[..|calls|] == calls;
  }

  method CollectNames(history: seq<Message>) returns (toolNames: map<string, string>)
    ensures toolNames == NamesOf(AllCalls(history))
  {
    toolNames := map[];
    assert AllCalls(history[..0]) == [];
    hide NamesOf;
    for i := 0 to |history|
      invariant toolNames == NamesOf(AllCalls(history[..i]))
    {
      assert history[..i + 1][..i] == history[..i];
      toolNames := AddNames(toolNames, history[i].toolCalls, AllCalls(history[..i]));
    }
    assert history[..|history|] == history;
  }

  /** A result is labelled with the function its call named: the last call of the history
      with that id. An id no call carries is its own label. */
  lemma {:induction false} LabelIsLastName(calls: seq<StoredCall>, id: string)
    ensures id in NamesOf(calls) <==> exists i | 0 <= i < |calls| :: calls[i].id == id
    ensures forall i | 0 <= i < |calls| && calls[i].id == id && (forall j | i < j < |calls| :: calls[j].id != id) ::
              NamesOf(calls)[id] == calls[i].name
  {
    if calls != [] {
      var init, last := calls[..|calls| - 1], calls[|calls| - 1];
      LabelIsLastName(init, id);
      if last.id == id {
        assert calls[|calls| - 1].id == id;
      } else {
        assert forall i | 0 <= i < |init| :: init[i] == calls[i];
        assert forall i | 0 <= i < |calls| && calls[i].id == id :: i < |init|;
      }
    }
  }

  function ToGeminiRole(role: string): string {
    if role == "assistant" then "model" else "user"
  }

  function ResponseOf(names: map<string, string>, msg: Message): FunctionResponse {
    FunctionResponse(ApiToolName(GEMINI, Value(names, msg.toolCallId, msg.toolCallId)), msg.content)
  }

  function SignatureFor(signatures: map<string, string>, id: string): string {
    if Value(signatures, id, "") == "" then SKIP_SIGNATURE else signatures[id]
  }

  function CallPiece(signatures: map<string, string>, call: StoredCall): Piece {
    FunctionCall(ApiToolName(GEMINI, call.name), call.input, SignatureFor(signatures, call.id))
  }

  function ImagePieces(images: seq<Attachment>): seq<Piece> {
    seq(|images|, i requires 0 <= i < |images| => InlineData(images[i].mimeType, images[i].base64))
  }

  function TextPieces(content: string): seq<Piece> {
    if content == "" then [] else [TextPiece(content)]
  }

  function CallPieces(signatures: map<string, string>, calls: seq<StoredCall>): seq<Piece> {
    seq(|calls|, i requires 0 <= i < |calls| => CallPiece(signatures, calls[i]))
  }

  function PiecesOf(signatures: map<string, string>, msg: Message): seq<Piece> {
    ImagePieces(msg.images) + TextPieces(msg.content) + CallPieces(signatures, msg.toolCalls)
  }

  /** What one message of the history contributes; a message without any piece, nothing. */
  function EntryOf(names: map<string, string>, signatures: map<string, string>, msg: Message):
    Entry<FunctionResponse, Piece>
  {
    if IsToolResult(msg) then Answer(ResponseOf(names, msg))
    else if PiecesOf(signatures, msg) == [] then Nothing
    else SaidParts(if msg.role == "system" then "user" else ToGeminiRole(msg.role), PiecesOf(signatures, msg))
  }

  function Entries(names: map<string, string>, signatures: map<string, string>, history: seq<Message>):
    seq<Entry<FunctionResponse, Piece>>
  {
    seq(|history|, i requires 0 <= i < |history| => EntryOf(names, signatures, history[i]))
  }

  function Contents(signatures: map<string, string>, history: seq<Message>): seq<ApiTurn> {
    Gather(Entries(NamesOf(AllCalls(history)), signatures, history))
  }

  method AddCalls(signatures: map<string, string>, calls: seq<StoredCall>, before: seq<Piece>)
    returns (parts: seq<Piece>)
    ensures parts == before + CallPieces(signatures, calls)
  {
    parts := before;
    for i := 0 to |calls|
      invariant parts == before + CallPieces(signatures, calls)[..i]
    {
      var sig := Value(signatures, calls[i].id, "");
      parts := parts
        + [FunctionCall(ApiToolName(GEMINI, calls[i].name), calls[i].input, if sig == "" then SKIP_SIGNATURE else sig)];
    }
    assert CallPieces(signatures, calls)[..|calls|] == CallPieces(signatures, calls);
  }

  method BuildPieces(signatures: map<string, string>, msg: Message) returns (parts: seq<Piece>)
    ensures parts == PiecesOf(signatures, msg)
  {
    hide CallPieces;
    parts := [];
    for i := 0 to |msg.images|
      invariant parts == ImagePieces(msg.images)[..i]
    {
      parts := parts + [InlineData(msg.images[i].mimeType, msg.images[i].base64)];
    }
    assert ImagePieces(msg.images)[..|msg.images|] == ImagePieces(msg.images);
    assert parts + [] == parts;
    if msg.content != "" {
      parts := parts + [TextPiece(msg.content)];
    }
    parts := AddCalls(signatures, msg.toolCalls, parts);
  }

  method BuildContents(signatures: map<string, string>, history: seq<Message>) returns (contents: seq<ApiTurn>)
    ensures contents == Contents(signatures, history)
  {
    hide PiecesOf, AppendResult, NamesOf, AllCalls, ResponseOf;
    var toolNames := CollectNames(history);
    contents := [];
    ghost var entries := Entries(toolNames, signatures, history);
    for i := 0 to |history|
      invariant contents == Gather(entries[..i])
    {
      assert entries[..i + 1][..i] == entries[..i];
      var msg := history[i];
      if msg.role == "tool" && msg.toolCallId != "" {
        contents := AppendResult(contents, ResponseOf(toolNames, msg));
        continue;
      }
      var parts := BuildPieces(signatures, msg);
      if parts == [] {
        assert contents + [] == contents;
        continue;
      }
      var role := if msg.role == "system" then "user" else ToGeminiRole(msg.role);
      contents := contents + [Turn(role, Parts(Others(parts)))];
    }
    assert entries[..|history|] == entries;
  }

  /** A turn the API takes: user or model, with at least one part. */
  predicate IsApiTurn(t: ApiTurn) {
    (t.role == "user" || t.role == "model") && t.content.Parts? && t.content.parts != []
  }

  predicate AllApiTurns(turns: seq<ApiTurn>) {
    forall i | 0 <= i < |turns| :: IsApiTurn(turns[i])
  }

  predicate SaysSomething(entries: seq<Entry<FunctionResponse, Piece>>) {
    forall i | 0 <= i < |entries| ::
      match entries[i]
      case SaidText(_, _) => false
      case SaidParts(role, parts) => parts != [] && (role == "user" || role == "model")
      case _ => true
  }

  lemma {:induction false} GatherApiTurns(entries: seq<Entry<FunctionResponse, Piece>>)
    requires SaysSomething(entries)
    ensures AllApiTurns(Gather(entries))
  {
    if entries != [] {
      hide TakesResults;
      GatherApiTurns(entries[..|entries| - 1]);
    }
  }

  /** The tool messages that name their call, in order and labelled. */
  function Identified(names: map<string, string>, history: seq<Message>): seq<FunctionResponse> {
    if history == [] then [] else
    Identified(names, history[..|history| - 1])
    + if IsToolResult(history[|history| - 1]) then [ResponseOf(names, history[|history| - 1])] else []
  }

  lemma {:induction false} AnswersAreIdentified(names: map<string, string>, signatures: map<string, string>,
                                                history: seq<Message>)
    ensures Answers(Entries(names, signatures, history)) == Identified(names, history)
  {
    if history != [] {
      hide ResponseOf, PiecesOf;
      var init, entries := history[..|history| - 1], Entries(names, signatures, history);
      AnswersAreIdentified(names, signatures, init);
      assert entries[..|entries| - 1] == Entries(names, signatures, init);
      assert entries[|entries| - 1] == EntryOf(names, signatures, history[|history| - 1]);
    }
  }

  /** For any history the contents are turns the API takes, no two neighbours both hold
      function responses, and the responses read off in order are the identified tool
      messages. */
  lemma ContentsAreAccepted(signatures: map<string, string>, history: seq<Message>)
    ensures var out := Contents(signatures, history);
            && AllApiTurns(out) && AllUniform(out) && Gathered(out)
            && FlattenedResults(out) == Identified(NamesOf(AllCalls(history)), history)
  {
    hide Gather, AllUniform, Gathered, AllApiTurns, PiecesOf, ResponseOf, NamesOf, AllCalls, FlattenedResults;
    var names := NamesOf(AllCalls(history));
    var entries := Entries(names, signatures, history);
    assert SaysSomething(entries);
    GatherApiTurns(entries);
    GatherGathers(entries);
    ResultsInOrder(entries);
    AnswersAreIdentified(names, signatures, history);
  }

  // ------------------------------------------------------------------ every turn, message by message

  /** The messages that go into a request: identified tool results, and those with an image,
      text or a call. */
  function Counted(history: seq<Message>): seq<bool> {
    seq(|history|, i requires 0 <= i < |history| =>
      || IsToolResult(history[i])
      || history[i].images != [] || history[i].content != "" || history[i].toolCalls != [])
  }

  function CallsOf(history: seq<Message>): seq<seq<StoredCall>> {
    seq(|history|, i requires 0 <= i < |history| => history[i].toolCalls)
  }

  lemma {:induction false} AllCallsAre(history: seq<Message>)
    ensures AllCalls(history) == Flatten(CallsOf(history))
  {
    if history != [] {
      var init, last := history[..|history| - 1], history[|history| - 1];
      AllCallsAre(init);
      assert CallsOf(history) == CallsOf(init) + [last.toolCalls];
      hide CallsOf, Flatten;
      FlattenAppend(CallsOf(init), [last.toolCalls]);
      FlattenOne(last.toolCalls);
    }
  }

  /** The last call with an id. */
  ghost predicate IsLastOf(calls: seq<StoredCall>, id: string, i: nat) {
    i < |calls| && calls[i].id == id && forall j | i < j < |calls| :: calls[j].id != id
  }

  /** What a result is labelled with: the name in the last call with its id, or the id when no
      call carries it. */
  ghost predicate IsLabel(calls: seq<StoredCall>, id: string, name: string) {
    || (exists i: nat :: IsLastOf(calls, id, i) && calls[i].name == name)
    || ((forall i | 0 <= i < |calls| :: calls[i].id != id) && name == id)
  }

  /** A piece replays a stored call: its API name, its input, and the signature kept under its
      id, or else the value that skips the check. */
  predicate Replays(signatures: map<string, string>, call: StoredCall, p: Piece) {
    && p.FunctionCall? && p.name == ApiToolName(GEMINI, call.name) && p.args == call.input
    && p.thoughtSignature == if call.id in signatures && signatures[call.id] != "" then signatures[call.id]
                             else SKIP_SIGNATURE
  }

  predicate AreReplays(signatures: map<string, string>, calls: seq<StoredCall>, pieces: seq<Piece>) {
    |pieces| == |calls| && forall i | 0 <= i < |calls| :: Replays(signatures, calls[i], pieces[i])
  }

  predicate AreImages(images: seq<Attachment>, pieces: seq<Piece>) {
    && |pieces| == |images|
    && forall i | 0 <= i < |images| :: pieces[i] == InlineData(images[i].mimeType, images[i].base64)
  }

  predicate ArePieces(t: ApiTurn, pieces: seq<Piece>) {
    && t.content.Parts? && |t.content.parts| == |pieces|
    && forall i | 0 <= i < |pieces| :: t.content.parts[i] == Other(pieces[i])
  }

  /** The turn says the message in full: its images in order, then its text, then its calls. */
  ghost predicate InFull(signatures: map<string, string>, msg: Message, t: ApiTurn) {
    exists images, calls ::
      && AreImages(msg.images, images) && AreReplays(signatures, msg.toolCalls, calls)
      && ArePieces(t, images + (if msg.content == "" then [] else [TextPiece(msg.content)]) + calls)
  }

  /** The turn of one message, taken by itself, from the message's own fields. */
  ghost predicate IsTurnOf(signatures: map<string, string>, calls: seq<StoredCall>, msg: Message, t: ApiTurn) {
    if IsToolResult(msg) then
      && t.role == "user" && t.content.Parts? && |t.content.parts| == 1 && t.content.parts[0].Result?
      && t.content.parts[0].result.content == msg.content
      && exists name :: IsLabel(calls, msg.toolCallId, name)
                        && t.content.parts[0].result.name == ApiToolName(GEMINI, name)
    else
      && t.role == (if msg.role == "assistant" then "model" else "user")
      && InFull(signatures, msg, t)
  }

  lemma LabelIs(calls: seq<StoredCall>, id: string)
    ensures IsLabel(calls, id, Value(NamesOf(calls), id, id))
  {
    LabelIsLastName(calls, id);
    if exists i | 0 <= i < |calls| :: calls[i].id == id {
      var i := LastOf(calls, id);
      assert IsLastOf(calls, id, i);
    }
  }

  lemma {:induction false} LastOf(calls: seq<StoredCall>, id: string) returns (i: nat)
    requires exists i | 0 <= i < |calls| :: calls[i].id == id
    ensures IsLastOf(calls, id, i)
  {
    i := |calls| - 1;
    if calls[i].id != id {
      var init := calls[..i];
      var k :| 0 <= k < |calls| && calls[k].id == id;
      assert init[k].id == id;
      i := LastOf(init, id);
      assert calls[i] == init[i] && forall j | i < j < |init| :: calls[j] == init[j];
    }
  }

  lemma PiecesInFull(signatures: map<string, string>, msg: Message, role: string)
    ensures InFull(signatures, msg, Turn(role, Parts(Others(PiecesOf(signatures, msg)))))
  {
    var images, calls := ImagePieces(msg.images), CallPieces(signatures, msg.toolCalls);
    assert AreImages(msg.images, images);
    assert AreReplays(signatures, msg.toolCalls, calls) by {
      hide ApiToolName;
    }
    hide AreImages, AreReplays, ImagePieces, CallPieces;
  }

  lemma EntryIsTurn(signatures: map<string, string>, calls: seq<StoredCall>, msg: Message)
    ensures var alone := Alone(EntryOf(NamesOf(calls), signatures, msg));
            if Counted([msg])[0] then |alone| == 1 && IsTurnOf(signatures, calls, msg, alone[0]) else alone == []
  {
    hide NamesOf, IsLabel, ApiToolName;
    if IsToolResult(msg) {
      LabelIs(calls, msg.toolCallId);
    } else {
      var role := if msg.role == "assistant" then "model" else "user";
      PiecesInFull(signatures, msg, role);
      hide InFull;
      assert PiecesOf(signatures, msg) == [] <==> !Counted([msg])[0];
      hide PiecesOf;
    }
  }

  /** Turns that are one for one the messages at the places `at`. */
  ghost predicate AreTurns(signatures: map<string, string>, calls: seq<StoredCall>, history: seq<Message>,
                           at: seq<nat>, apart: seq<ApiTurn>)
  {
    && |apart| == |at|
    && forall j | 0 <= j < |at| :: at[j] < |history| && IsTurnOf(signatures, calls, history[at[j]], apart[j])
  }

  lemma TurnsSnoc(signatures: map<string, string>, calls: seq<StoredCall>, init: seq<Message>, last: Message,
                  at: seq<nat>, alone: seq<ApiTurn>, mark: bool, more: seq<ApiTurn>)
    requires AreTurns(signatures, calls, init, at, alone)
    requires if mark then |more| == 1 && IsTurnOf(signatures, calls, last, more[0]) else more == []
    ensures AreTurns(signatures, calls, init + [last], if mark then at + [|init|] else at, alone + more)
  {
    hide IsTurnOf;
    var history, all, turns := init + [last], if mark then at + [|init|] else at, alone + more;
    forall j | 0 <= j < |all|
      ensures all[j] < |history| && IsTurnOf(signatures, calls, history[all[j]], turns[j])
    {
      if j < |at| {
        assert all[j] == at[j] && history[at[j]] == init[at[j]] && turns[j] == alone[j];
      } else {
        assert all[j] == |init| && history[|init|] == last && turns[j] == more[0];
      }
    }
  }

  lemma EntriesSnoc(names: map<string, string>, signatures: map<string, string>, init: seq<Message>, last: Message)
    ensures |Counted([last])| == 1 && |Counted(init)| == |init|
    ensures Counted(init + [last]) == Counted(init) + [Counted([last])[0]]
    ensures AloneAll(Entries(names, signatures, init + [last]))
            == AloneAll(Entries(names, signatures, init)) + Alone(EntryOf(names, signatures, last))
  {
    hide EntryOf, Alone;
    var entries := Entries(names, signatures, init + [last]);
    assert entries[..|entries| - 1] == Entries(names, signatures, init);
  }

  lemma AloneSnoc(signatures: map<string, string>, calls: seq<StoredCall>, init: seq<Message>, last: Message)
    requires AreTurns(signatures, calls, init, Places(Counted(init)),
                      AloneAll(Entries(NamesOf(calls), signatures, init)))
    ensures AreTurns(signatures, calls, init + [last], Places(Counted(init + [last])),
                     AloneAll(Entries(NamesOf(calls), signatures, init + [last])))
  {
    hide *;
    EntryIsTurn(signatures, calls, last);
    EntriesSnoc(NamesOf(calls), signatures, init, last);
    PlacesSnoc(Counted(init), Counted([last])[0]);
    TurnsSnoc(signatures, calls, init, last, Places(Counted(init)),
              AloneAll(Entries(NamesOf(calls), signatures, init)), Counted([last])[0],
              Alone(EntryOf(NamesOf(calls), signatures, last)));
  }

  lemma {:induction false} AloneOneForOne(signatures: map<string, string>, calls: seq<StoredCall>,
                                          history: seq<Message>)
    ensures AreTurns(signatures, calls, history, Places(Counted(history)),
                     AloneAll(Entries(NamesOf(calls), signatures, history)))
  {
    if history != [] {
      hide *;
      var init, last := history[..|history| - 1], history[|history| - 1];
      AloneOneForOne(signatures, calls, init);
      AloneSnoc(signatures, calls, init, last);
      assert history == init + [last];
    } else {
      hide IsTurnOf, EntryOf, NamesOf;
      assert Places(Counted(history)) == [] && AloneAll(Entries(NamesOf(calls), signatures, history)) == [];
    }
  }

  /** The request says what the conversation says: its turns, with results taken apart, are one
      for one and in order the messages that count, each with its own content; a result is
      labelled from the calls of the whole history. */
  lemma TurnsAreMessages(signatures: map<string, string>, history: seq<Message>)
    ensures AreTurns(signatures, Flatten(CallsOf(history)), history, Places(Counted(history)),
                     TakenApart(Contents(signatures, history)))
  {
    hide Gather, Entries, IsTurnOf, AreTurns, Counted, Places, TakenApart, AllUniform, Gathered, NamesOf, AllCalls;
    AllCallsAre(history);
    AloneOneForOne(signatures, AllCalls(history), history);
    GatherGathers(Entries(NamesOf(AllCalls(history)), signatures, history));
  }

  // ------------------------------------------------------------------ the stream

  datatype CandidatePart = CandidatePart(thought: bool, text: string, call: Option<Call>)

  /** A function call as it was sent, with the id made up for it. */
  datatype Call = Call(callId: string, name: string, args: string, thoughtSignature: string)

  /** One payload of the stream, by what the parser does with it. */
  datatype Payload =
    | Ignored                                    // empty, unparsable, or neither of the below
    | Blocked(reason: string)                    // no candidates, and a block reason
    | Candidate(parts: seq<CandidatePart>, finishReason: string, lowered: string)

  datatype Signal =
    | TextChunk(text: string)
    | ThinkingChunk(text: string)
    | ToolCall(call: Call)
    | FinalChunk(reason: string)
    | Finished(reason: string)
    | Failed(message: string)

  predicate Finishes(reason: string) {
    reason != "" && reason != "FINISH_REASON_UNSPECIFIED"
  }

  /** The app's name of a finish reason; one without a name of its own is passed on in lower
      case. */
  function MapFinish(sawCall: bool, reason: string, lowered: string): string {
    if reason == "STOP" then (if sawCall then "tool_calls" else "stop")
    else if reason == "MAX_TOKENS" then "length"
    else if reason == "SAFETY" || reason == "RECITATION" then "content_filter"
    else lowered
  }

  datatype State = State(signatures: Cache<string>, sawCall: bool, finished: bool)

  datatype Step = Step(state: State, signals: seq<Signal>)

  class GeminiProvider {
    var thoughtSignatures: map<string, string>
    var thoughtSignatureOrder: seq<string>
    var sawFunctionCall: bool
    var finishedEmitted: bool
    var signals: seq<Signal>

    constructor ()
      ensures Now() == State(Cache(map[], []), false, false) && signals == []
    {
      thoughtSignatures, thoughtSignatureOrder, signals := map[], [], [];
      sawFunctionCall, finishedEmitted := false, false;
    }

    function CacheNow(): Cache<string>
      reads this`thoughtSignatures, this`thoughtSignatureOrder
    {
      Cache(thoughtSignatures, thoughtSignatureOrder)
    }

    function Now(): State
      reads this
    {
      State(CacheNow(), sawFunctionCall, finishedEmitted)
    }

    method Emit(s: Signal)
      modifies this`signals
      ensures signals == old(signals) + [s]
    {
      signals := signals + [s];
    }

    method SendRequest(apiKey: string)
      modifies this`sawFunctionCall, this`finishedEmitted, this`signals
      ensures Now() == if apiKey == "" then old(Now()) else Reset(old(Now()))
      ensures signals == old(signals) + if apiKey == "" then [Failed("Google Gemini API key not configured")] else []
    {
      if apiKey == "" {
        Emit(Failed("Google Gemini API key not configured"));
        return;
      }
      finishedEmitted, sawFunctionCall := false, false;
      assert signals + [] == signals;
    }

    /** The signature of a call is kept under its id; the oldest leave. */
    method RememberSignature(callId: string, sig: string)
      modifies this`thoughtSignatures, this`thoughtSignatureOrder
      ensures CacheNow() == Put(MAX_SIGNATURES, old(CacheNow()), Stored(callId, sig))
    {
      if callId !in thoughtSignatures {
        thoughtSignatureOrder := thoughtSignatureOrder + [callId];
      }
      thoughtSignatures := thoughtSignatures[callId := sig];
      while |thoughtSignatureOrder| > MAX_SIGNATURES
        invariant Evict(MAX_SIGNATURES, CacheNow()) == Put(MAX_SIGNATURES, old(CacheNow()), Stored(callId, sig))
      {
        thoughtSignatures := thoughtSignatures - {thoughtSignatureOrder[0]};
        thoughtSignatureOrder := thoughtSignatureOrder[1..];
      }
    }

    method OnPart(part: CandidatePart)
      modifies this
      ensures Step(Now(), signals) == Emitted(old(signals), OfPart(old(Now()), part))
    {
      hide Put;
      assert signals + [] == signals;
      if part.thought {
        if part.text != "" {
          Emit(ThinkingChunk(part.text));
        }
        return;
      }
      if part.text != "" {
        Emit(TextChunk(part.text));
      }
      if part.call.Some? {
        var call := part.call.value;
        if call.thoughtSignature != "" {
          RememberSignature(call.callId, call.thoughtSignature);
        }
        sawFunctionCall := true;
        Emit(ToolCall(call));
        ConcatAssoc(old(signals), TextOf(part.text), [ToolCall(call)]);
      }
    }

    method ParseStreamChunk(payload: Payload)
      modifies this
      ensures Step(Now(), signals) == Emitted(old(signals), OnPayload(old(Now()), payload))
      ensures payload.Blocked? ==> signals == old(signals) + [Failed("Content blocked: " + payload.reason)]
    {
      hide OfPart, MapFinish;
      match payload {
        case Ignored => assert signals + [] == signals;
        case Blocked(reason) => Emit(Failed("Content blocked: " + reason));
        case Candidate(parts, finishReason, lowered) =>
          assert signals + [] == signals;
          for i := 0 to |parts|
            invariant Step(Now(), signals) == Emitted(old(signals), OfParts(old(Now()), parts[..i]))
          {
            assert parts[..i + 1][..i] == parts[..i];
            ghost var before := OfParts(old(Now()), parts[..i]);
            ConcatAssoc(old(signals), before.signals, OfPart(before.state, parts[i]).signals);
            OnPart(parts[i]);
          }
          assert parts[..|parts|] == parts;
          ghost var before := OfParts(old(Now()), parts);
          if finishReason != "" && finishReason != "FINISH_REASON_UNSPECIFIED" {
            var mappedReason := MapFinish(sawFunctionCall, finishReason, lowered);
            Emit(FinalChunk(mappedReason));
            Emit(Finished(mappedReason));
            finishedEmitted := true;
            assert (old(signals) + before.signals) + [FinalChunk(mappedReason)] + [Finished(mappedReason)]
                   == old(signals) + (before.signals + [FinalChunk(mappedReason), Finished(mappedReason)]);
          } else {
            assert before.signals + [] == before.signals;
          }
      }
    }

    /** The end of the stream: a synthetic stop when no finish reason came. */
    method OnStreamFinished()
      modifies this`finishedEmitted, this`signals
      ensures finishedEmitted && signals == old(signals) + AtEnd(old(Now()))
      ensures old(finishedEmitted) ==> signals == old(signals)
    {
      if !finishedEmitted {
        Emit(Finished("stop"));
        finishedEmitted := true;
      } else {
        assert signals + [] == signals;
      }
    }
  }

  // ------------------------------------------------------------------ the parser's steps

  function Reset(st: State): State {
    State(st.signatures, false, false)
  }

  function Emitted(before: seq<Signal>, step: Step): Step {
    step.(signals := before + step.signals)
  }

  function TextOf(text: string): seq<Signal> {
    if text != "" then [TextChunk(text)] else []
  }

  function OfPart(st: State, part: CandidatePart): Step {
    if part.thought then Step(st, if part.text != "" then [ThinkingChunk(part.text)] else [])
    else
      match part.call
      case None => Step(st, TextOf(part.text))
      case Some(call) =>
        Step(st.(sawCall := true,
                 signatures := if call.thoughtSignature == "" then st.signatures
                               else Put(MAX_SIGNATURES, st.signatures, Stored(call.callId, call.thoughtSignature))),
             TextOf(part.text) + [ToolCall(call)])
  }

  function OfParts(st: State, parts: seq<CandidatePart>): Step {
    if parts == [] then Step(st, []) else
    var before := OfParts(st, parts[..|parts| - 1]);
    Emitted(before.signals, OfPart(before.state, parts[|parts| - 1]))
  }

  function OnPayload(st: State, payload: Payload): Step {
    match payload
    case Ignored => Step(st, [])
    case Blocked(reason) => Step(st, [Failed("Content blocked: " + reason)])
    case Candidate(parts, finishReason, lowered) =>
      var before := OfParts(st, parts);
      if Finishes(finishReason) then
        var reason := MapFinish(before.state.sawCall, finishReason, lowered);
        Step(before.state.(finished := true), before.signals + [FinalChunk(reason), Finished(reason)])
      else before
  }

  function AtEnd(st: State): seq<Signal> {
    if st.finished then [] else [Finished("stop")]
  }

  function OnPayloads(st: State, payloads: seq<Payload>): Step {
    if payloads == [] then Step(st, []) else
    var before := OnPayloads(st, payloads[..|payloads| - 1]);
    Emitted(before.signals, OnPayload(before.state, payloads[|payloads| - 1]))
  }

  /** Everything a request signals, from its start to the end of its stream. */
  function Response(st: State, payloads: seq<Payload>): seq<Signal> {
    var step := OnPayloads(Reset(st), payloads);
    step.signals + AtEnd(step.state)
  }

  // ------------------------------------------------------------------ what a response signals

  function Terminals(signals: seq<Signal>): nat {
    if signals == [] then 0 else
    Terminals(signals[..|signals| - 1])
    + if signals[|signals| - 1].Finished? || signals[|signals| - 1].Failed? then 1 else 0
  }

  function Calls(signals: seq<Signal>): seq<Call> {
    if signals == [] then [] else
    Calls(signals[..|signals| - 1])
    + if signals[|signals| - 1].ToolCall? then [signals[|signals| - 1].call] else []
  }

  lemma {:induction false} Append(a: seq<Signal>, b: seq<Signal>)
    ensures Terminals(a + b) == Terminals(a) + Terminals(b) && Calls(a + b) == Calls(a) + Calls(b)
  {
    if b == [] {
      assert a + b == a;
    } else {
      Append(a, b[..|b| - 1]);
      assert (a + b)[..|a + b| - 1] == a + b[..|b| - 1];
    }
  }

  lemma OneSignal(s: Signal)
    ensures Terminals([s]) == if s.Finished? || s.Failed? then 1 else 0
    ensures Calls([s]) == if s.ToolCall? then [s.call] else []
  {
    assert [s][..0] == [];
  }

  lemma NoSignals()
    ensures Terminals([]) == 0 && Calls([]) == []
  {}

  /** The function calls of a response, thoughts left out. */
  function SentCalls(parts: seq<CandidatePart>): seq<Call> {
    if parts == [] then [] else
    SentCalls(parts[..|parts| - 1])
    + if !parts[|parts| - 1].thought && parts[|parts| - 1].call.Some? then [parts[|parts| - 1].call.value] else []
  }

  function AllParts(payloads: seq<Payload>): seq<CandidatePart> {
    if payloads == [] then [] else
    AllParts(payloads[..|payloads| - 1])
    + if payloads[|payloads| - 1].Candidate? then payloads[|payloads| - 1].parts else []
  }

  predicate Ends(payload: Payload) {
    payload.Candidate? && Finishes(payload.finishReason)
  }

  function Finishings(payloads: seq<Payload>): nat {
    if payloads == [] then 0 else
    Finishings(payloads[..|payloads| - 1]) + if Ends(payloads[|payloads| - 1]) then 1 else 0
  }

  function Blockings(payloads: seq<Payload>): nat {
    if payloads == [] then 0 else
    Blockings(payloads[..|payloads| - 1]) + if payloads[|payloads| - 1].Blocked? then 1 else 0
  }

  lemma {:induction false} SentCallsAppend(a: seq<CandidatePart>, b: seq<CandidatePart>)
    ensures SentCalls(a + b) == SentCalls(a) + SentCalls(b)
  {
    if b == [] {
      assert a + b == a;
    } else {
      var init, last := b[..|b| - 1], b[|b| - 1];
      SentCallsAppend(a, init);
      assert (a + b)[..|a + b| - 1] == a + init;
      ConcatAssoc(SentCalls(a), SentCalls(init), if !last.thought && last.call.Some? then [last.call.value] else []);
    }
  }

  function Signed(calls: seq<Call>): seq<Stored<string>> {
    if calls == [] then [] else
    var last := calls[|calls| - 1];
    Signed(calls[..|calls| - 1])
    + if last.thoughtSignature != "" then [Stored(last.callId, last.thoughtSignature)] else []
  }

  lemma {:induction false} SignedAppend(a: seq<Call>, b: seq<Call>)
    ensures Signed(a + b) == Signed(a) + Signed(b)
  {
    if b == [] {
      assert a + b == a;
    } else {
      var init, last := b[..|b| - 1], b[|b| - 1];
      SignedAppend(a, init);
      assert (a + b)[..|a + b| - 1] == a + init;
      ConcatAssoc(Signed(a), Signed(init),
                  if last.thoughtSignature != "" then [Stored(last.callId, last.thoughtSignature)] else []);
    }
  }

  lemma SignedOne(call: Call)
    ensures Signed([call]) == if call.thoughtSignature != "" then [Stored(call.callId, call.thoughtSignature)] else []
  {
    assert [call][..0] == [];
  }

  lemma PutOne(c: Cache<string>, s: Stored<string>)
    ensures PutAll(MAX_SIGNATURES, c, [s]) == Put(MAX_SIGNATURES, c, s)
  {
    assert [s][..0] == [];
  }

  lemma OnePart(part: CandidatePart)
    ensures SentCalls([part]) == if !part.thought && part.call.Some? then [part.call.value] else []
  {
    assert [part][..0] == [];
  }

  lemma PartSignals(st: State, part: CandidatePart)
    ensures Terminals(OfPart(st, part).signals) == 0
    ensures Calls(OfPart(st, part).signals) == SentCalls([part])
  {
    hide Put, Terminals, Calls, SentCalls;
    OnePart(part);
    NoSignals();
    OneSignal(TextChunk(part.text));
    OneSignal(ThinkingChunk(part.text));
    if part.call.Some? {
      OneSignal(ToolCall(part.call.value));
      Append(TextOf(part.text), [ToolCall(part.call.value)]);
    }
  }

  /** A run of parts: the calls handed on are the calls sent, and their signatures are kept
      in order. */
  lemma {:induction false} PartsSignals(st: State, parts: seq<CandidatePart>)
    ensures var step := OfParts(st, parts);
            && Terminals(step.signals) == 0
            && Calls(step.signals) == SentCalls(parts)
            && step.state.finished == st.finished
            && (step.state.sawCall <==> st.sawCall || SentCalls(parts) != [])
            && step.state.signatures == PutAll(MAX_SIGNATURES, st.signatures, Signed(SentCalls(parts)))
  {
    NoSignals();
    NoCalls();
    if parts == [] {
      assert PutAll(MAX_SIGNATURES, st.signatures, Signed([])) == st.signatures;
    } else {
      hide OfPart, Put, PutAll, Signed, SentCalls, Terminals, Calls;
      var init, last := parts[..|parts| - 1], parts[|parts| - 1];
      PartsSignals(st, init);
      var before := OfParts(st, init);
      Append(before.signals, OfPart(before.state, last).signals);
      PartSignals(before.state, last);
      PartState(before.state, last, SentCalls(init), st.signatures);
      SentCallsAppend(init, [last]);
      assert init + [last] == parts;
    }
  }

  lemma PartState(st: State, part: CandidatePart, sent: seq<Call>, signatures: Cache<string>)
    requires st.signatures == PutAll(MAX_SIGNATURES, signatures, Signed(sent))
    ensures var next := OfPart(st, part).state;
            && next.finished == st.finished
            && (next.sawCall <==> st.sawCall || SentCalls([part]) != [])
            && next.signatures == PutAll(MAX_SIGNATURES, signatures, Signed(sent + SentCalls([part])))
  {
    hide Put, SentCalls, Signed;
    OnePart(part);
    if !part.thought && part.call.Some? {
      var call := part.call.value;
      SignedAppend(sent, [call]);
      SignedOne(call);
      if call.thoughtSignature != "" {
        PutAllAppend(MAX_SIGNATURES, signatures, Signed(sent), [Stored(call.callId, call.thoughtSignature)]);
        PutOne(st.signatures, Stored(call.callId, call.thoughtSignature));
      } else {
        assert Signed(sent) + [] == Signed(sent);
      }
    } else {
      assert sent + [] == sent;
    }
  }

  lemma PayloadSignals(st: State, payload: Payload)
    ensures var step := OnPayload(st, payload);
            && Terminals(step.signals) == (if Ends(payload) || payload.Blocked? then 1 else 0)
            && Calls(step.signals) == (if payload.Candidate? then SentCalls(payload.parts) else [])
            && (step.state.finished <==> st.finished || Ends(payload))
  {
    hide MapFinish, SentCalls, OfParts, Terminals, Calls;
    if payload.Candidate? {
      PartsSignals(st, payload.parts);
      var before := OfParts(st, payload.parts);
      var reason := MapFinish(before.state.sawCall, payload.finishReason, payload.lowered);
      FinishSignals(reason);
      Append(before.signals, [FinalChunk(reason), Finished(reason)]);
      assert SentCalls(payload.parts) + [] == SentCalls(payload.parts);
    } else if payload.Blocked? {
      OneSignal(Failed("Content blocked: " + payload.reason));
    } else {
      NoSignals();
    }
  }

  lemma FinishSignals(reason: string)
    ensures Terminals([FinalChunk(reason), Finished(reason)]) == 1
            && Calls([FinalChunk(reason), Finished(reason)]) == []
  {
    hide Terminals, Calls;
    OneSignal(FinalChunk(reason));
    OneSignal(Finished(reason));
    Append([FinalChunk(reason)], [Finished(reason)]);
    assert [FinalChunk(reason)] + [Finished(reason)] == [FinalChunk(reason), Finished(reason)];
  }

  /** After any payloads: the calls handed to the app are exactly the calls streamed, in
      order, and a function call has been seen when there was one. */
  lemma {:induction false} StateAfter(st: State, payloads: seq<Payload>)
    requires !st.finished
    ensures var step := OnPayloads(st, payloads);
            && (step.state.finished <==> Finishings(payloads) > 0)
            && Terminals(step.signals) == Finishings(payloads) + Blockings(payloads)
            && Calls(step.signals) == SentCalls(AllParts(payloads))
  {
    if payloads != [] {
      hide OnPayload, Ends, SentCalls;
      var init, last := payloads[..|payloads| - 1], payloads[|payloads| - 1];
      StateAfter(st, init);
      var before := OnPayloads(st, init);
      Append(before.signals, OnPayload(before.state, last).signals);
      PayloadSignals(before.state, last);
      SentCallsAppend(AllParts(init), if last.Candidate? then last.parts else []);
      NoCalls();
    }
  }

  lemma NoCalls()
    ensures SentCalls([]) == []
  {}

  /** At least one terminal signal for any stream; exactly one when no prompt was blocked and
      at most one finish reason came. */
  lemma TerminalSignals(st: State, payloads: seq<Payload>)
    ensures Terminals(Response(st, payloads))
            == Finishings(payloads) + Blockings(payloads) + if Finishings(payloads) == 0 then 1 else 0
    ensures Terminals(Response(st, payloads)) >= 1
    ensures Terminals(Response(st, payloads)) == 1 <==> Blockings(payloads) == 0 && Finishings(payloads) <= 1
  {
    hide OnPayloads;
    StateAfter(Reset(st), payloads);
    var step := OnPayloads(Reset(st), payloads);
    assert AtEnd(step.state) != [] ==> AtEnd(step.state)[..0] == [];
    Append(step.signals, AtEnd(step.state));
  }

  lemma PayloadState(st: State, payload: Payload)
    ensures var sent := if payload.Candidate? then SentCalls(payload.parts) else [];
            var next := OnPayload(st, payload).state;
            && next.signatures == PutAll(MAX_SIGNATURES, st.signatures, Signed(sent))
            && (next.sawCall <==> st.sawCall || sent != [])
  {
    assert PutAll(MAX_SIGNATURES, st.signatures, Signed([])) == st.signatures;
    hide OfParts, Put, PutAll, Signed, SentCalls, MapFinish;
    if payload.Candidate? {
      PartsSignals(st, payload.parts);
    }
  }

  /** The signatures kept after any payloads are those of the calls streamed, in order; and a
      call has been seen when there was one. */
  lemma {:induction false} RemembersSignatures(st: State, payloads: seq<Payload>)
    ensures var step := OnPayloads(st, payloads);
            && step.state.signatures == PutAll(MAX_SIGNATURES, st.signatures, Signed(SentCalls(AllParts(payloads))))
            && (step.state.sawCall <==> st.sawCall || SentCalls(AllParts(payloads)) != [])
  {
    NoCalls();
    if payloads != [] {
      hide OnPayload, SentCalls, Signed, PutAll;
      var init, last := payloads[..|payloads| - 1], payloads[|payloads| - 1];
      RemembersSignatures(st, init);
      PayloadState(OnPayloads(st, init).state, last);
      var parts := if last.Candidate? then last.parts else [];
      SentCallsAppend(AllParts(init), parts);
      SignedAppend(SentCalls(AllParts(init)), SentCalls(parts));
      PutAllAppend(MAX_SIGNATURES, st.signatures, Signed(SentCalls(AllParts(init))), Signed(SentCalls(parts)));
    }
  }

  /** A payload that ends with STOP finishes the response as "tool_calls" exactly when a
      function call was streamed since the request began, in it or before it. */
  lemma StopMeansToolCalls(st: State, payloads: seq<Payload>, parts: seq<CandidatePart>, lowered: string)
    ensures var before := OnPayloads(Reset(st), payloads);
            var last := OnPayload(before.state, Candidate(parts, "STOP", lowered)).signals;
            last != [] && last[|last| - 1]
              == Finished(if SentCalls(AllParts(payloads)) + SentCalls(parts) != [] then "tool_calls" else "stop")
  {
    hide OnPayloads, OfParts, Put, PutAll, Signed, SentCalls, AllParts;
    RemembersSignatures(Reset(st), payloads);
    PartsSignals(OnPayloads(Reset(st), payloads).state, parts);
  }

  // ------------------------------------------------------------------ the text of a response

  function Shown(signals: seq<Signal>): string {
    if signals == [] then "" else
    Shown(signals[..|signals| - 1]) + if signals[|signals| - 1].TextChunk? then signals[|signals| - 1].text else ""
  }

  function Thought(signals: seq<Signal>): string {
    if signals == [] then "" else
    Thought(signals[..|signals| - 1])
    + if signals[|signals| - 1].ThinkingChunk? then signals[|signals| - 1].text else ""
  }

  /** What the parts say: as thoughts, or else openly. */
  function Says(parts: seq<CandidatePart>, thought: bool): string {
    if parts == [] then "" else
    Says(parts[..|parts| - 1], thought) + if parts[|parts| - 1].thought == thought then parts[|parts| - 1].text else ""
  }

  lemma {:induction false} ShownAppend(a: seq<Signal>, b: seq<Signal>)
    ensures Shown(a + b) == Shown(a) + Shown(b)
  {
    if b == [] {
      assert a + b == a;
    } else {
      var init, last := b[..|b| - 1], b[|b| - 1];
      ShownAppend(a, init);
      assert (a + b)[..|a + b| - 1] == a + init;
      ConcatAssoc(Shown(a), Shown(init), if last.TextChunk? then last.text else "");
    }
  }

  lemma {:induction false} ThoughtAppend(a: seq<Signal>, b: seq<Signal>)
    ensures Thought(a + b) == Thought(a) + Thought(b)
  {
    if b == [] {
      assert a + b == a;
    } else {
      var init, last := b[..|b| - 1], b[|b| - 1];
      ThoughtAppend(a, init);
      assert (a + b)[..|a + b| - 1] == a + init;
      ConcatAssoc(Thought(a), Thought(init), if last.ThinkingChunk? then last.text else "");
    }
  }

  lemma ShownOne(s: Signal)
    ensures Shown([]) == "" == Thought([])
    ensures Shown([s]) == (if s.TextChunk? then s.text else "")
    ensures Thought([s]) == if s.ThinkingChunk? then s.text else ""
  {
    assert [s][..0] == [];
  }

  lemma {:induction false} SaysAppend(a: seq<CandidatePart>, b: seq<CandidatePart>, thought: bool)
    ensures Says(a + b, thought) == Says(a, thought) + Says(b, thought)
  {
    if b == [] {
      assert a + b == a;
    } else {
      var init, last := b[..|b| - 1], b[|b| - 1];
      SaysAppend(a, init, thought);
      assert (a + b)[..|a + b| - 1] == a + init;
      ConcatAssoc(Says(a, thought), Says(init, thought), if last.thought == thought then last.text else "");
    }
  }

  lemma PartShown(st: State, part: CandidatePart)
    ensures Shown(OfPart(st, part).signals) == if part.thought then "" else part.text
    ensures Thought(OfPart(st, part).signals) == if part.thought then part.text else ""
  {
    hide Put, Shown, Thought;
    ShownOne(TextChunk(part.text));
    ShownOne(ThinkingChunk(part.text));
    if part.call.Some? {
      ShownOne(ToolCall(part.call.value));
      ShownAppend(TextOf(part.text), [ToolCall(part.call.value)]);
      ThoughtAppend(TextOf(part.text), [ToolCall(part.call.value)]);
    }
  }

  lemma {:induction false} PartsShown(st: State, parts: seq<CandidatePart>)
    ensures Shown(OfParts(st, parts).signals) == Says(parts, false)
    ensures Thought(OfParts(st, parts).signals) == Says(parts, true)
  {
    if parts != [] {
      hide OfPart, Shown, Thought;
      var init, last := parts[..|parts| - 1], parts[|parts| - 1];
      PartsShown(st, init);
      PartShown(OfParts(st, init).state, last);
      ShownAppend(OfParts(st, init).signals, OfPart(OfParts(st, init).state, last).signals);
      ThoughtAppend(OfParts(st, init).signals, OfPart(OfParts(st, init).state, last).signals);
    }
  }

  lemma PayloadShown(st: State, payload: Payload)
    ensures var parts := if payload.Candidate? then payload.parts else [];
            && Shown(OnPayload(st, payload).signals) == Says(parts, false)
            && Thought(OnPayload(st, payload).signals) == Says(parts, true)
  {
    hide Shown, Thought, OfParts, MapFinish;
    match payload {
      case Ignored => ShownOne(Finished(""));
      case Blocked(reason) => ShownOne(Failed("Content blocked: " + reason));
      case Candidate(parts, finishReason, lowered) =>
        PartsShown(st, parts);
        var before := OfParts(st, parts);
        var reason := MapFinish(before.state.sawCall, finishReason, lowered);
        ShownOne(FinalChunk(reason));
        ShownOne(Finished(reason));
        ShownAppend([FinalChunk(reason)], [Finished(reason)]);
        ThoughtAppend([FinalChunk(reason)], [Finished(reason)]);
        assert [FinalChunk(reason)] + [Finished(reason)] == [FinalChunk(reason), Finished(reason)];
        ShownAppend(before.signals, [FinalChunk(reason), Finished(reason)]);
        ThoughtAppend(before.signals, [FinalChunk(reason), Finished(reason)]);
    }
  }

  /** After any payloads: the text shown is the texts of the open parts, and the thinking shown
      the texts of the thoughts, concatenated in order with nothing lost. */
  lemma {:induction false} TextIsShown(st: State, payloads: seq<Payload>)
    ensures Shown(OnPayloads(st, payloads).signals) == Says(AllParts(payloads), false)
    ensures Thought(OnPayloads(st, payloads).signals) == Says(AllParts(payloads), true)
  {
    if payloads != [] {
      hide OnPayload, Shown, Thought, Says;
      var init, last := payloads[..|payloads| - 1], payloads[|payloads| - 1];
      TextIsShown(st, init);
      PayloadShown(OnPayloads(st, init).state, last);
      ShownAppend(OnPayloads(st, init).signals, OnPayload(OnPayloads(st, init).state, last).signals);
      ThoughtAppend(OnPayloads(st, init).signals, OnPayload(OnPayloads(st, init).state, last).signals);
      var parts := if last.Candidate? then last.parts else [];
      SaysAppend(AllParts(init), parts, false);
      SaysAppend(AllParts(init), parts, true);
    } else {
      ShownOne(Finished(""));
      assert Says([], false) == "" == Says([], true);
    }
  }

  /** What a reported finish is called: a cut-off is "length", a filtered answer
      "content_filter", and a reason without a name of its own is passed on in lower case; no
      reason and an unspecified one report nothing. */
  lemma FinishIsNamed(st: State, parts: seq<CandidatePart>, reason: string, lowered: string)
    ensures var signals := OnPayload(st, Candidate(parts, reason, lowered)).signals;
            if reason in {"", "FINISH_REASON_UNSPECIFIED"} then Terminals(signals) == 0 else
            && |signals| >= 2 && signals[|signals| - 1].Finished?
            && signals[|signals| - 2] == FinalChunk(signals[|signals| - 1].reason)
            && (reason == "MAX_TOKENS" ==> signals[|signals| - 1].reason == "length")
            && (reason in {"SAFETY", "RECITATION"} ==> signals[|signals| - 1].reason == "content_filter")
            && (reason !in {"STOP", "MAX_TOKENS", "SAFETY", "RECITATION"} ==> signals[|signals| - 1].reason == lowered)
  {
    hide OfParts, Terminals;
    PartsSignals(st, parts);
  }

  /** A call goes back with its own signature: whatever calls were streamed before it, and
      after it under other ids, its piece in a request carries the signature it came with for
      as long as that is kept, and otherwise the value that skips the check. */
  lemma {:induction false} SignatureSentBack(c: Cache<string>, earlier: seq<Call>, call: Call, later: seq<Call>)
    requires Ok(MAX_SIGNATURES, c) && call.thoughtSignature != ""
    requires forall i | 0 <= i < |later| :: later[i].callId != call.callId
    ensures var kept := PutAll(MAX_SIGNATURES, c, Signed(earlier + [call] + later)).entries;
            SignatureFor(kept, call.callId) == if call.callId in kept then call.thoughtSignature else SKIP_SIGNATURE
  {
    hide Put, PutAll, Ok, Signed;
    var before := PutAll(MAX_SIGNATURES, c, Signed(earlier));
    FirstInFirstOut(MAX_SIGNATURES, c, Signed(earlier));
    SignedAppend(earlier + [call], later);
    SignedAppend(earlier, [call]);
    SignedOne(call);
    PutAllAppend(MAX_SIGNATURES, c, Signed(earlier), [Stored(call.callId, call.thoughtSignature)]);
    PutAllAppend(MAX_SIGNATURES, c, Signed(earlier + [call]), Signed(later));
    PutOne(before, Stored(call.callId, call.thoughtSignature));
    SignedKeys(later, call.callId);
    ServedUnchanged(MAX_SIGNATURES, before, Stored(call.callId, call.thoughtSignature), Signed(later));
  }

  lemma {:induction false} SignedKeys(calls: seq<Call>, id: string)
    requires forall i | 0 <= i < |calls| :: calls[i].callId != id
    ensures forall i | 0 <= i < |Signed(calls)| :: Signed(calls)[i].key != id
  {
    if calls != [] {
      SignedKeys(calls[..|calls| - 1], id);
    }
  }

  lemma OneBlockCounts(reason: string)
    ensures Finishings([Blocked(reason)]) == 0 && Blockings([Blocked(reason)]) == 1
  {
    assert [Blocked(reason)][..0] == [];
  }

  /** Not every stream has one: a blocked prompt is followed by the synthetic stop. */
  lemma TwoTerminals(st: State, reason: string)
    ensures Terminals(Response(st, [Blocked(reason)])) == 2
  {
    hide Terminals, Response, Finishings, Blockings;
    OneBlockCounts(reason);
    TerminalSignals(st, [Blocked(reason)]);
  }
}
