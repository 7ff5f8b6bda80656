/**
  The inference sidecar process (backend/inference/main.cpp): buffered stdin, frame
  extraction, the request dispatcher, the token stream with its mid-stream poll, and the
  main loop.

  stdin is a finite list of what successive reads find. What can go wrong outside (a load, a
  decode or an embedding that fails, a full pipe on stdout) is chosen freely at each point.
  Everything taken from stdin and written to stdout goes, in order, onto `log`.
 */
module Sidecar {
  import opened Common
  import opened InferProtocol
  import Slots = RagpSlot

  // ------------------------------------------------------------------ messages

  /** The "id" field of a request. `Other` is a non-integer JSON value, with what
      QVariant's toLongLong makes of it. */
  datatype Id = Absent | Number(n: int) | Other(json: string, asLongLong: int)

  function ToLongLong(id: Id): int {
    match id
    case Absent => 0
    case Number(n) => n
    case Other(_, v) => v
  }

  datatype Slot = Embed | Chat | Ragp | UnknownSlot(name: string)

  datatype Op =
    | Ping
    | Status
    | LoadModel(slot: Slot, path: string, nCtx: int)
    | Unload(slot: Slot)
    | EmbedTexts(texts: seq<string>)
    | CompleteStream(prompt: string, maxTokens: int, temperature: real)
    | Complete(prompt: string, maxTokens: int, jsonStop: bool)
    | Cancel
    | UnsupportedOp(name: string)

  datatype Request = Request(op: Op, id: Id)

  /** What a request meets with outside the process: whether the model file is there, whether
      it can be loaded, whether the texts can be embedded, and what a random sampler draws behind
      any tokens. */
  datatype Outside = Outside(fileExists: bool, loads: bool, embeds: bool, draw: Slots.Sampler)

  datatype Finish = Stop | Length | Cancelled

  datatype Reply =
    | Hello
    | Pong(id: Id)
    | StatusResult(id: Id)
    | LoadResult(id: Id, slot: Slot)
    | UnloadResult(id: Id, slot: Slot)
    | EmbedResult(id: Id, count: nat)
    | CompleteResult(id: Id, text: string)
    | StreamResult(id: Id, finish: Finish, tokens: nat)
    | Error(id: Id, reason: string)
    | Chunk(streamId: int, delta: string)

  const BUSY := "busy streaming"

  /** The terminal replies a request may get: its own result or an error, carrying its id. */
  predicate Answers(reply: Reply, request: Request) {
    && !reply.Hello? && !reply.Chunk?
    && reply.id == request.id
    && (reply.Error? ||
        match request.op
        case Ping => reply.Pong?
        case Status => reply.StatusResult?
        case LoadModel(slot, _, _) => reply.LoadResult? && reply.slot == slot && !slot.UnknownSlot?
        case Unload(slot) => reply.UnloadResult? && reply.slot == slot
        case EmbedTexts(texts) => reply.EmbedResult? && reply.count == |texts| > 0
        case CompleteStream(_, _, _) => reply.StreamResult?
        case Complete(_, _, _) => reply.CompleteResult?
        case Cancel => false
        case UnsupportedOp(_) => false)
  }

  // ------------------------------------------------------------------ the protocol

  datatype Event = Took(request: Request) | Sent(reply: Reply) | SawBadLength

  /** Where the conversation with the host stands.
      Stopping: the running stream has been told to stop and must say so next. */
  datatype Phase =
    | Idle
    | Answering(request: Request)
    | Streaming(request: Request, chunks: nat)
    | Busy(request: Request, chunks: nat, other: Request)
    | Stopping(request: Request, chunks: nat)
    | Broken

  function IsCancelOf(r: Request, stream: Request): bool {
    r.op.Cancel? && ToLongLong(r.id) == ToLongLong(stream.id)
  }

  function OnTook(p: Phase, r: Request): Phase {
    match p
    case Idle => if r.op.Cancel? then Idle else if r.op.CompleteStream? then Streaming(r, 0) else Answering(r)
    case Streaming(s, n) => if IsCancelOf(r, s) then Stopping(s, n) else if r.op.Cancel? then p else Busy(s, n, r)
    case _ => Broken
  }

  function OnSent(p: Phase, t: Reply): Phase {
    match p
    case Idle => if t.Hello? then Idle else Broken
    case Answering(r) => if Answers(t, r) then Idle else Broken
    case Streaming(r, n) =>
      if t == Chunk(ToLongLong(r.id), (if t.Chunk? then t.delta else "")) then Streaming(r, n + 1)
      else if Answers(t, r) && (t.StreamResult? ==> t.tokens == n && t.finish != Cancelled) then Idle
      else Broken
    case Busy(r, n, q) => if t == Error(Number(ToLongLong(q.id)), BUSY) then Streaming(r, n) else Broken
    case Stopping(r, n) => if t == StreamResult(r.id, Cancelled, n) then Idle else Broken
    case Broken => Broken
  }

  function OnBadLength(p: Phase): Phase {
    match p
    case Idle => Idle
    case Streaming(r, n) => Stopping(r, n)
    case _ => Broken
  }

  /** The protocol, one event at a time. */
  function Next(p: Phase, e: Event): Phase {
    match e
    case Took(r) => OnTook(p, r)
    case Sent(t) => OnSent(p, t)
    case SawBadLength => OnBadLength(p)
  }

  function Follow(p: Phase, log: seq<Event>): Phase {
    if log == [] then p else Next(Follow(p, log[..|log| - 1]), log[|log| - 1])
  }

  lemma FollowSnoc(p: Phase, log: seq<Event>, e: Event)
    ensures Follow(p, log + [e]) == Next(Follow(p, log), e)
  {
    assert (log + [e])[..|log|] == log;
  }

  /** The requests taken, in order. */
  function Taken(log: seq<Event>): seq<Request> {
    if log == [] then [] else
    var before, last := Taken(log[..|log| - 1]), log[|log| - 1];
    if last.Took? then before + [last.request] else before
  }

  lemma TakenSnoc(log: seq<Event>, e: Event)
    ensures Taken(log + [e]) == if e.Took? then Taken(log) + [e.request] else Taken(log)
  {
    assert (log + [e])[..|log|] == log;
  }

  // ------------------------------------------------------------------ what the protocol promises

  predicate IsTerminal(e: Event) {
    e.Sent? && !e.reply.Hello? && !e.reply.Chunk?
  }

  /** How many terminal replies request `r` is still owed. */
  function Owed(p: Phase, r: Request): nat {
    match p
    case Answering(s) => One(s == r)
    case Streaming(s, _) => One(s == r)
    case Stopping(s, _) => One(s == r)
    case Busy(s, _, q) => One(s == r) + One(q == r)
    case _ => 0
  }

  function One(b: bool): nat {
    if b then 1 else 0
  }

  /** The request a terminal reply sent in phase `p` is for. */
  function Addressee(p: Phase): Option<Request> {
    match p
    case Answering(r) => Some(r)
    case Streaming(r, _) => Some(r)
    case Stopping(r, _) => Some(r)
    case Busy(_, _, q) => Some(q)
    case _ => None
  }

  /** How often request `r`, not a cancel, was taken. */
  function Asked(log: seq<Event>, r: Request): nat {
    if log == [] then 0 else
    Asked(log[..|log| - 1], r) + One(log[|log| - 1] == Took(r) && !r.op.Cancel?)
  }

  /** How often request `r` was sent a terminal reply. */
  function Answered(log: seq<Event>, r: Request): nat {
    if log == [] then 0 else
    var before, last := log[..|log| - 1], log[|log| - 1];
    Answered(before, r) + One(IsTerminal(last) && Addressee(Follow(Idle, before)) == Some(r))
  }

  lemma {:induction false} PrefixUnbroken(log: seq<Event>, i: nat)
    requires Follow(Idle, log) != Broken && i <= |log|
    ensures Follow(Idle, log[..i]) != Broken
    decreases |log|
  {
    if i < |log| {
      PrefixUnbroken(log[..|log| - 1], i);
      assert log[..|log| - 1][..i] == log[..i];
    } else {
      assert log[..i] == log;
    }
  }

  lemma OwedStep(p: Phase, e: Event, r: Request)
    requires Next(p, e) != Broken
    ensures IsTerminal(e) ==> Addressee(p).Some?
    ensures Owed(p, r) + One(e == Took(r) && !r.op.Cancel?)
            == Owed(Next(p, e), r) + One(IsTerminal(e) && Addressee(p) == Some(r))
  {
  }

  /** Every request is sent one terminal reply each time it is taken, less those still
      owed; a cancel is sent none. Between requests nothing is owed. */
  lemma {:induction false} AnsweredOnce(log: seq<Event>, r: Request)
    requires Follow(Idle, log) != Broken
    ensures Asked(log, r) == Answered(log, r) + Owed(Follow(Idle, log), r)
  {
    if log != [] {
      PrefixUnbroken(log, |log| - 1);
      AnsweredOnce(log[..|log| - 1], r);
      OwedStep(Follow(Idle, log[..|log| - 1]), log[|log| - 1], r);
    }
  }

  predicate Sane(p: Phase) {
    && (p.Streaming? || p.Busy? || p.Stopping? ==> p.request.op.CompleteStream?)
    && (p.Busy? ==> !p.other.op.Cancel?)
    && (p.Answering? ==> !p.request.op.Cancel? && !p.request.op.CompleteStream?)
  }

  lemma SaneStep(p: Phase, e: Event)
    requires Sane(p)
    ensures Sane(Next(p, e))
  {
  }

  lemma {:induction false} PhaseSane(log: seq<Event>)
    ensures Sane(Follow(Idle, log))
  {
    if log != [] {
      PhaseSane(log[..|log| - 1]);
      SaneStep(Follow(Idle, log[..|log| - 1]), log[|log| - 1]);
    }
  }

  /** One event of an unbroken log, and the phases around it. */
  lemma StepAt(log: seq<Event>, i: nat)
    requires Follow(Idle, log) != Broken && i < |log|
    ensures Follow(Idle, log[..i + 1]) == Next(Follow(Idle, log[..i]), log[i]) != Broken
    ensures Sane(Follow(Idle, log[..i]))
  {
    PrefixUnbroken(log, i + 1);
    assert log[..i + 1][..i] == log[..i];
    PhaseSane(log[..i]);
  }

  lemma TerminalStep(p: Phase, t: Reply)
    requires Sane(p) && OnSent(p, t) != Broken && IsTerminal(Sent(t))
    ensures var to := Addressee(p);
            && to.Some? && Owed(p, to.value) > 0 && !to.value.op.Cancel?
            && (Answers(t, to.value) || t == Error(Number(ToLongLong(to.value.id)), BUSY))
            && (t.id == to.value.id <==> !p.Busy? || to.value.id.Number?)
  {
  }

  /** A terminal reply carries the id of the request it is for, if and only if that is a number
      or the request did not come in the middle of a stream: the busy reply sends a number. */
  lemma {:induction false} TerminalCarriesId(log: seq<Event>, i: nat)
    requires Follow(Idle, log) != Broken && i < |log| && IsTerminal(log[i])
    ensures var to := Addressee(Follow(Idle, log[..i]));
            && to.Some? && Owed(Follow(Idle, log[..i]), to.value) > 0 && Asked(log[..i], to.value) > 0
            && (Answers(log[i].reply, to.value) || log[i].reply == Error(Number(ToLongLong(to.value.id)), BUSY))
            && (log[i].reply.id == to.value.id <==> !Follow(Idle, log[..i]).Busy? || to.value.id.Number?)
  {
    hide Follow;
    StepAt(log, i);
    TerminalStep(Follow(Idle, log[..i]), log[i].reply);
    AnsweredOnce(log[..i], Addressee(Follow(Idle, log[..i])).value);
  }

  /** A request without an id that comes mid-stream is answered under the id 0. */
  lemma BusyMakesAnId(stream: Request, other: Request)
    requires stream.op.CompleteStream? && !other.op.Cancel? && other.id == Absent
    ensures var log := [Took(stream), Took(other), Sent(Error(Number(0), BUSY))];
            Follow(Idle, log) == Streaming(stream, 0) && Addressee(Follow(Idle, log[..2])) == Some(other)
  {
    var log := [Took(stream), Took(other), Sent(Error(Number(0), BUSY))];
    assert log[..2] == [Took(stream), Took(other)] && log[..2][..1] == [Took(stream)] && log[..2][..1][..0] == [];
    assert Follow(Idle, log[..2][..1]) == Streaming(stream, 0);
    assert Follow(Idle, log[..2]) == Busy(stream, 0, other);
  }

  function ChunkCount(log: seq<Event>): nat {
    if log == [] then 0 else
    ChunkCount(log[..|log| - 1]) + if log[|log| - 1].Sent? && log[|log| - 1].reply.Chunk? then 1 else 0
  }

  lemma SpanStep(p: Phase, e: Event)
    requires var q := Next(p, e); q.Streaming? || q.Busy? || q.Stopping?
    ensures p == Idle ==> e == Took(Next(p, e).request) && Next(p, e).chunks == 0
    ensures p != Idle ==> (p.Streaming? || p.Busy? || p.Stopping?) && Next(p, e).request == p.request
    ensures p != Idle ==>
      if e.Sent? && e.reply.Chunk?
      then Next(p, e).chunks == p.chunks + 1 && e.reply.streamId == ToLongLong(p.request.id)
      else Next(p, e).chunks == p.chunks
  {
  }

  lemma SliceInit<T>(s: seq<T>, i: nat, n: nat)
    requires i <= n <= |s|
    ensures s[i..][..n - i] == s[..n][i..] && s[..n][..i] == s[..i]
  {
  }

  /** A stream under way began with a complete_stream request taken at some point `i`
      between requests; all chunks since are its own, and the protocol has counted them. */
  lemma {:induction false} StreamSpan(log: seq<Event>) returns (i: nat)
    requires var p := Follow(Idle, log); p.Streaming? || p.Busy? || p.Stopping?
    ensures var p := Follow(Idle, log);
            && i < |log| && log[i] == Took(p.request) && Follow(Idle, log[..i]) == Idle
            && p.chunks == ChunkCount(log[i..])
            && (forall k | i < k < |log| && log[k].Sent? && log[k].reply.Chunk? ::
                  log[k].reply.streamId == ToLongLong(p.request.id))
            && (forall k | i < k <= |log| :: Follow(Idle, log[..k]) != Idle)
  {
    var n := |log| - 1;
    var before := log[..n];
    PrefixUnbroken(log, n);
    SpanStep(Follow(Idle, before), log[n]);
    hide Next;
    if Follow(Idle, before) == Idle {
      i := n;
      assert ChunkCount(log[n..]) == 0 by { assert log[n..] == [log[n]] && [log[n]][..0] == []; }
    } else {
      i := StreamSpan(before);
      SliceInit(log, i, n);
    }
    forall k | i < k <= |log| ensures Follow(Idle, log[..k]) != Idle {
      if k == |log| { assert log[..k] == log; } else { assert log[..k] == before[..k]; }
    }
  }

  /** The tokens a stream result reports are the chunk frames sent since its request. */
  lemma {:induction false} TokensAreChunks(log: seq<Event>, j: nat) returns (i: nat)
    requires Follow(Idle, log) != Broken && j < |log| && log[j].Sent? && log[j].reply.StreamResult?
    ensures i < j && log[i].Took? && log[i].request.op.CompleteStream? && log[i].request.id == log[j].reply.id
    ensures log[j].reply.tokens == ChunkCount(log[i..j])
    ensures forall k | i < k < j :: !(log[k].Sent? && log[k].reply.StreamResult?)
  {
    StepAt(log, j);
    i := StreamSpan(log[..j]);
    assert log[..j][i..] == log[i..j];
    forall k | i < k < j ensures !(log[k].Sent? && log[k].reply.StreamResult?) {
      StepAt(log, k);
      assert log[..j][..k + 1] == log[..k + 1];
    }
  }

  lemma ResultStep(p: Phase, t: Reply)
    requires t.StreamResult? && OnSent(p, t) != Broken && Sane(p)
    ensures (p.Streaming? || p.Stopping?) && t.id == p.request.id && t.tokens == p.chunks
    ensures t.finish == Cancelled <==> p.Stopping?
  {
  }

  lemma StoppingStep(p: Phase, e: Event)
    requires Next(p, e).Streaming? || Next(p, e).Stopping?
    ensures Next(p, e).Stopping? <==> e == SawBadLength || (e.Took? && IsCancelOf(e.request, Next(p, e).request))
  {
  }

  /** A stream is reported cancelled exactly when the last thing seen before was a cancel
      carrying its id, or a framing error. */
  lemma {:induction false} CancelledIff(log: seq<Event>, j: nat)
    requires Follow(Idle, log) != Broken && j < |log| && log[j].Sent? && log[j].reply.StreamResult?
    ensures j > 0
    ensures log[j].reply.finish == Cancelled <==>
            log[j - 1] == SawBadLength ||
            (log[j - 1].Took? && log[j - 1].request.op.Cancel?
             && ToLongLong(log[j - 1].request.id) == ToLongLong(log[j].reply.id))
  {
    StepAt(log, j);
    var p := Follow(Idle, log[..j]);
    ResultStep(p, log[j].reply);
    assert j > 0;
    StepAt(log, j - 1);
    hide Follow;
    StoppingStep(Follow(Idle, log[..j - 1]), log[j - 1]);
  }

  /** A chunk frame occurs only inside the stream of a request with its id. */
  lemma {:induction false} ChunkInsideItsStream(log: seq<Event>, j: nat) returns (i: nat)
    requires Follow(Idle, log) != Broken && j < |log| && log[j].Sent? && log[j].reply.Chunk?
    ensures i < j && log[i].Took? && log[i].request.op.CompleteStream?
    ensures ToLongLong(log[i].request.id) == log[j].reply.streamId
    ensures Owed(Follow(Idle, log[..j]), log[i].request) > 0
  {
    StepAt(log, j);
    i := StreamSpan(log[..j]);
  }

  function Headers(frames: seq<Frame<Request>>): seq<Request> {
    seq(|frames|, i requires 0 <= i < |frames| => frames[i].header)
  }

  lemma HeadersAppend(a: seq<Frame<Request>>, b: seq<Frame<Request>>)
    ensures Headers(a + b) == Headers(a) + Headers(b)
  {
  }

  /** Of everything that has `arrived`, every complete well-formed frame has been `taken`,
      in order, or is still first in line in the buffer. */
  ghost predicate Accounts(codec: JsonCodec<Request>, arrived: seq<Byte>, taken: seq<Request>, inBuf: seq<Byte>) {
    var all, left := Drain(codec, arrived, SIDECAR_MIN), Drain(codec, inBuf, SIDECAR_MIN);
    Headers(all.frames) == taken + Headers(left.frames) && all.residue == left.residue && all.ok == left.ok
  }

  lemma AccountsRead(codec: JsonCodec<Request>, arrived: seq<Byte>, taken: seq<Request>, inBuf: seq<Byte>,
                     data: seq<Byte>)
    requires Accounts(codec, arrived, taken, inBuf)
    ensures Accounts(codec, arrived + data, taken, inBuf + data)
  {
    DrainAppend(codec, arrived, data, SIDECAR_MIN);
    DrainAppend(codec, inBuf, data, SIDECAR_MIN);
    var all, left := Drain(codec, arrived, SIDECAR_MIN), Drain(codec, inBuf, SIDECAR_MIN);
    var e := Drain(codec, left.residue + data, SIDECAR_MIN).frames;
    HeadersAppend(all.frames, e);
    HeadersAppend(left.frames, e);
    ConcatAssoc(taken, Headers(left.frames), Headers(e));
  }

  lemma {:induction false} AccountsTake(codec: JsonCodec<Request>, arrived: seq<Byte>, taken: seq<Request>,
                                        inBuf: seq<Byte>)
    requires Accounts(codec, arrived, taken, inBuf) && CutFront(inBuf, SIDECAR_MIN).Cut?
    ensures var front := CutFront(inBuf, SIDECAR_MIN);
            match DecodeInferPayload(codec, front.payload)
            case None => Accounts(codec, arrived, taken, front.rest)
            case Some(f) => Accounts(codec, arrived, taken + [f.header], front.rest)
  {
    var front := CutFront(inBuf, SIDECAR_MIN);
    match DecodeInferPayload(codec, front.payload)
    case None =>
    case Some(f) =>
      var later := Drain(codec, front.rest, SIDECAR_MIN).frames;
      HeadersAppend([f], later);
      assert Headers([f]) == [f.header];
      ConcatAssoc(taken, [f.header], Headers(later));
  }

  // ------------------------------------------------------------------ the process

  /** What one read of stdin finds: nothing waiting (only a poll sees this), some bytes,
      or the end. A read of no bytes is the end. */
  datatype Read = NothingWaiting | Bytes(data: seq<Byte>) | Eof

  predicate Ends(r: Read) {
    r.Eof? || r == Bytes([])
  }

  /** The bytes that reads deliver, in order. */
  function Delivered(made: seq<Read>): seq<Byte> {
    if made == [] then [] else
    Delivered(made[..|made| - 1]) + if made[|made| - 1].Bytes? then made[|made| - 1].data else []
  }

  lemma {:induction false} DeliveredAppend(a: seq<Read>, b: seq<Read>)
    ensures Delivered(a + b) == Delivered(a) + Delivered(b)
  {
    if b == [] {
      assert a + b == a;
    } else {
      DeliveredAppend(a, b[..|b| - 1]);
      assert (a + b)[..|a + b| - 1] == a + b[..|b| - 1];
    }
  }

  lemma OneDelivered(r: Read)
    ensures Delivered([r]) == if r.Bytes? then r.data else []
  {
    assert [r][..0] == [];
  }

  /** The reads in front of the first that finds the end. */
  function UntilEnd(made: seq<Read>): (r: seq<Read>)
    ensures r <= made && forall i | 0 <= i < |r| :: !Ends(r[i])
    ensures |r| < |made| ==> Ends(made[|r|])
  {
    if made == [] || Ends(made[0]) then [] else [made[0]] + UntilEnd(made[1..])
  }

  lemma {:induction false} UntilEndIs(made: seq<Read>, n: nat)
    requires n <= |made| && (n < |made| ==> Ends(made[n]))
    requires forall i | 0 <= i < n :: !Ends(made[i])
    ensures UntilEnd(made) == made[..n]
  {
    if n > 0 {
      assert !Ends(made[0]) && made[1..][..n - 1] == made[1..n];
      assert n < |made| ==> made[1..][n - 1] == made[n];
      UntilEndIs(made[1..], n - 1);
      assert [made[0]] + made[1..n] == made[..n];
    }
  }

  /** Of all of `stdin`, `input` is left, and `arrived` is what the reads made so far delivered;
      none of them met the end, and `eof` is latched only where the end is next. */
  ghost predicate Hears(stdin: seq<Read>, input: seq<Read>, arrived: seq<Byte>, eof: bool) {
    && |input| <= |stdin| && input == stdin[|stdin| - |input|..]
    && arrived == Delivered(stdin[..|stdin| - |input|])
    && (forall i | 0 <= i < |stdin| - |input| :: !Ends(stdin[i]))
    && (eof ==> input == [] || Ends(input[0]))
  }

  lemma HearsOne(stdin: seq<Read>, input: seq<Read>, arrived: seq<Byte>, data: seq<Byte>)
    requires Hears(stdin, input, arrived, false) && input != [] && !Ends(input[0])
    requires data == if input[0].Bytes? then input[0].data else []
    ensures Hears(stdin, input[1..], arrived + data, false)
  {
    var n := |stdin| - |input|;
    assert stdin[..n + 1] == stdin[..n] + [input[0]];
    hide Delivered, UntilEnd;
    DeliveredAppend(stdin[..n], [input[0]]);
    OneDelivered(input[0]);
  }

  lemma HearsEnd(stdin: seq<Read>, input: seq<Read>, arrived: seq<Byte>)
    requires Hears(stdin, input, arrived, false) && (input == [] || Ends(input[0]))
    ensures Hears(stdin, input, arrived, true)
  {}

  /** At the end of stdin everything in front of the end has arrived. */
  lemma AllHeard(stdin: seq<Read>, input: seq<Read>, arrived: seq<Byte>)
    requires Hears(stdin, input, arrived, true)
    ensures arrived == Delivered(UntilEnd(stdin))
  {
    UntilEndIs(stdin, |stdin| - |input|);
  }

  /** What a list of events says on the streams: the deltas of the chunks sent. */
  function Said(log: seq<Event>): string {
    if log == [] then "" else
    Said(log[..|log| - 1])
    + if log[|log| - 1].Sent? && log[|log| - 1].reply.Chunk? then log[|log| - 1].reply.delta else ""
  }

  lemma {:induction false} SaidAppend(a: seq<Event>, b: seq<Event>)
    ensures Said(a + b) == Said(a) + Said(b)
  {
    if b == [] {
      assert a + b == a;
    } else {
      var init, last := b[..|b| - 1], b[|b| - 1];
      SaidAppend(a, init);
      assert (a + b)[..|a + b| - 1] == a + init;
      ConcatAssoc(Said(a), Said(init), if last.Sent? && last.reply.Chunk? then last.reply.delta else "");
    }
  }

  lemma OneSaid(e: Event)
    ensures Said([e]) == if e.Sent? && e.reply.Chunk? then e.reply.delta else ""
  {
    assert [e][..0] == [];
  }

  /** How many of the tokens have a piece to send. */
  function Spoken(model: Slots.Model, tokens: seq<Slots.Token>): nat {
    if tokens == [] then 0 else
    Spoken(model, tokens[..|tokens| - 1]) + if model.piece(tokens[|tokens| - 1]) != "" then 1 else 0
  }

  lemma SpokenSnoc(model: Slots.Model, tokens: seq<Slots.Token>, t: Slots.Token)
    ensures Spoken(model, tokens + [t]) == Spoken(model, tokens) + if model.piece(t) != "" then 1 else 0
  {
    assert (tokens + [t])[..|tokens|] == tokens;
  }

  class Process {
    const codec: JsonCodec<Request>
    const chatSlot: Slots.RagpSlot
    const ragpSlot: Slots.RagpSlot
    const models: string -> Slots.Model   // the model in the file at a path
    var embedLoaded: bool
    var inBuf: seq<Byte>
    var stdinEof: bool
    var input: seq<Read>
    ghost const stdin: seq<Read>   // all of stdin, of which `input` is what is left
    ghost var arrived: seq<Byte>   // every byte read so far
    ghost var log: seq<Event>
    ghost var writeFailed: bool

    constructor (codec: JsonCodec<Request>, input: seq<Read>, models: string -> Slots.Model)
      ensures this.codec == codec && this.input == input && stdin == input && chatSlot != ragpSlot
      ensures inBuf == [] && arrived == [] && !stdinEof && log == [] && !writeFailed
      ensures fresh(chatSlot) && fresh(ragpSlot)
    {
      this.codec, this.input, this.stdin, this.models := codec, input, input, models;
      chatSlot := new Slots.RagpSlot(models(""));
      ragpSlot := new Slots.RagpSlot(models(""));
      embedLoaded, inBuf, stdinEof := false, [], false;
      arrived, log, writeFailed := [], [], false;
    }

    ghost predicate Accounted()
      reads this`log, this`arrived, this`inBuf, this`input, this`stdinEof
    {
      Accounts(codec, arrived, Taken(log), inBuf) && Hears(stdin, input, arrived, stdinEof)
    }

    /** The protocol stands at `p`, or a write failed and nothing is claimed. */
    ghost predicate At(p: Phase)
      reads this
    {
      writeFailed || Follow(Idle, log) == p
    }

    /** A framing error was met and logged. */
    ghost predicate SawError()
      reads this`log
    {
      SawBadLength in log
    }

    /** The buffer starts with a length prefix that may not be honoured. */
    ghost predicate BadLengthWaits()
      reads this`inBuf
    {
      CutFront(inBuf, SIDECAR_MIN).BadLength?
    }

    lemma NothingYet()
      requires inBuf == [] && arrived == [] && log == [] && input == stdin && !stdinEof
      ensures Accounted() && !SawError() && Next(Follow(Idle, log), Sent(Hello)) == Idle
    {}

    /** Input left to work on, for termination. */
    twostate predicate NoMoreInput()
      reads this
    {
      |input| < |old(input)| || (|input| == |old(input)| && |inBuf| <= |old(inBuf)|)
    }

    ghost method Record(e: Event)
      modifies this`log
      ensures log == old(log) + [e]
      ensures Follow(Idle, log) == Next(old(Follow(Idle, log)), e)
      ensures !e.Took? && old(Accounted()) ==> Accounted()
      ensures Taken(log) == if e.Took? then old(Taken(log)) + [e.request] else old(Taken(log))
      ensures Said(log) == old(Said(log)) + if e.Sent? && e.reply.Chunk? then e.reply.delta else ""
    {
      FollowSnoc(Idle, log, e);
      TakenSnoc(log, e);
      SaidAppend(log, [e]);
      OneSaid(e);
      log := log + [e];
    }

    /** Writes one frame; after a failed write nothing is claimed about the protocol. */
    method WriteFrame(reply: Reply) returns (ok: bool)
      modifies this`log, this`writeFailed
      ensures old(Accounted()) ==> Accounted()
      ensures !ok ==> writeFailed && log == old(log)
      ensures ok ==> writeFailed == old(writeFailed) && log == old(log) + [Sent(reply)]
      ensures writeFailed || Follow(Idle, log) == Next(old(Follow(Idle, log)), Sent(reply))
      ensures Said(log) == old(Said(log)) + if ok && reply.Chunk? then reply.delta else ""
      ensures SawError() == old(SawError())
    {
      ok := *;
      if ok {
        Record(Sent(reply));
      } else {
        writeFailed := true;
      }
    }

    /** One read of stdin that does not meet the end. */
    method NextRead()
      requires Accounted() && input != [] && !Ends(input[0]) && !stdinEof
      modifies this`inBuf, this`input, this`arrived
      ensures Accounted() && input == old(input)[1..]
      ensures var data := if old(input)[0].Bytes? then old(input)[0].data else [];
              arrived == old(arrived) + data && inBuf == old(inBuf) + data
    {
      hide *;
      var data := if input[0].Bytes? then input[0].data else [];
      ReadAccounts(data);
      inBuf, input := inBuf + data, input[1..];
      arrived := arrived + data;
      AccountedIs();
    }

    lemma ReadAccounts(data: seq<Byte>)
      requires Accounted() && !stdinEof && input != [] && !Ends(input[0])
      requires data == if input[0].Bytes? then input[0].data else []
      ensures Accounts(codec, arrived + data, Taken(log), inBuf + data)
      ensures Hears(stdin, input[1..], arrived + data, stdinEof)
    {
      hide Accounts, Hears;
      AccountsRead(codec, arrived, Taken(log), inBuf, data);
      HearsOne(stdin, input, arrived, data);
    }

    lemma AccountedIs()
      ensures Accounted() <==> Accounts(codec, arrived, Taken(log), inBuf) && Hears(stdin, input, arrived, stdinEof)
    {}

    lemma EndAccounts()
      requires Accounted() && !stdinEof && (input == [] || Ends(input[0]))
      ensures Accounts(codec, arrived, Taken(log), inBuf) && Hears(stdin, input, arrived, true)
    {}

    /** Pulls bytes from stdin into the buffer; false at its end. A poll makes one read, if
        there is anything to read or the end has come; a blocking read waits for bytes. */
    method FillFromStdin(blocking: bool) returns (more: bool)
      requires Accounted()
      modifies this`inBuf, this`stdinEof, this`input, this`arrived
      ensures Accounted() && more == !stdinEof && NoMoreInput()
      ensures old(arrived) <= arrived && inBuf == old(inBuf) + arrived[|old(arrived)|..]
      ensures blocking && more ==> |input| < |old(input)| && |arrived| > |old(arrived)|
      ensures !blocking && !old(stdinEof) ==>
                (more <==> old(input) != [] && !Ends(old(input)[0])) && (more ==> input == old(input)[1..])
      ensures !more || |input| == |old(input)| ==> inBuf == old(inBuf) && arrived == old(arrived)
    {
      hide Accounted;
      assert inBuf + [] == inBuf && arrived + [] == arrived;
      if stdinEof {
        return false;
      }
      if !blocking && input != [] && input[0].NothingWaiting? {
        NextRead();
        return true;
      }
      while input != [] && input[0].NothingWaiting?
        invariant |input| <= |old(input)| && Accounted() && !stdinEof
        invariant inBuf == old(inBuf) && arrived == old(arrived)
        invariant !blocking ==> input == old(input)
        decreases |input|
      {
        assert inBuf + [] == inBuf && arrived + [] == arrived;
        NextRead();
      }
      if input == [] || input[0].Eof? || input[0].data == [] {
        EndAccounts();
        stdinEof := true;
        AccountedIs();
        return false;
      }
      NextRead();
      more := true;
    }

    /** Extracts the next well-formed frame, skipping malformed ones. When there is none
        nothing well-formed was used up, and a bad length prefix is met every time. */
    method TryExtractFrame() returns (found: bool, request: Request, protoErr: bool)
      requires Accounted()
      modifies this`inBuf, this`log
      ensures Accounted()
      ensures found ==> |inBuf| < |old(inBuf)| && log == old(log) + [Took(request)] && !protoErr
      ensures found ==> Follow(Idle, log) == Next(old(Follow(Idle, log)), Took(request))
      ensures !found ==> log == old(log) && |inBuf| <= |old(inBuf)|
      ensures !found ==> Drain(codec, inBuf, SIDECAR_MIN) == Drained([], inBuf, !protoErr)
      ensures protoErr ==> BadLengthWaits()
      ensures old(BadLengthWaits()) ==> !found && protoErr
      ensures Said(log) == old(Said(log))
      decreases |inBuf|
    {
      hide Hears, Said;
      request := Request(Ping, Absent);
      if |inBuf| < 4 {
        return false, request, false;
      }
      var frameLen := ReadU32BE(inBuf, 0);
      if frameLen > MAX_FRAME_BYTES || frameLen < 4 {
        return false, request, true;
      }
      if |inBuf| < 4 + frameLen {
        return false, request, false;
      }
      AccountsTake(codec, arrived, Taken(log), inBuf);
      var payload := inBuf[4..4 + frameLen];
      inBuf := inBuf[4 + frameLen..];
      var frame := DecodeInferPayload(codec, payload);
      if frame.None? {
        found, request, protoErr := TryExtractFrame();
        return;
      }
      request := frame.value.header;
      Record(Took(request));
      found, protoErr := true, false;
    }

    /** One frame taken mid-stream: the stream's own cancel stops it, a cancel for another
        stream is dropped, and any other request is told the sidecar is busy. */
    method AnswerMidStream(request: Request, streamId: int, ghost stream: Request, ghost chunks: nat)
      returns (stop: bool)
      requires Accounted() && streamId == ToLongLong(stream.id)
      requires At(Next(Streaming(stream, chunks), Took(request)))
      modifies this`log, this`writeFailed
      ensures Accounted() && (old(writeFailed) ==> writeFailed)
      ensures stop ==> log == old(log)
      ensures SawError() == old(SawError()) && Said(log) == old(Said(log))
      ensures At(if stop then Stopping(stream, chunks) else Streaming(stream, chunks))
    {
      hide Accounted, Said;
      if request.op.Cancel? {
        return ToLongLong(request.id) == streamId;
      }
      var _ := WriteFrame(Error(Number(ToLongLong(request.id)), BUSY));
      stop := false;
    }

    /** Mid-stream poll: takes every frame already on stdin and reports whether the stream
        must stop, which is at end of input, on its own cancel and on a framing error. */
    method PollCancelOrEof(streamId: int, ghost stream: Request, ghost chunks: nat) returns (stop: bool)
      requires Accounted() && At(Streaming(stream, chunks)) && streamId == ToLongLong(stream.id)
      requires !SawError()
      modifies this`inBuf, this`stdinEof, this`input, this`arrived, this`log, this`writeFailed
      ensures Accounted() && NoMoreInput() && (stdinEof ==> stop)
      ensures old(writeFailed) ==> writeFailed
      ensures At(if stop && !stdinEof then Stopping(stream, chunks) else Streaming(stream, chunks))
      // a framing error stops the stream and is left in the buffer
      ensures SawError() ==> stop && !stdinEof && BadLengthWaits()
      ensures Said(log) == old(Said(log))
    {
      hide Drain, Taken, Accounted, Said, UntilEnd;
      var more := FillFromStdin(false);
      if !more {
        return true;
      }
      while true
        invariant Accounted() && NoMoreInput() && !stdinEof && !SawError() && Said(log) == old(Said(log))
        invariant old(writeFailed) ==> writeFailed
        invariant At(Streaming(stream, chunks))
        decreases |inBuf|
      {
        var found, request, protoErr := TryExtractFrame();
        if !found {
          if protoErr {
            Record(SawBadLength);
          }
          return protoErr;
        }
        stop := AnswerMidStream(request, streamId, stream, chunks);
        if stop {
          return true;
        }
      }
    }

    /** One piece of the running stream goes out as one chunk frame. */
    method OnPiece(stream: Request, piece: string, writeOk: bool, pieces: nat) returns (ok: bool, sent: nat)
      requires Accounted() && At(Streaming(stream, pieces)) && (writeOk || writeFailed)
      modifies this`log, this`writeFailed
      ensures Accounted() && At(Streaming(stream, sent)) && (ok || writeFailed) && (old(writeFailed) ==> writeFailed)
      ensures piece != "" && ok ==> log == old(log) + [Sent(Chunk(ToLongLong(stream.id), piece))]
      ensures piece == "" || !ok ==> log == old(log)
      ensures piece == "" ==> ok == writeOk
      ensures sent == if piece != "" && writeOk then pieces + 1 else pieces
      ensures Said(log) == old(Said(log)) + if ok then piece else ""
      ensures SawError() == old(SawError())
    {
      hide Accounted, Said;
      ok, sent := writeOk, pieces;
      assert Said(log) + "" == Said(log);
      if piece != "" && writeOk {
        ok := WriteFrame(Chunk(ToLongLong(stream.id), piece));
        sent := pieces + 1;
      }
    }

    /** The generation loop of completeStream, on a decoded prompt: the poll before every token,
        then one chunk a piece. `sampled` are the tokens drawn, a run of the model as it is
        sampled at this temperature: unless a write failed their pieces, and nothing else, have
        been said. */
    method GenerateStream(stream: Request, ghost tokens: seq<Slots.Token>, base: nat, genCap: nat,
                          temperature: real, draw: Slots.Sampler)
      returns (ok: bool, finish: Finish, pieces: nat, ghost sampled: seq<Slots.Token>)
      requires Accounted() && At(Streaming(stream, 0)) && !stdinEof && !SawError()
      requires chatSlot.kv == Slots.PromptEntries(tokens) && base == |tokens|
      modifies this`inBuf, this`stdinEof, this`input, this`arrived, this`log, this`writeFailed
      modifies chatSlot`kv, chatSlot`faults
      ensures Accounted() && NoMoreInput() && (stdinEof ==> ok)
      ensures ok <==> chatSlot.faults == old(chatSlot.faults)
      ensures At(if ok && finish.Cancelled? && !stdinEof then Stopping(stream, pieces) else Streaming(stream, pieces))
      ensures SawError() ==> ok && finish.Cancelled? && !stdinEof && BadLengthWaits()
      ensures !writeFailed ==> Said(log) == old(Said(log)) + Slots.Text(chatSlot.model, sampled)
      ensures !writeFailed ==> pieces == Spoken(chatSlot.model, sampled)
      ensures ok ==> chatSlot.kv == Slots.Fed(tokens, sampled)
      ensures |sampled| <= genCap && IsRun(temperature, draw, tokens, sampled)
      ensures ok && finish.Length? ==> |sampled| == genCap
      ensures ok && finish.Stop? ==> |sampled| < genCap && EndsRun(temperature, draw, tokens, sampled)
    {
      hide Accounted, Said, Slots.Text, Spoken, Slots.FedBack, IsRun, EndsRun;
      var writeOk := true;
      pieces, finish, sampled := 0, Length, [];
      var model := Slots.Sampling(chatSlot.model, temperature, draw);
      NothingDrawn(temperature, draw, tokens);
      for generated := 0 to genCap
        invariant Accounted() && NoMoreInput() && At(Streaming(stream, pieces))
        invariant |sampled| == generated && chatSlot.kv == Slots.Fed(tokens, sampled)
        invariant IsRun(temperature, draw, tokens, sampled) && chatSlot.faults == old(chatSlot.faults)
        invariant (writeOk || writeFailed) && finish == Length && !stdinEof && !SawError()
        invariant !writeFailed ==> Said(log) == old(Said(log)) + Slots.Text(chatSlot.model, sampled)
        invariant !writeFailed ==> pieces == Spoken(chatSlot.model, sampled)
      {
        var stop := !writeOk;
        if writeOk {
          stop := PollCancelOrEof(ToLongLong(stream.id), stream, pieces);
        }
        if stop {
          return true, Cancelled, pieces, sampled;
        }
        var newToken := model.sample(Slots.Tokens(chatSlot.kv));
        DrawnNext(temperature, draw, tokens, sampled);
        if chatSlot.model.isEog(newToken) {
          return true, Stop, pieces, sampled;
        }
        OneMoreDrawn(tokens, old(Said(log)), sampled, newToken);
        sampled := sampled + [newToken];
        writeOk, pieces := OnPiece(stream, chatSlot.model.piece(newToken), writeOk, pieces);
        ok := chatSlot.Decode([Slots.Entry(newToken, base + generated, true)]);
        if !ok {
          return false, finish, pieces, sampled;
        }
      }
      ok := true;
    }

    /** The tokens are drawn one after the other from the model at this temperature, and none of
        them ends generation. */
    ghost predicate IsRun(temperature: real, draw: Slots.Sampler, tokens: seq<Slots.Token>,
                          sampled: seq<Slots.Token>)
      reads chatSlot`model
    {
      Slots.GreedyPrefix(Slots.Sampling(chatSlot.model, temperature, draw), tokens, false, sampled)
    }

    /** The next one would. */
    ghost predicate EndsRun(temperature: real, draw: Slots.Sampler, tokens: seq<Slots.Token>,
                            sampled: seq<Slots.Token>)
      reads chatSlot`model
    {
      chatSlot.model.isEog(Slots.Sampling(chatSlot.model, temperature, draw).sample(tokens + sampled))
    }

    lemma NothingDrawn(temperature: real, draw: Slots.Sampler, tokens: seq<Slots.Token>)
      ensures Slots.Text(chatSlot.model, []) == "" && Said(log) + "" == Said(log)
      ensures Spoken(chatSlot.model, []) == 0 && IsRun(temperature, draw, tokens, [])
      ensures Slots.Fed(tokens, []) == Slots.PromptEntries(tokens)
    {}

    lemma DrawnNext(temperature: real, draw: Slots.Sampler, tokens: seq<Slots.Token>, sampled: seq<Slots.Token>)
      requires IsRun(temperature, draw, tokens, sampled) && chatSlot.kv == Slots.Fed(tokens, sampled)
      ensures var t := Slots.Sampling(chatSlot.model, temperature, draw).sample(Slots.Tokens(chatSlot.kv));
              && (!chatSlot.model.isEog(t) ==> IsRun(temperature, draw, tokens, sampled + [t]))
              && (chatSlot.model.isEog(t) ==> EndsRun(temperature, draw, tokens, sampled))
    {
      Slots.TokensFed(tokens, sampled);
      var model := Slots.Sampling(chatSlot.model, temperature, draw);
      var t := model.sample(tokens + sampled);
      if !chatSlot.model.isEog(t) {
        Slots.GreedyStep(model, tokens, false, sampled, t);
      }
    }

    lemma OneMoreDrawn(tokens: seq<Slots.Token>, said: string, sampled: seq<Slots.Token>, t: Slots.Token)
      ensures var more := sampled + [t];
              && said + Slots.Text(chatSlot.model, more)
                 == (said + Slots.Text(chatSlot.model, sampled)) + chatSlot.model.piece(t)
              && Spoken(chatSlot.model, more)
                 == Spoken(chatSlot.model, sampled) + (if chatSlot.model.piece(t) != "" then 1 else 0)
              && Slots.Fed(tokens, more)
                 == Slots.Fed(tokens, sampled) + [Slots.Entry(t, |tokens| + |sampled|, true)]
    {
      hide *;
      Slots.TextSnoc(chatSlot.model, sampled, t);
      SpokenSnoc(chatSlot.model, sampled, t);
      Slots.FedSnoc(tokens, sampled, t);
      ConcatAssoc(said, Slots.Text(chatSlot.model, sampled), chatSlot.model.piece(t));
    }

    /** A loaded slot, and a prompt that is not empty, gives a token and fits. */
    predicate CanStream(prompt: string)
      reads chatSlot`loaded, chatSlot`model, chatSlot`nCtx
    {
      chatSlot.loaded && prompt != "" && 0 < |chatSlot.model.tokenize(prompt)| <= chatSlot.nCtx - 16
    }

    /** What has to go right before the first token; otherwise the reason it did not. */
    method PrepareStream(prompt: string) returns (failure: Option<string>, base: nat)
      modifies chatSlot`kv, chatSlot`faults
      ensures failure == None <==> CanStream(prompt) && chatSlot.faults == old(chatSlot.faults)
      ensures failure == None ==> base == |chatSlot.model.tokenize(prompt)|
      ensures failure == None ==> chatSlot.loaded && prompt != "" && 0 < base && base + 16 <= chatSlot.nCtx
      ensures failure == None ==>
                chatSlot.kv == Slots.PromptEntries(chatSlot.model.tokenize(prompt)) && |chatSlot.kv| == base
      ensures var n := |chatSlot.model.tokenize(prompt)|;
              failure == Some("prompt too long") <==>
              chatSlot.loaded && prompt != "" && n > 0 && n + 16 > chatSlot.nCtx
    {
      base := 0;
      if !chatSlot.loaded {
        return Some("slot not loaded"), base;
      }
      if prompt == "" {
        return Some("empty prompt"), base;
      }
      chatSlot.ClearMemory();
      var tokens := chatSlot.model.tokenize(prompt);
      if |tokens| <= 0 {
        return Some("tokenization failed"), base;
      }
      if |tokens| + 16 > chatSlot.nCtx {
        return Some("prompt too long"), base;
      }
      var decoded := chatSlot.DecodePrompt(tokens);
      failure, base := if decoded then None else Some("prompt decode failed"), |tokens|;
    }

    /** The complete_stream request: its chunks, then one terminal reply unless stdin
        ended meanwhile. `sampled` are the tokens drawn, none if nothing was generated. It is an
        error if and only if the prompt cannot be streamed or a decode call failed. */
    method StreamCompletion(request: Request, outside: Outside) returns (goOn: bool, ghost sampled: seq<Slots.Token>)
      requires Accounted() && request.op.CompleteStream? && At(Streaming(request, 0)) && !stdinEof && !SawError()
      modifies this, chatSlot
      ensures Accounted() && NoMoreInput()
      ensures goOn ==> At(Idle) && !stdinEof
      ensures !goOn ==> writeFailed || (stdinEof && Follow(Idle, log).Streaming?)
      ensures SawError() ==> !stdinEof && BadLengthWaits()
      ensures !writeFailed ==> Said(log) == old(Said(log)) + Slots.Text(chatSlot.model, sampled)
      ensures IsRun(request.op.temperature, outside.draw, chatSlot.model.tokenize(request.op.prompt), sampled)
      ensures goOn && !writeFailed ==> log != [] && log[|log| - 1].Sent?
      ensures goOn && !writeFailed ==>
                if old(CanStream(request.op.prompt)) && chatSlot.faults == old(chatSlot.faults)
                then IsResult(log[|log| - 1].reply, request, outside, sampled)
                else log[|log| - 1].reply.Error? && log[|log| - 1].reply.id == request.id
    {
      hide Drain, Taken, Accounted, Said, Slots.Text, Spoken, IsRun, EndsRun, Slots.Fed, CutFront, Slots.Sampling;
      hide Slots.PromptEntries, Slots.Clamp, CanStream;
      ghost var tokens := chatSlot.model.tokenize(request.op.prompt);
      NothingDrawn(request.op.temperature, outside.draw, tokens);
      sampled := [];
      var failure, base := PrepareStream(request.op.prompt);
      if failure.Some? {
        goOn := WriteFrame(Error(request.id, failure.value));
        return;
      }
      var ok, finish, pieces;
      ok, finish, pieces, sampled := GenerateStream(
        request, tokens, base, Slots.Clamp(request.op.maxTokens, 1, 32768), request.op.temperature, outside.draw);
      assert Said(log) + "" == Said(log);
      if !ok {
        goOn := WriteFrame(Error(request.id, "decode failed mid-generation"));
        return;
      }
      if stdinEof {
        return false, sampled;
      }
      goOn := WriteFrame(StreamResult(request.id, finish, pieces));
    }

    /** The result of a stream that came to an end: as many tokens as had a piece, and why it
        ended, at the cap or because the model did. */
    ghost predicate IsResult(reply: Reply, request: Request, outside: Outside, sampled: seq<Slots.Token>)
      requires request.op.CompleteStream?
      reads chatSlot`model
    {
      var cap := Slots.Clamp(request.op.maxTokens, 1, 32768);
      && reply.StreamResult? && reply.id == request.id
      && reply.tokens == Spoken(chatSlot.model, sampled) && |sampled| <= cap
      && (reply.finish.Length? ==> |sampled| == cap)
      && (reply.finish.Stop? ==>
            |sampled| < cap
            && EndsRun(request.op.temperature, outside.draw, chatSlot.model.tokenize(request.op.prompt), sampled))
    }

    predicate SlotLoaded(slot: Slot)
      reads this, chatSlot, ragpSlot
    {
      match slot
      case Embed => embedLoaded
      case Chat => chatSlot.loaded
      case Ragp => ragpSlot.loaded
      case UnknownSlot(_) => false
    }

    /** The text of a greedy run of the completion slot. */
    ghost predicate IsCompletion(text: string, op: Op)
      requires op.Complete?
      reads this, ragpSlot
    {
      var cap, model := Slots.Clamp(op.maxTokens, 1, 1024), ragpSlot.model;
      exists sampled :: text == Slots.Text(model, sampled)
        && Slots.GreedyRun(model, model.tokenize(op.prompt), cap, op.jsonStop, sampled)
    }

    /** load_model, for each slot: a slot that is reported loaded is. */
    method LoadReply(request: Request, outside: Outside) returns (reply: Reply)
      requires request.op.LoadModel?
      modifies this`embedLoaded, chatSlot, ragpSlot
      ensures Answers(reply, request)
      ensures reply.LoadResult? <==> outside.fileExists && outside.loads && !request.op.slot.UnknownSlot?
      ensures reply.LoadResult? ==> SlotLoaded(request.op.slot)
      ensures reply.LoadResult? && request.op.slot.Chat? ==> chatSlot.model == models(request.op.path)
      ensures reply.LoadResult? && request.op.slot.Ragp? ==> ragpSlot.model == models(request.op.path)
      ensures reply.Error? && SlotLoaded(request.op.slot) ==> old(SlotLoaded(request.op.slot))
    {
      var slot, path := request.op.slot, request.op.path;
      var loaded := false;
      match slot {
        case Embed =>
          loaded := outside.fileExists && outside.loads;
          embedLoaded := loaded || (embedLoaded && !outside.fileExists);
        case Chat => loaded := chatSlot.Load(outside.fileExists, outside.loads, models(path), request.op.nCtx);
        case Ragp => loaded := ragpSlot.Load(outside.fileExists, outside.loads, models(path), 4096);
        case UnknownSlot(_) =>
      }
      reply := if loaded then LoadResult(request.id, slot) else Error(request.id, "not loaded");
    }

    /** A prompt the completion slot can complete. */
    predicate CanComplete(op: Op)
      requires op.Complete?
      reads ragpSlot`loaded, ragpSlot`model, ragpSlot`nCtx
    {
      var n := |ragpSlot.model.tokenize(op.prompt)|;
      ragpSlot.loaded && op.prompt != "" && 0 < n && n + Slots.Clamp(op.maxTokens, 1, 1024) <= ragpSlot.nCtx
    }

    /** The terminal reply to every request other than complete_stream and cancel: an error if
        and only if it cannot be done. */
    method ReplyTo(request: Request, outside: Outside) returns (reply: Reply)
      requires !request.op.CompleteStream? && !request.op.Cancel?
      modifies this`embedLoaded, chatSlot, ragpSlot
      ensures Answers(reply, request)
      ensures reply.LoadResult? ==> SlotLoaded(reply.slot)
      ensures reply.UnloadResult? ==> !SlotLoaded(reply.slot)
      ensures reply.CompleteResult? ==> IsCompletion(reply.text, request.op)
      ensures reply.Error? <==>
                match request.op
                case LoadModel(slot, _, _) => !outside.fileExists || !outside.loads || slot.UnknownSlot?
                case EmbedTexts(texts) => !old(embedLoaded) || texts == [] || !outside.embeds
                case Complete(_, _, _) => !old(CanComplete(request.op)) || ragpSlot.faults != old(ragpSlot.faults)
                case UnsupportedOp(_) => true
                case _ => false
    {
      match request.op {
        case Ping => reply := Pong(request.id);
        case Status => reply := StatusResult(request.id);
        case LoadModel(_, _, _) => reply := LoadReply(request, outside);
        case Unload(slot) =>
          match slot {
            case Embed => embedLoaded := false;
            case Chat => chatSlot.Unload();
            case Ragp => ragpSlot.Unload();
            case UnknownSlot(_) =>
          }
          reply := UnloadResult(request.id, slot);
        case EmbedTexts(texts) =>
          reply := if embedLoaded && texts != [] && outside.embeds
            then EmbedResult(request.id, |texts|) else Error(request.id, "not embedded");
        case Complete(prompt, maxTokens, jsonStop) =>
          var ok, text := false, "";
          if ragpSlot.loaded && prompt != "" {
            ghost var sampled;
            ok, text, sampled := ragpSlot.CompletePrompt(prompt, maxTokens, jsonStop);
          }
          reply := if ok then CompleteResult(request.id, text) else Error(request.id, "not completed");
        case UnsupportedOp(_) => reply := Error(request.id, "unsupported op");
      }
    }

    method Dispatch(request: Request, outside: Outside) returns (goOn: bool)
      requires Accounted() && At(Next(Idle, Took(request))) && !stdinEof && !SawError()
      modifies this, chatSlot, ragpSlot
      ensures Accounted() && NoMoreInput()
      ensures goOn ==> At(Idle) && !stdinEof
      ensures !goOn ==> writeFailed || (stdinEof && Follow(Idle, log).Streaming?)
      ensures SawError() ==> !stdinEof && BadLengthWaits()
    {
      hide Drain, Taken, Accounted, Said;
      if request.op.CompleteStream? {
        ghost var sampled;
        goOn, sampled := StreamCompletion(request, outside);
      } else if request.op.Cancel? {
        goOn := true;
      } else {
        var reply := ReplyTo(request, outside);
        goOn := WriteFrame(reply);
      }
    }

    /** Blocks until a frame can be taken; otherwise the code to exit with. */
    method AwaitFrame() returns (request: Option<Request>, exitCode: int)
      requires Accounted() && At(Idle) && !stdinEof && (SawError() ==> BadLengthWaits())
      modifies this`inBuf, this`stdinEof, this`input, this`arrived, this`log
      ensures Accounted()
      ensures request.Some? ==> At(Next(Idle, Took(request.value))) && !stdinEof
      ensures request.Some? ==> |input| < |old(input)| || (|input| == |old(input)| && |inBuf| < |old(inBuf)|)
      ensures request.None? ==> At(Idle) && Taken(log) == Headers(Drain(codec, arrived, SIDECAR_MIN).frames)
      ensures request.None? ==>
                (exitCode == 0 && stdinEof) || (exitCode == 1 && !stdinEof && !Drain(codec, arrived, SIDECAR_MIN).ok)
      ensures SawError() == old(SawError()) && (SawError() ==> request.None? && exitCode == 1)
    {
      hide Drain, Taken, Accounted, Said;
      var found, next, protoErr := TryExtractFrame();
      while !found
        invariant Accounted() && !stdinEof
        invariant |input| <= |old(input)| && (|input| == |old(input)| && found ==> |inBuf| < |old(inBuf)|)
        invariant At(if found then Next(Idle, Took(next)) else Idle)
        invariant !found ==> Drain(codec, inBuf, SIDECAR_MIN) == Drained([], inBuf, !protoErr)
        invariant SawError() == old(SawError()) && (SawError() ==> !found && protoErr)
        decreases |input|, !found
      {
        NothingInLine(!protoErr);
        if protoErr {
          return None, 1;
        }
        var more := FillFromStdin(true);
        if !more {
          return None, 0;
        }
        found, next, protoErr := TryExtractFrame();
      }
      request, exitCode := Some(next), 0;
    }

    /** With nothing left in line, all frames that arrived have been taken. */
    lemma NothingInLine(ok: bool)
      requires Accounted() && Drain(codec, inBuf, SIDECAR_MIN) == Drained([], inBuf, ok)
      ensures Taken(log) == Headers(Drain(codec, arrived, SIDECAR_MIN).frames)
      ensures Drain(codec, arrived, SIDECAR_MIN).ok == ok
    {
      hide Drain, Taken, Hears;
      assert Headers([]) == [];
    }

    /** What has arrived is what the reads made so far delivered; at the end of stdin, all that
        is in front of its end. */
    ghost predicate Heard()
      reads this`arrived, this`input, this`stdinEof
    {
      && |input| <= |stdin| && arrived == Delivered(stdin[..|stdin| - |input|])
      && (stdinEof ==> arrived == Delivered(UntilEnd(stdin)))
    }

    lemma HeardSoFar()
      requires Accounted()
      ensures Heard()
    {
      hide Accounts, Delivered, UntilEnd;
      if stdinEof {
        AllHeard(stdin, input, arrived);
      }
    }

    /** The process from start to exit. Unless a write failed, the exchange with the host
        followed the protocol throughout, and stopped between requests or, at the end of
        stdin, inside a stream. Frames are taken in order of arrival, and when it stops
        between requests none that arrived whole is left: what arrived is what the reads made
        delivered, and at exit 0 that is all of stdin up to its end. */
    method Run() returns (exitCode: int)
      requires inBuf == [] && arrived == [] && !stdinEof && log == [] && !writeFailed && input == stdin
      modifies this, chatSlot, ragpSlot
      ensures Accounted()
      ensures writeFailed || Follow(Idle, log) == Idle || (stdinEof && Follow(Idle, log).Streaming?)
      ensures !writeFailed && Follow(Idle, log) == Idle ==>
                Taken(log) == Headers(Drain(codec, arrived, SIDECAR_MIN).frames)
      ensures Heard() && (exitCode == 0 ==> stdinEof)
      ensures exitCode != 0 ==> exitCode == 1 && (writeFailed || !Drain(codec, arrived, SIDECAR_MIN).ok)
      // a framing error seen inside a stream is seen again and ends the process
      ensures SawError() ==> exitCode == 1 && !stdinEof
    {
      NothingYet();
      hide Drain, Taken, Follow, Next, Accounted, Said, Heard;
      var ok := WriteFrame(Hello);
      if !ok {
        HeardSoFar();
        return 1;
      }
      while true
        invariant Accounted() && At(Idle) && !stdinEof && (SawError() ==> BadLengthWaits())
        decreases |input|, |inBuf|
      {
        var request, code := AwaitFrame();
        if request.None? {
          HeardSoFar();
          return code;
        }
        var outside: Outside := *;
        ok := Dispatch(request.value, outside);
        if !ok {
          HeardSoFar();
          return if stdinEof then 0 else 1;
        }
      }
    }
  }
}
