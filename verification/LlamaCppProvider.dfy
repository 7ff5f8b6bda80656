/**
  The local provider's stale-stream filter (backend/api/llamacpp-provider.cpp): one stream at a
  time, chunks and finishes of any other stream dropped.

  The host is the environment: it says whether it is available, hands out stream ids, and may
  deliver chunk and finish events of any stream it ever issued, in any order, any number of
  times. Chunks are given as the inline-thinking hoister leaves them.
 */
module LlamaCppProvider {

  datatype Signal =
    | Chunk(content: string, thinking: string)
    | FinalChunk(reason: string, tokens: int)
    | Finished(reason: string, tokens: int)
    | Failed(message: string)

  const NO_MODEL := "No local model is loaded. Choose a model file in the llama.cpp provider settings first."
  const NO_ENGINE := "Local inference is unavailable because the verzeta-inference engine is not running."
  const SHUTTING_DOWN := "Local inference is shutting down, so the request was not started."
  const FAILED := "Local inference failed while generating the reply."

  /** What the provider asks of the host. */
  datatype HostCall = CancelStream(id: nat) | StartStream(contextWindow: int, maxTokens: int)

  datatype State = State(active: nat, contextWindow: int)

  datatype Step = Step(state: State, calls: seq<HostCall>, signals: seq<Signal>)

  class LlamaCppProvider {
    var modelPath: string
    var activeStreamId: nat
    var lastRequestedCtx: int
    var calls: seq<HostCall>
    var signals: seq<Signal>

    constructor ()
      ensures modelPath == "" && Now() == State(0, 8192) && calls == [] && signals == []
    {
      modelPath, activeStreamId, lastRequestedCtx, calls, signals := "", 0, 8192, [], [];
    }

    function Now(): State
      reads this`activeStreamId, this`lastRequestedCtx
    {
      State(activeStreamId, lastRequestedCtx)
    }

    method Emit(s: Signal)
      modifies this`signals
      ensures signals == old(signals) + [s]
    {
      signals := signals + [s];
    }

    /** `started` is the id the host answers a start with, 0 when it starts nothing. */
    method SendRequest(hostAvailable: bool, contextWindow: int, maxTokens: int, started: nat)
      modifies this`activeStreamId, this`lastRequestedCtx, this`calls, this`signals
      ensures Step(Now(), calls, signals)
              == After(old(calls), old(signals),
                OnSend(old(Now()), modelPath != "", hostAvailable, contextWindow, maxTokens, started))
    {
      assert calls + [] == calls && signals + [] == signals;
      if modelPath == "" {
        Emit(Failed(NO_MODEL));
        return;
      }
      if !hostAvailable {
        Emit(Failed(NO_ENGINE));
        return;
      }
      if activeStreamId != 0 {
        calls := calls + [CancelStream(activeStreamId)];
        activeStreamId := 0;
      }
      ghost var cancelled := Cancelled(old(Now()).active);
      assert calls == old(calls) + cancelled;
      lastRequestedCtx := if contextWindow > 0 then contextWindow else lastRequestedCtx;
      var start := StartStream(lastRequestedCtx, if maxTokens > 0 then maxTokens else 1024);
      calls := calls + [start];
      assert (old(calls) + cancelled) + [start] == old(calls) + (cancelled + [start]);
      activeStreamId := started;
      if activeStreamId == 0 {
        Emit(Failed(SHUTTING_DOWN));
      }
    }

    method CancelRequest()
      modifies this`calls
      ensures calls == old(calls) + Cancelled(activeStreamId)
    {
      if activeStreamId != 0 {
        calls := calls + [CancelStream(activeStreamId)];
      } else {
        assert calls + [] == calls;
      }
    }

    method OnChatStreamChunk(streamId: nat, content: string, thinking: string)
      modifies this`signals
      ensures signals == old(signals) + OnChunk(Now(), streamId, content, thinking)
    {
      assert signals + [] == signals;
      if streamId != activeStreamId || activeStreamId == 0 {
        return;
      }
      if content == "" && thinking == "" {
        return;
      }
      Emit(Chunk(content, thinking));
    }

    method OnChatStreamFinished(streamId: nat, ok: bool, finishReason: string, tokens: int, error: string)
      modifies this`activeStreamId, this`signals
      ensures Step(Now(), calls, signals)
              == After(calls, old(signals), OnFinished(old(Now()), streamId, ok, finishReason, tokens, error))
    {
      assert signals + [] == signals && calls + [] == calls;
      if streamId != activeStreamId || activeStreamId == 0 {
        return;
      }
      activeStreamId := 0;
      if !ok {
        Emit(Failed(if error == "" then FAILED else error));
        return;
      }
      Emit(FinalChunk(finishReason, tokens));
      Emit(Finished(finishReason, tokens));
    }
  }

  // ------------------------------------------------------------------ the provider's steps

  function After(calls: seq<HostCall>, signals: seq<Signal>, step: Step): Step {
    Step(step.state, calls + step.calls, signals + step.signals)
  }

  function Cancelled(active: nat): seq<HostCall> {
    if active != 0 then [CancelStream(active)] else []
  }

  function OnSend(st: State, hasModel: bool, hostAvailable: bool, contextWindow: int, maxTokens: int,
                  started: nat): Step
  {
    if !hasModel then Step(st, [], [Failed(NO_MODEL)])
    else if !hostAvailable then Step(st, [], [Failed(NO_ENGINE)])
    else
      var ctx := if contextWindow > 0 then contextWindow else st.contextWindow;
      Step(State(started, ctx), Cancelled(st.active) + [StartStream(ctx, if maxTokens > 0 then maxTokens else 1024)],
           if started == 0 then [Failed(SHUTTING_DOWN)] else [])
  }

  function OnChunk(st: State, streamId: nat, content: string, thinking: string): seq<Signal> {
    if streamId == st.active != 0 && (content != "" || thinking != "") then [Chunk(content, thinking)] else []
  }

  function OnFinished(st: State, streamId: nat, ok: bool, reason: string, tokens: int, error: string): Step {
    if streamId != st.active || st.active == 0 then Step(st, [], [])
    else Step(st.(active := 0), [],
              if ok then [FinalChunk(reason, tokens), Finished(reason, tokens)]
              else [Failed(if error == "" then FAILED else error)])
  }

  // ------------------------------------------------------------------ runs against any host

  /** What happens in a run. A stream is named by its number, in the order they were started,
      so that an event has an origin of its own whatever id it carries. */
  datatype Event =
    | Send(hasModel: bool, hostAvailable: bool, contextWindow: int, maxTokens: int, started: nat)
    | Cancel
    | StreamChunk(stream: nat, content: string, thinking: string)
    | StreamFinished(stream: nat, ok: bool, reason: string, tokens: int, error: string)

  /** A stream: the id the host gave it and the number of the request it was started for. */
  datatype Stream = Stream(id: nat, request: nat)

  /** A signal, with the request it answers and, for a forwarded event, its stream. */
  datatype Sent = Sent(signal: Signal, request: nat)

  datatype World = World(provider: State, requests: nat, streams: seq<Stream>, sent: seq<Sent>)

  function Tag(signals: seq<Signal>, request: nat): seq<Sent> {
    seq(|signals|, i requires 0 <= i < |signals| => Sent(signals[i], request))
  }

  /** The environment: the host never gives an id out twice, and delivers events only of
      streams it has started. */
  predicate Legal(w: World, e: Event) {
    match e
    case Send(hasModel, hostAvailable, _, _, started) => started == 0 || Fresh(w, started)
    case Cancel => true
    case StreamChunk(stream, _, _) => stream < |w.streams|
    case StreamFinished(stream, _, _, _, _) => stream < |w.streams|
  }

  predicate Fresh(w: World, id: nat) {
    forall s | 0 <= s < |w.streams| :: w.streams[s].id != id
  }

  function Happen(w: World, e: Event): World
    requires Legal(w, e)
  {
    match e
    case Send(hasModel, hostAvailable, contextWindow, maxTokens, started) =>
      var step := OnSend(w.provider, hasModel, hostAvailable, contextWindow, maxTokens, started);
      World(step.state, w.requests + 1,
            if hasModel && hostAvailable && started != 0 then w.streams + [Stream(started, w.requests)] else w.streams,
            w.sent + Tag(step.signals, w.requests))
    case Cancel => w
    case StreamChunk(stream, content, thinking) =>
      var signals := OnChunk(w.provider, w.streams[stream].id, content, thinking);
      w.(sent := w.sent + Tag(signals, w.streams[stream].request))
    case StreamFinished(stream, ok, reason, tokens, error) =>
      var step := OnFinished(w.provider, w.streams[stream].id, ok, reason, tokens, error);
      w.(provider := step.state, sent := w.sent + Tag(step.signals, w.streams[stream].request))
  }

  const START := World(State(0, 8192), 0, [], [])

  ghost predicate LegalRun(events: seq<Event>)
    decreases |events|, 0
  {
    events == [] || (LegalRun(events[..|events| - 1]) && Legal(Run(events[..|events| - 1]), events[|events| - 1]))
  }

  ghost function Run(events: seq<Event>): World
    requires LegalRun(events)
    decreases |events|, 1
  {
    if events == [] then START else Happen(Run(events[..|events| - 1]), events[|events| - 1])
  }

  predicate IsTerminal(s: Signal) {
    s.Finished? || s.Failed?
  }

  predicate Answered(w: World, request: nat) {
    exists i | 0 <= i < |w.sent| :: IsTerminal(w.sent[i].signal) && w.sent[i].request == request
  }

  /** No request is answered twice. */
  predicate AnsweredOnce(w: World) {
    forall i, j | 0 <= i < j < |w.sent| && IsTerminal(w.sent[i].signal) && IsTerminal(w.sent[j].signal) ::
      w.sent[i].request != w.sent[j].request
  }

  predicate DistinctIds(w: World) {
    forall i, j | 0 <= i < j < |w.streams| :: w.streams[i].id != w.streams[j].id
  }

  /** What every run keeps: ids are distinct and not 0; the stream the provider listens to is
      the one started last and its request is not answered; nothing is said of requests to
      come; no request is answered twice. */
  ghost predicate Kept(w: World) {
    && DistinctIds(w)
    && (forall s | 0 <= s < |w.streams| :: w.streams[s].id != 0 && w.streams[s].request < w.requests)
    && (forall s, t | 0 <= s < t < |w.streams| :: w.streams[s].request < w.streams[t].request)
    && (w.provider.active != 0 ==>
          w.streams != [] && w.provider.active == w.streams[|w.streams| - 1].id
          && !Answered(w, w.streams[|w.streams| - 1].request))
    && (forall i | 0 <= i < |w.sent| :: w.sent[i].request < w.requests)
    && AnsweredOnce(w)
  }

  /** A chunk or finish is let through exactly when its stream is the one the provider listens
      to, and that is the stream started last. */
  lemma OnlyTheLatest(w: World, stream: nat)
    requires Kept(w) && stream < |w.streams|
    ensures w.streams[stream].id == w.provider.active <==> w.provider.active != 0 && stream == |w.streams| - 1
  {}

  lemma TerminalTag(w: World, signals: seq<Signal>, request: nat, more: World)
    requires more.sent == w.sent + Tag(signals, request)
    requires forall i | 0 <= i < |signals| - 1 :: !IsTerminal(signals[i])
    requires AnsweredOnce(w) && !Answered(w, request)
    ensures AnsweredOnce(more)
    ensures forall r | r != request :: Answered(more, r) <==> Answered(w, r)
    ensures Answered(more, request) <==> signals != [] && IsTerminal(signals[|signals| - 1])
  {
    forall r | Answered(w, r) ensures Answered(more, r) {
      var i :| 0 <= i < |w.sent| && IsTerminal(w.sent[i].signal) && w.sent[i].request == r;
      assert more.sent[i] == w.sent[i];
    }
    forall i | |w.sent| <= i < |more.sent| ensures more.sent[i] == Sent(signals[i - |w.sent|], request) {}
    if signals != [] && IsTerminal(signals[|signals| - 1]) {
      assert more.sent[|more.sent| - 1].request == request;
    }
  }

  lemma SendKeeps(w: World, e: Event)
    requires Kept(w) && e.Send? && Legal(w, e)
    ensures Kept(Happen(w, e))
  {
    var next := Happen(w, e);
    var step := OnSend(w.provider, e.hasModel, e.hostAvailable, e.contextWindow, e.maxTokens, e.started);
    assert !Answered(w, w.requests);
    TerminalTag(w, step.signals, w.requests, next);
    hide Answered, AnsweredOnce;
  }

  lemma ChunkKeeps(w: World, e: Event)
    requires Kept(w) && e.StreamChunk? && Legal(w, e)
    ensures Kept(Happen(w, e))
  {
    var next := Happen(w, e);
    var signals := OnChunk(w.provider, w.streams[e.stream].id, e.content, e.thinking);
    OnlyTheLatest(w, e.stream);
    if signals == [] {
      assert w.sent + Tag([], w.streams[e.stream].request) == w.sent;
    } else {
      TerminalTag(w, signals, w.streams[e.stream].request, next);
      hide Answered, AnsweredOnce;
    }
  }

  lemma FinishKeeps(w: World, e: Event)
    requires Kept(w) && e.StreamFinished? && Legal(w, e)
    ensures Kept(Happen(w, e))
  {
    var next := Happen(w, e);
    var step := OnFinished(w.provider, w.streams[e.stream].id, e.ok, e.reason, e.tokens, e.error);
    OnlyTheLatest(w, e.stream);
    if step.signals == [] {
      assert w.sent + Tag([], w.streams[e.stream].request) == w.sent;
    } else {
      TerminalTag(w, step.signals, w.streams[e.stream].request, next);
      hide Answered, AnsweredOnce;
    }
  }

  lemma {:induction false} RunKeeps(events: seq<Event>)
    requires LegalRun(events)
    ensures Kept(Run(events))
  {
    if events != [] {
      var w, e := Run(events[..|events| - 1]), events[|events| - 1];
      RunKeeps(events[..|events| - 1]);
      hide Kept, Happen;
      match e {
        case Send(_, _, _, _, _) => SendKeeps(w, e);
        case Cancel => assert Happen(w, e) == w by { CancelNothing(w); }
        case StreamChunk(_, _, _) => ChunkKeeps(w, e);
        case StreamFinished(_, _, _, _, _) => FinishKeeps(w, e);
      }
    }
  }

  lemma CancelNothing(w: World)
    ensures Happen(w, Cancel) == w
  {}

  /** Whatever the host delivers, no request gets a second terminal signal. */
  lemma AtMostOneTerminal(events: seq<Event>)
    requires LegalRun(events)
    ensures AnsweredOnce(Run(events))
  {
    RunKeeps(events);
  }

  /** A chunk is forwarded only from the stream started last, and only before its request is
      answered; it then carries what the host delivered. */
  lemma ChunksOnlyFromTheLiveStream(events: seq<Event>, e: Event)
    requires LegalRun(events) && e.StreamChunk? && Legal(Run(events), e)
    ensures var w := Run(events);
            var next := Happen(w, e);
            next.sent != w.sent ==>
              && e.stream == |w.streams| - 1
              && !Answered(w, w.streams[e.stream].request)
              && next.sent == w.sent + [Sent(Chunk(e.content, e.thinking), w.streams[e.stream].request)]
  {
    var w := Run(events);
    RunKeeps(events);
    OnlyTheLatest(w, e.stream);
    assert w.sent + Tag([], w.streams[e.stream].request) == w.sent;
    hide Run, LegalRun;
    assert Tag([Chunk(e.content, e.thinking)], w.streams[e.stream].request)
           == [Sent(Chunk(e.content, e.thinking), w.streams[e.stream].request)];
  }

  /** A finish answers its request exactly when the provider still listens to its stream. */
  lemma FinishAnswersIff(events: seq<Event>, e: Event)
    requires LegalRun(events) && e.StreamFinished? && Legal(Run(events), e)
    ensures var w := Run(events);
            var request := w.streams[e.stream].request;
            !Answered(w, request) ==>
              (Answered(Happen(w, e), request) <==> w.provider.active != 0 && e.stream == |w.streams| - 1)
  {
    var w := Run(events);
    RunKeeps(events);
    OnlyTheLatest(w, e.stream);
    var request := w.streams[e.stream].request;
    var step := OnFinished(w.provider, w.streams[e.stream].id, e.ok, e.reason, e.tokens, e.error);
    if !Answered(w, request) {
      TerminalTag(w, step.signals, request, Happen(w, e));
    }
  }

  /** The provider no longer listens to a stream: another was started, or it was given up. */
  predicate Dropped(w: World, stream: nat) {
    w.provider.active == 0 || stream != |w.streams| - 1
  }

  lemma DroppedStep(w: World, e: Event, stream: nat)
    requires Kept(w) && Legal(w, e) && stream < |w.streams|
    requires Dropped(w, stream) && !Answered(w, w.streams[stream].request)
    ensures var next := Happen(w, e);
            && stream < |next.streams| && next.streams[stream] == w.streams[stream]
            && Dropped(next, stream) && !Answered(next, w.streams[stream].request)
  {
    var next, request := Happen(w, e), w.streams[stream].request;
    match e {
      case Send(hasModel, hostAvailable, contextWindow, maxTokens, started) =>
        assert !Answered(w, w.requests);
        TerminalTag(w, OnSend(w.provider, hasModel, hostAvailable, contextWindow, maxTokens, started).signals,
          w.requests, next);
      case Cancel =>
      case StreamChunk(s, content, thinking) =>
        OnlyTheLatest(w, s);
        if next.sent == w.sent {
        } else {
          TerminalTag(w, OnChunk(w.provider, w.streams[s].id, content, thinking), w.streams[s].request, next);
        }
      case StreamFinished(s, ok, reason, tokens, error) =>
        OnlyTheLatest(w, s);
        if w.provider.active != 0 && s == |w.streams| - 1 {
          TerminalTag(w, OnFinished(w.provider, w.streams[s].id, ok, reason, tokens, error).signals,
            w.streams[s].request, next);
        } else {
          assert w.sent + Tag([], w.streams[s].request) == w.sent;
        }
    }
  }

  /** So a request whose stream was dropped before it was answered gets no terminal signal,
      whatever the host delivers from then on. */
  lemma {:induction false} DroppedIsNeverAnswered(events: seq<Event>, more: seq<Event>, stream: nat)
    requires LegalRun(events) && LegalRun(events + more)
    requires var w := Run(events);
             stream < |w.streams| && Dropped(w, stream) && !Answered(w, w.streams[stream].request)
    ensures var end := Run(events + more);
            && stream < |end.streams| && end.streams[stream] == Run(events).streams[stream]
            && Dropped(end, stream) && !Answered(end, end.streams[stream].request)
    decreases |more|
  {
    if more == [] {
      assert events + more == events;
    } else {
      var init := more[..|more| - 1];
      assert (events + more)[..|events + more| - 1] == events + init;
      DroppedIsNeverAnswered(events, init, stream);
      RunKeeps(events + init);
      hide Run, Kept, Happen, Dropped, Answered;
      DroppedStep(Run(events + init), more[|more| - 1], stream);
      RunSnoc(events + more);
    }
  }

  lemma RunSnoc(events: seq<Event>)
    requires LegalRun(events) && events != []
    ensures Legal(Run(events[..|events| - 1]), events[|events| - 1])
    ensures Run(events) == Happen(Run(events[..|events| - 1]), events[|events| - 1])
  {}

  /** It does happen: a second request while the first one streams drops the first. */
  lemma SecondRequestDropsTheFirst(contextWindow: int, maxTokens: int)
    ensures var run := [Send(true, true, contextWindow, maxTokens, 1), Send(true, true, contextWindow, maxTokens, 2)];
            LegalRun(run) && |Run(run).streams| == 2 && Dropped(Run(run), 0) && !Answered(Run(run), 0)
  {
    var first, second := Send(true, true, contextWindow, maxTokens, 1), Send(true, true, contextWindow, maxTokens, 2);
    assert [first, second][..1] == [first] && [first][..0] == [];
    assert LegalRun([]) && LegalRun([first]);
    assert Run([first]).streams == [Stream(1, 0)] && Run([first]).sent == [];
    assert Fresh(Run([first]), 2);
  }

  // ------------------------------------------------------------------ answered, over the whole run

  /** The number of requests in a run, and of streams it started. */
  function Sends(events: seq<Event>): nat {
    if events == [] then 0 else
    Sends(events[..|events| - 1]) + if events[|events| - 1].Send? then 1 else 0
  }

  /** A send that gets past the model and host checks. */
  predicate ReachesHost(e: Event) {
    e.Send? && e.hasModel && e.hostAvailable
  }

  predicate Starts(e: Event) {
    ReachesHost(e) && e.started != 0
  }

  function Started(events: seq<Event>): nat {
    if events == [] then 0 else
    Started(events[..|events| - 1]) + if Starts(events[|events| - 1]) then 1 else 0
  }

  /** A stream's number and its request's. */
  datatype Begun = Begun(stream: nat, request: nat) | NoneBegun

  /** What the last send that reached the host began. */
  function Current(events: seq<Event>): Begun {
    if events == [] then NoneBegun else
    var init, last := events[..|events| - 1], events[|events| - 1];
    if Starts(last) then Begun(Started(init), Sends(init))
    else if ReachesHost(last) then NoneBegun
    else Current(init)
  }

  /** Event `k` answers a request: its send is refused, or its stream finishes while no later
      send has reached the host. */
  predicate AnswersAt(events: seq<Event>, k: nat, request: nat)
    requires k < |events|
  {
    match events[k]
    case Send(_, _, _, _, _) => !Starts(events[k]) && Sends(events[..k]) == request
    case StreamFinished(stream, _, _, _, _) => Current(events[..k]) == Begun(stream, request)
    case _ => false
  }

  predicate AnsweredOver(events: seq<Event>, request: nat) {
    exists k | 0 <= k < |events| :: AnswersAt(events, k, request)
  }

  lemma AnsweredOverSnoc(events: seq<Event>, request: nat)
    requires events != []
    ensures AnsweredOver(events, request) <==>
            AnsweredOver(events[..|events| - 1], request) || AnswersAt(events, |events| - 1, request)
  {
    var init := events[..|events| - 1];
    forall k | 0 <= k < |init| ensures AnswersAt(init, k, request) == AnswersAt(events, k, request) {
      assert init[..k] == events[..k] && init[k] == events[k];
    }
    hide AnswersAt;
    if AnsweredOver(init, request) {
      var k :| 0 <= k < |init| && AnswersAt(init, k, request);
      assert AnswersAt(events, k, request);
    }
  }

  /** Where the provider stands, told from the events alone: it listens to the stream begun
      last unless that stream's request has been answered. */
  ghost predicate Follows(events: seq<Event>, w: World) {
    && w.requests == Sends(events) && |w.streams| == Started(events)
    && match Current(events)
       case NoneBegun => w.provider.active == 0
       case Begun(stream, request) =>
         && stream == |w.streams| - 1 && stream >= 0 && w.streams[stream].request == request
         && (w.provider.active != 0 <==> !Answered(w, request))
  }

  lemma SendFollows(events: seq<Event>, w: World)
    requires events != [] && events[|events| - 1].Send?
    requires Kept(w) && Follows(events[..|events| - 1], w) && Legal(w, events[|events| - 1])
    ensures Follows(events, Happen(w, events[|events| - 1]))
    ensures forall r :: Answered(Happen(w, events[|events| - 1]), r) <==>
                        Answered(w, r) || AnswersAt(events, |events| - 1, r)
  {
    var e := events[|events| - 1];
    var next := Happen(w, e);
    var step := OnSend(w.provider, e.hasModel, e.hostAvailable, e.contextWindow, e.maxTokens, e.started);
    assert !Answered(w, w.requests);
    TerminalTag(w, step.signals, w.requests, next);
    assert Sends(events) == Sends(events[..|events| - 1]) + 1;
    hide Answered, AnsweredOnce, Sends, Started;
  }

  lemma FinishFollows(events: seq<Event>, w: World)
    requires events != [] && events[|events| - 1].StreamFinished?
    requires Kept(w) && Follows(events[..|events| - 1], w) && Legal(w, events[|events| - 1])
    ensures Follows(events, Happen(w, events[|events| - 1]))
    ensures forall r :: Answered(Happen(w, events[|events| - 1]), r) <==>
                        Answered(w, r) || AnswersAt(events, |events| - 1, r)
  {
    var e := events[|events| - 1];
    var next, request := Happen(w, e), w.streams[e.stream].request;
    OnlyTheLatest(w, e.stream);
    var signals := OnFinished(w.provider, w.streams[e.stream].id, e.ok, e.reason, e.tokens, e.error).signals;
    if w.provider.active != 0 && e.stream == |w.streams| - 1 {
      TerminalTag(w, signals, request, next);
      hide Answered, AnsweredOnce;
    } else {
      assert w.sent + Tag([], request) == w.sent;
      assert next == w;
    }
  }

  lemma OtherFollows(events: seq<Event>, w: World)
    requires events != [] && (events[|events| - 1].Cancel? || events[|events| - 1].StreamChunk?)
    requires Kept(w) && Follows(events[..|events| - 1], w) && Legal(w, events[|events| - 1])
    ensures Follows(events, Happen(w, events[|events| - 1]))
    ensures forall r :: Answered(Happen(w, events[|events| - 1]), r) <==>
                        Answered(w, r) || AnswersAt(events, |events| - 1, r)
  {
    var e := events[|events| - 1];
    if e.StreamChunk? {
      ChunkAnswersNone(w, e);
      hide Answered;
    }
  }

  lemma ChunkAnswersNone(w: World, e: Event)
    requires e.StreamChunk? && Legal(w, e)
    ensures var next := Happen(w, e);
            next == w.(sent := next.sent) && forall r :: Answered(next, r) <==> Answered(w, r)
  {
    var next := Happen(w, e);
    forall r ensures Answered(next, r) <==> Answered(w, r) {
      if Answered(w, r) {
        var i :| 0 <= i < |w.sent| && IsTerminal(w.sent[i].signal) && w.sent[i].request == r;
        assert next.sent[i] == w.sent[i];
      }
    }
  }

  lemma {:induction false} RunFollows(events: seq<Event>)
    requires LegalRun(events)
    ensures Follows(events, Run(events))
    ensures forall r :: Answered(Run(events), r) <==> AnsweredOver(events, r)
  {
    if events != [] {
      var init, last := events[..|events| - 1], events[|events| - 1];
      RunFollows(init);
      RunKeeps(init);
      var w := Run(init);
      RunSnoc(events);
      hide Run, Kept, Happen, Follows, Answered, AnsweredOver, AnswersAt;
      match last {
        case Send(_, _, _, _, _) => SendFollows(events, w);
        case StreamFinished(_, _, _, _, _) => FinishFollows(events, w);
        case _ => OtherFollows(events, w);
      }
      forall r ensures Answered(Run(events), r) <==> AnsweredOver(events, r) {
        AnsweredOverSnoc(events, r);
      }
    }
  }

  /** Against any host, whatever it delivers: a request gets a terminal signal if and only if
      its send was refused, or a finish of its stream was delivered before the next send that
      got past the model and host checks; and by then exactly one. */
  lemma AnsweredIff(events: seq<Event>, request: nat)
    requires LegalRun(events)
    ensures Answered(Run(events), request) <==> AnsweredOver(events, request)
    ensures AnsweredOnce(Run(events))
  {
    RunFollows(events);
    AtMostOneTerminal(events);
  }

  // ------------------------------------------------------------------ every signal, told from the events

  /** The stream a run has under way: the one begun last, while its request is unanswered. */
  predicate UnderWay(events: seq<Event>, stream: nat) {
    Current(events).Begun? && Current(events).stream == stream && !AnsweredOver(events, Current(events).request)
  }

  /** What one more event signals: a refused send its reason, and a chunk or a finish of the
      stream under way what the host delivered, to the request that stream is for. */
  function Due(events: seq<Event>, e: Event): seq<Sent> {
    match e
    case Send(hasModel, hostAvailable, _, _, started) =>
      if !hasModel then [Sent(Failed(NO_MODEL), Sends(events))]
      else if !hostAvailable then [Sent(Failed(NO_ENGINE), Sends(events))]
      else if started == 0 then [Sent(Failed(SHUTTING_DOWN), Sends(events))]
      else []
    case Cancel => []
    case StreamChunk(stream, content, thinking) =>
      if UnderWay(events, stream) && (content != "" || thinking != "")
      then [Sent(Chunk(content, thinking), Current(events).request)] else []
    case StreamFinished(stream, ok, reason, tokens, error) =>
      if !UnderWay(events, stream) then []
      else if ok then [Sent(FinalChunk(reason, tokens), Current(events).request),
                       Sent(Finished(reason, tokens), Current(events).request)]
      else [Sent(Failed(if error != "" then error else FAILED), Current(events).request)]
  }

  function AllDue(events: seq<Event>): seq<Sent> {
    if events == [] then [] else
    AllDue(events[..|events| - 1]) + Due(events[..|events| - 1], events[|events| - 1])
  }

  lemma UnderWayIff(events: seq<Event>, stream: nat)
    requires LegalRun(events) && stream < |Run(events).streams|
    ensures var w := Run(events);
            && (UnderWay(events, stream) <==> w.streams[stream].id == w.provider.active != 0)
            && (UnderWay(events, stream) ==> w.streams[stream].request == Current(events).request)
  {
    RunFollows(events);
    RunKeeps(events);
    OnlyTheLatest(Run(events), stream);
    hide Run, LegalRun, AnsweredOver, Answered, Current, Kept;
  }

  lemma OneMoreIsDue(events: seq<Event>, e: Event)
    requires LegalRun(events) && Legal(Run(events), e)
    ensures Happen(Run(events), e).sent == Run(events).sent + Due(events, e)
  {
    var w := Run(events);
    RunFollows(events);
    match e {
      case StreamChunk(stream, _, _) => UnderWayIff(events, stream);
      case StreamFinished(stream, _, _, _, _) => UnderWayIff(events, stream);
      case _ =>
    }
    hide Run, LegalRun, UnderWay, Current, Sends, Started, AnsweredOver;
    assert w.sent + [] == w.sent;
  }

  /** Against any host: all that a run signals, and to which request, told from its events. */
  lemma {:induction false} SignalsAreDue(events: seq<Event>)
    requires LegalRun(events)
    ensures Run(events).sent == AllDue(events)
  {
    if events != [] {
      var init, e := events[..|events| - 1], events[|events| - 1];
      SignalsAreDue(init);
      RunSnoc(events);
      hide Run, Due, Happen;
      OneMoreIsDue(init, e);
    }
  }

  /** The context window asked for last: the last positive one of a send that reached the host. */
  function LastWindow(events: seq<Event>): int {
    if events == [] then 8192 else
    var e := events[|events| - 1];
    if ReachesHost(e) && e.contextWindow > 0 then e.contextWindow else LastWindow(events[..|events| - 1])
  }

  lemma {:induction false} WindowIsLast(events: seq<Event>)
    requires LegalRun(events)
    ensures Run(events).provider.contextWindow == LastWindow(events)
  {
    if events != [] {
      WindowIsLast(events[..|events| - 1]);
    }
  }

  /** What a send that reaches the host asks for: that the stream under way, if there is one, be
      cancelled, and then a new one, with the window asked for, or the last one that was, and
      1024 tokens when no number is given. */
  lemma SendAsks(events: seq<Event>, e: Event)
    requires LegalRun(events) && e.Send? && ReachesHost(e)
    ensures var w := Run(events);
            var calls := OnSend(w.provider, true, true, e.contextWindow, e.maxTokens, e.started).calls;
            && calls != [] && calls[|calls| - 1]
               == StartStream(if e.contextWindow > 0 then e.contextWindow else LastWindow(events),
                              if e.maxTokens > 0 then e.maxTokens else 1024)
            && (forall stream: nat | stream < |w.streams| && UnderWay(events, stream) ::
                  calls[..|calls| - 1] == [CancelStream(w.streams[stream].id)])
            && ((forall stream: nat | stream < |w.streams| :: !UnderWay(events, stream)) ==> |calls| == 1)
  {
    var w := Run(events);
    WindowIsLast(events);
    RunKeeps(events);
    forall stream: nat | stream < |w.streams|
      ensures UnderWay(events, stream) <==> w.streams[stream].id == w.provider.active != 0
    {
      UnderWayIff(events, stream);
    }
    hide Run, UnderWay, LastWindow, Answered;
    assert w.provider.active != 0 ==> UnderWay(events, |w.streams| - 1);
  }
}
