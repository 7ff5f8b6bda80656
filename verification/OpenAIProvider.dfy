/**
  The OpenAI provider's stream assembly (backend/api/openai-provider.cpp): tool calls put
  together from deltas keyed by index, and the terminal signals of a request.

  Content is what the inline-thinking hoister leaves. Cleaning a tool name up is an oracle,
  `sanitise`, and so is reading the joined arguments, `parseArgs`: the text of the JSON
  object they are, if they are one.
 */
module OpenAIProvider {
  import opened Common

  datatype ToolDelta = ToolDelta(index: int, id: string, name: string, args: string)

  /** One line of the stream, by what the parser does with it. */
  datatype Line =
    | Ignored                                  // empty, unparsable, or no choices
    | ErrorObject(message: string)
    | Choice(content: string, thinking: string, tools: seq<ToolDelta>, finishReason: string)

  datatype PendingCall = PendingCall(id: string, name: string, args: string)

  datatype Signal =
    | Chunk(delta: string, thinking: string)
    | ToolCall(id: string, name: string, argsObj: string)
    | FinalChunk(reason: string)
    | Finished(reason: string)
    | Failed(message: string)

  const NO_MESSAGE := "The provider returned an error."

  const NO_KEY := "OpenAI API key not configured"
  const NO_TOOLS := "GPT-6 Astra cannot use tools through the Chat Completions API. "
    + "Turn off Tools for this conversation, or choose GPT-6 Sol or GPT-6 Luna."

  type Pending = map<int, PendingCall>

  /** QMap::operator[]: a call not there yet starts empty. */
  function At(pending: Pending, k: int): PendingCall {
    if k in pending then pending[k] else PendingCall("", "", "")
  }

  function Absorb(sanitise: string -> string, call: PendingCall, d: ToolDelta): PendingCall {
    PendingCall(
      if d.id != "" then d.id else call.id,
      if sanitise(d.name) != "" then sanitise(d.name) else call.name,
      call.args + d.args)
  }

  function AbsorbAll(sanitise: string -> string, pending: Pending, deltas: seq<ToolDelta>): Pending {
    if deltas == [] then pending else
    var d := deltas[|deltas| - 1];
    var before := AbsorbAll(sanitise, pending, deltas[..|deltas| - 1]);
    before[d.index := Absorb(sanitise, At(before, d.index), d)]
  }

  /** A reason that ends the response at once; "tool_calls" waits for the end of the stream. */
  predicate EndsNow(line: Line) {
    line.Choice? && line.finishReason != "" && line.finishReason != "null" && line.finishReason != "tool_calls"
  }

  /** The call the app receives; arguments that are no JSON object become the empty one. */
  function Handed(parseArgs: string -> Option<string>, call: PendingCall): Signal {
    ToolCall(call.id, call.name,
      if call.args == "" then "{}" else match parseArgs(call.args) case Some(obj) => obj case None => "{}")
  }

  class OpenAIProvider {
    const sanitise: string -> string
    const parseArgs: string -> Option<string>
    var pendingToolCalls: Pending
    var finishedEmitted: bool
    var signals: seq<Signal>

    constructor (sanitise: string -> string, parseArgs: string -> Option<string>)
      ensures this.sanitise == sanitise && this.parseArgs == parseArgs
      ensures Now() == State(map[], false) && signals == []
    {
      this.sanitise, this.parseArgs := sanitise, parseArgs;
      pendingToolCalls, finishedEmitted, signals := map[], false, [];
    }

    function Now(): State
      reads this
    {
      State(pendingToolCalls, finishedEmitted)
    }

    /** `keyMissing`: a key is required and none is set. `toolsRefused`: the model takes no tools
        over this API and the request has some. Either way nothing is sent. */
    method SendRequest(keyMissing: bool, toolsRefused: bool)
      modifies this
      ensures Now() == if keyMissing then old(Now()) else State(map[], false)
      ensures signals == old(signals) + if keyMissing then [Failed(NO_KEY)]
              else if toolsRefused then [Failed(NO_TOOLS)] else []
    {
      if keyMissing {
        Emit(Failed(NO_KEY));
        return;
      }
      pendingToolCalls, finishedEmitted := map[], false;
      if toolsRefused {
        Emit(Failed(NO_TOOLS));
      } else {
        assert signals + [] == signals;
      }
    }

    method Emit(s: Signal)
      modifies this`signals
      ensures signals == old(signals) + [s]
    {
      signals := signals + [s];
    }

    method ParseSseLine(line: Line)
      modifies this
      ensures Step(Now(), signals) == Emitted(old(signals), OnLine(sanitise, old(Now()), line))
    {
      match line {
        case Ignored => assert signals + [] == signals;
        case ErrorObject(message) =>
          Emit(Failed(if message == "" then NO_MESSAGE else message));
          finishedEmitted := true;
          pendingToolCalls := map[];
        case Choice(content, thinking, tools, finishReason) =>
          ghost var text := if content != "" || thinking != "" then [Chunk(content, thinking)] else [];
          if content != "" || thinking != "" {
            Emit(Chunk(content, thinking));
          } else {
            assert signals + [] == signals;
          }
          AbsorbDeltas(tools);
          if finishReason != "" && finishReason != "null" && finishReason != "tool_calls" {
            Emit(FinalChunk(finishReason));
            Emit(Finished(finishReason));
            finishedEmitted := true;
            assert (old(signals) + text) + [FinalChunk(finishReason)] + [Finished(finishReason)]
                   == old(signals) + (text + [FinalChunk(finishReason), Finished(finishReason)]);
          } else {
            assert text + [] == text;
          }
      }
    }

    method AbsorbDeltas(tools: seq<ToolDelta>)
      modifies this`pendingToolCalls
      ensures pendingToolCalls == AbsorbAll(sanitise, old(pendingToolCalls), tools)
    {
      for i := 0 to |tools|
        invariant pendingToolCalls == AbsorbAll(sanitise, old(pendingToolCalls), tools[..i])
      {
        assert tools[..i + 1][..i] == tools[..i];
        var tc := tools[i];
        var call := At(pendingToolCalls, tc.index);
        if tc.id != "" {
          call := call.(id := tc.id);
        }
        var name := sanitise(tc.name);
        if name != "" {
          call := call.(name := name);
        }
        call := call.(args := call.args + tc.args);
        pendingToolCalls := pendingToolCalls[tc.index := call];
      }
      assert tools[..|tools|] == tools;
    }

    /** The pending calls in index order, those without a name left out. */
    method EmitPending()
      modifies this`signals
      ensures signals == old(signals) + ToolSignals(parseArgs, InOrder(pendingToolCalls, pendingToolCalls.Keys))
    {
      hide InOrder, ToolSignals, IsLeast;
      var keys := pendingToolCalls.Keys;
      ghost var calls: seq<PendingCall> := [];
      ToolSignalsNone(parseArgs, signals);
      while keys != {}
        invariant keys <= pendingToolCalls.Keys
        invariant InOrder(pendingToolCalls, pendingToolCalls.Keys) == calls + InOrder(pendingToolCalls, keys)
        invariant signals == old(signals) + ToolSignals(parseArgs, calls)
        decreases |keys|
      {
        LeastInSet(keys);
        var k :| IsLeast(keys, k);
        LeastIsIn(keys, k);
        InOrderLeast(pendingToolCalls, keys, k);
        var call := pendingToolCalls[k];
        if call.name != "" {
          var argsObj := "{}";
          if call.args != "" {
            var parsed := parseArgs(call.args);
            if parsed.Some? {
              argsObj := parsed.value;
            }
          }
          Emit(ToolCall(call.id, call.name, argsObj));
          ToolSignalsSnoc(parseArgs, old(signals), calls, call);
          ConcatAssoc(calls, [call], InOrder(pendingToolCalls, keys - {k}));
          calls := calls + [call];
        }
        keys := keys - {k};
      }
      InOrderNone(pendingToolCalls);
      assert calls + [] == calls;
    }

    /** The end of the stream: the assembled calls in index order, then one finish; a
        synthetic stop when nothing was signalled yet. */
    method OnStreamFinished()
      modifies this
      ensures Step(Now(), signals) == Emitted(old(signals), OnEnd(parseArgs, old(Now())))
    {
      hide InOrder, ToolSignals;
      if pendingToolCalls != map[] {
        EmitPending();
        ConcatAssoc(old(signals), ToolSignals(parseArgs, InOrder(pendingToolCalls, pendingToolCalls.Keys)),
          [Finished("tool_calls")]);
        Emit(Finished("tool_calls"));
        finishedEmitted := true;
      } else if !finishedEmitted {
        Emit(Finished("stop"));
        finishedEmitted := true;
      } else {
        assert signals + [] == signals;
      }
      pendingToolCalls := map[];
    }
  }

  // ------------------------------------------------------------------ the parser's steps

  datatype State = State(pending: Pending, finished: bool)

  datatype Step = Step(state: State, signals: seq<Signal>)

  function Emitted(before: seq<Signal>, step: Step): Step {
    step.(signals := before + step.signals)
  }

  function OnLine(sanitise: string -> string, st: State, line: Line): Step {
    match line
    case Ignored => Step(st, [])
    case ErrorObject(message) => Step(State(map[], true), [Failed(if message == "" then NO_MESSAGE else message)])
    case Choice(content, thinking, tools, reason) =>
      Step(State(AbsorbAll(sanitise, st.pending, tools), st.finished || EndsNow(line)),
           (if content != "" || thinking != "" then [Chunk(content, thinking)] else [])
           + if EndsNow(line) then [FinalChunk(reason), Finished(reason)] else [])
  }

  function ToolSignals(parseArgs: string -> Option<string>, calls: seq<PendingCall>): seq<Signal> {
    seq(|calls|, i requires 0 <= i < |calls| => Handed(parseArgs, calls[i]))
  }

  lemma ToolSignalsNone(parseArgs: string -> Option<string>, before: seq<Signal>)
    ensures before + ToolSignals(parseArgs, []) == before
  {}

  lemma ToolSignalsSnoc(parseArgs: string -> Option<string>, before: seq<Signal>, calls: seq<PendingCall>,
                        call: PendingCall)
    ensures before + ToolSignals(parseArgs, calls + [call])
            == before + ToolSignals(parseArgs, calls) + [Handed(parseArgs, call)]
  {
    assert ToolSignals(parseArgs, calls + [call]) == ToolSignals(parseArgs, calls) + [Handed(parseArgs, call)];
  }

  predicate IsLeast(keys: set<int>, k: int) {
    k in keys && forall j | j in keys :: k <= j
  }

  lemma LeastIsIn(keys: set<int>, k: int)
    requires IsLeast(keys, k)
    ensures k in keys
  {}

  lemma {:induction false} LeastInSet(keys: set<int>)
    requires keys != {}
    ensures exists k :: IsLeast(keys, k)
    decreases |keys|
  {
    assert (forall k :: k !in keys) ==> keys == {};
    var k :| k in keys;
    assert forall j | j in keys :: j == k || j in keys - {k};
    if keys - {k} == {} {
      assert IsLeast(keys, k);
    } else {
      LeastInSet(keys - {k});
      var m :| IsLeast(keys - {k}, m);
      if k < m {
        assert IsLeast(keys, k);
      } else {
        assert IsLeast(keys, m);
      }
    }
  }

  /** The named calls under `keys`, in ascending order of index. */
  ghost function InOrder(pending: Pending, keys: set<int>): seq<PendingCall>
    requires keys <= pending.Keys
    decreases |keys|
  {
    if keys == {} then [] else
    LeastInSet(keys);
    var k :| IsLeast(keys, k);
    (if pending[k].name != "" then [pending[k]] else []) + InOrder(pending, keys - {k})
  }

  lemma InOrderNone(pending: Pending)
    ensures InOrder(pending, {}) == []
  {}

  lemma InOrderLeast(pending: Pending, keys: set<int>, k: int)
    requires keys <= pending.Keys && IsLeast(keys, k)
    ensures InOrder(pending, keys) == (if pending[k].name != "" then [pending[k]] else [])
            + InOrder(pending, keys - {k})
  {
    assert forall j | IsLeast(keys, j) :: j == k;
  }

  ghost function OnEnd(parseArgs: string -> Option<string>, st: State): Step {
    if st.pending != map[] then
      Step(State(map[], true), ToolSignals(parseArgs, InOrder(st.pending, st.pending.Keys)) + [Finished("tool_calls")])
    else if !st.finished then Step(State(map[], true), [Finished("stop")])
    else Step(State(map[], true), [])
  }

  // ------------------------------------------------------------------ assembly

  /** The deltas of one index. */
  function Of(deltas: seq<ToolDelta>, k: int): seq<ToolDelta> {
    if deltas == [] then [] else
    var before := Of(deltas[..|deltas| - 1], k);
    if deltas[|deltas| - 1].index == k then before + [deltas[|deltas| - 1]] else before
  }

  /** The last non-empty string of a list. */
  function LastNonEmpty(ss: seq<string>): string {
    if ss == [] then ""
    else if ss[|ss| - 1] != "" then ss[|ss| - 1]
    else LastNonEmpty(ss[..|ss| - 1])
  }

  function Joined(ss: seq<string>): string {
    if ss == [] then "" else Joined(ss[..|ss| - 1]) + ss[|ss| - 1]
  }

  function Ids(deltas: seq<ToolDelta>): seq<string> {
    seq(|deltas|, i requires 0 <= i < |deltas| => deltas[i].id)
  }

  function Names(sanitise: string -> string, deltas: seq<ToolDelta>): seq<string> {
    seq(|deltas|, i requires 0 <= i < |deltas| => sanitise(deltas[i].name))
  }

  function Args(deltas: seq<ToolDelta>): seq<string> {
    seq(|deltas|, i requires 0 <= i < |deltas| => deltas[i].args)
  }

  /** What one index's own deltas make: the last non-empty id and name, all arguments. */
  function Call(sanitise: string -> string, own: seq<ToolDelta>): PendingCall {
    PendingCall(LastNonEmpty(Ids(own)), LastNonEmpty(Names(sanitise, own)), Joined(Args(own)))
  }

  lemma CallSnoc(sanitise: string -> string, own: seq<ToolDelta>, d: ToolDelta)
    ensures Call(sanitise, own + [d]) == Absorb(sanitise, Call(sanitise, own), d)
  {
    assert Ids(own + [d]) == Ids(own) + [d.id] && Args(own + [d]) == Args(own) + [d.args];
    assert Names(sanitise, own + [d]) == Names(sanitise, own) + [sanitise(d.name)];
  }

  /** Every pending call is what its index's own deltas make. */
  lemma {:induction false} AssembledFromOwn(sanitise: string -> string, deltas: seq<ToolDelta>)
    ensures var p := AbsorbAll(sanitise, map[], deltas);
            && (forall k :: k in p <==> Of(deltas, k) != [])
            && (forall k | k in p :: p[k] == Call(sanitise, Of(deltas, k)))
  {
    if deltas != [] {
      var init, d := deltas[..|deltas| - 1], deltas[|deltas| - 1];
      AssembledFromOwn(sanitise, init);
      var before := AbsorbAll(sanitise, map[], init);
      CallSnoc(sanitise, Of(init, d.index), d);
      if d.index !in before {
        assert Call(sanitise, []) == PendingCall("", "", "");
      }
    }
  }

  /** So the calls emitted at the end of the stream do not depend on how the deltas of
      different indexes were interleaved. */
  lemma InterleavingIrrelevant(sanitise: string -> string, parseArgs: string -> Option<string>,
                               a: seq<ToolDelta>, b: seq<ToolDelta>, finished: bool)
    requires forall k :: Of(a, k) == Of(b, k)
    ensures OnEnd(parseArgs, State(AbsorbAll(sanitise, map[], a), finished))
            == OnEnd(parseArgs, State(AbsorbAll(sanitise, map[], b), finished))
  {
    hide *;
    AssembledFromOwn(sanitise, a);
    AssembledFromOwn(sanitise, b);
    var p, q := AbsorbAll(sanitise, map[], a), AbsorbAll(sanitise, map[], b);
    assert forall k :: k in p <==> k in q;
    assert forall k | k in p :: p[k] == q[k];
    assert p == q;
  }

  /** `order` is strictly ascending and `calls` are the calls of its indexes. */
  predicate InIndexOrder(pending: Pending, order: seq<int>, calls: seq<PendingCall>) {
    && (forall i, j | 0 <= i < j < |order| :: order[i] < order[j])
    && |calls| == |order|
    && (forall i | 0 <= i < |order| :: order[i] in pending && calls[i] == pending[order[i]])
  }

  lemma InIndexOrderCons(pending: Pending, k: int, order: seq<int>, calls: seq<PendingCall>)
    requires InIndexOrder(pending, order, calls)
    requires k in pending && forall j | j in order :: k < j
    ensures InIndexOrder(pending, [k] + order, [pending[k]] + calls)
    ensures forall j :: j in [k] + order <==> j == k || j in order
  {
    assert forall i | 0 <= i < |order| :: order[i] in order;
  }

  /** Exactly the named calls are emitted, in ascending order of index. */
  lemma {:induction false} EmittedAscending(pending: Pending, keys: set<int>) returns (order: seq<int>)
    requires keys <= pending.Keys
    ensures forall k :: k in order <==> k in keys && pending[k].name != ""
    ensures InIndexOrder(pending, order, InOrder(pending, keys))
    decreases |keys|
  {
    if keys == {} {
      order := [];
    } else {
      LeastInSet(keys);
      var k :| IsLeast(keys, k);
      InOrderLeast(pending, keys, k);
      hide InOrder, InIndexOrder;
      order := EmittedAscending(pending, keys - {k});
      if pending[k].name != "" {
        InIndexOrderCons(pending, k, order, InOrder(pending, keys - {k}));
        order := [k] + order;
      }
    }
  }

  /** Deltas spread over several lines are absorbed as one list. */
  lemma {:induction false} AbsorbAppend(sanitise: string -> string, pending: Pending, a: seq<ToolDelta>,
                                        b: seq<ToolDelta>)
    ensures AbsorbAll(sanitise, AbsorbAll(sanitise, pending, a), b) == AbsorbAll(sanitise, pending, a + b)
    decreases |b|
  {
    if b == [] {
      assert a + b == a;
    } else {
      AbsorbAppend(sanitise, pending, a, b[..|b| - 1]);
      assert (a + b)[..|a + b| - 1] == a + b[..|b| - 1];
    }
  }

  // ------------------------------------------------------------------ whole responses

  function OnLines(sanitise: string -> string, st: State, lines: seq<Line>): Step {
    if lines == [] then Step(st, []) else
    var before := OnLines(sanitise, st, lines[..|lines| - 1]);
    Emitted(before.signals, OnLine(sanitise, before.state, lines[|lines| - 1]))
  }

  /** Everything a request signals, from its start to the end of its stream. */
  ghost function Response(sanitise: string -> string, parseArgs: string -> Option<string>,
                          lines: seq<Line>): seq<Signal>
  {
    var step := OnLines(sanitise, State(map[], false), lines);
    step.signals + OnEnd(parseArgs, step.state).signals
  }

  /** The tool deltas received since the last error. */
  function DeltasSinceError(lines: seq<Line>): seq<ToolDelta> {
    if lines == [] then [] else
    var last := lines[|lines| - 1];
    if last.ErrorObject? then [] else
    DeltasSinceError(lines[..|lines| - 1]) + if last.Choice? then last.tools else []
  }

  function Terminals(signals: seq<Signal>): nat {
    if signals == [] then 0 else
    Terminals(signals[..|signals| - 1])
    + if signals[|signals| - 1].Finished? || signals[|signals| - 1].Failed? then 1 else 0
  }

  /** Lines that signal the end of the response: errors, and finish reasons other than
      "tool_calls". */
  function Endings(lines: seq<Line>): nat {
    if lines == [] then 0 else
    Endings(lines[..|lines| - 1]) + if lines[|lines| - 1].ErrorObject? || EndsNow(lines[|lines| - 1]) then 1 else 0
  }

  lemma {:induction false} TerminalsAppend(a: seq<Signal>, b: seq<Signal>)
    ensures Terminals(a + b) == Terminals(a) + Terminals(b)
  {
    if b == [] {
      assert a + b == a;
    } else {
      TerminalsAppend(a, b[..|b| - 1]);
      assert (a + b)[..|a + b| - 1] == a + b[..|b| - 1];
    }
  }

  lemma {:induction false} ToolSignalsDoNotEnd(parseArgs: string -> Option<string>, calls: seq<PendingCall>)
    ensures Terminals(ToolSignals(parseArgs, calls)) == 0
  {
    if calls != [] {
      ToolSignalsDoNotEnd(parseArgs, calls[..|calls| - 1]);
      assert ToolSignals(parseArgs, calls)[..|calls| - 1] == ToolSignals(parseArgs, calls[..|calls| - 1]);
    }
  }

  /** What the parser has come to after any lines. */
  lemma {:induction false} StateAfter(sanitise: string -> string, lines: seq<Line>)
    ensures var step := OnLines(sanitise, State(map[], false), lines);
            && step.state.pending == AbsorbAll(sanitise, map[], DeltasSinceError(lines))
            && (step.state.finished <==> Endings(lines) > 0)
            && Terminals(step.signals) == Endings(lines)
  {
    if lines != [] {
      var init, last := lines[..|lines| - 1], lines[|lines| - 1];
      StateAfter(sanitise, init);
      var before := OnLines(sanitise, State(map[], false), init);
      TerminalsAppend(before.signals, OnLine(sanitise, before.state, last).signals);
      LineTerminals(sanitise, before.state, last);
      if last.Choice? {
        AbsorbAppend(sanitise, map[], DeltasSinceError(init), last.tools);
      } else {
        assert DeltasSinceError(init) + [] == DeltasSinceError(init);
      }
    }
  }

  lemma LineTerminals(sanitise: string -> string, st: State, line: Line)
    ensures Terminals(OnLine(sanitise, st, line).signals) == if line.ErrorObject? || EndsNow(line) then 1 else 0
  {
    if line.Choice? {
      var text := if line.content != "" || line.thinking != "" then [Chunk(line.content, line.thinking)] else [];
      assert text[..0] == [];
      var fin := [FinalChunk(line.finishReason), Finished(line.finishReason)];
      assert fin[..1] == [FinalChunk(line.finishReason)] && fin[..1][..0] == [];
      TerminalsAppend(text, if EndsNow(line) then fin else []);
    } else if line.ErrorObject? {
      assert OnLine(sanitise, st, line).signals[..0] == [];
    }
  }

  lemma {:induction false} NothingPendingIff(sanitise: string -> string, deltas: seq<ToolDelta>)
    ensures AbsorbAll(sanitise, map[], deltas) == map[] <==> deltas == []
  {
    if deltas != [] {
      assert deltas[|deltas| - 1].index in AbsorbAll(sanitise, map[], deltas);
    }
  }

  function CallsOf(sanitise: string -> string, deltas: seq<ToolDelta>, order: seq<int>): seq<PendingCall> {
    seq(|order|, i requires 0 <= i < |order| => Call(sanitise, Of(deltas, order[i])))
  }

  /** What the end of any stream emits: one call per index that was named since the last
      error, in ascending order of index, each made of that index's own deltas. */
  lemma EmittedCalls(sanitise: string -> string, parseArgs: string -> Option<string>, lines: seq<Line>)
    returns (order: seq<int>)
    requires DeltasSinceError(lines) != []
    ensures forall i, j | 0 <= i < j < |order| :: order[i] < order[j]
    ensures forall k :: k in order <==>
              Of(DeltasSinceError(lines), k) != [] && Call(sanitise, Of(DeltasSinceError(lines), k)).name != ""
    ensures OnEnd(parseArgs, OnLines(sanitise, State(map[], false), lines).state).signals
            == ToolSignals(parseArgs, CallsOf(sanitise, DeltasSinceError(lines), order)) + [Finished("tool_calls")]
  {
    hide OnLines, DeltasSinceError, AbsorbAll, InOrder, Call, Of, ToolSignals;
    var deltas := DeltasSinceError(lines);
    var pending := AbsorbAll(sanitise, map[], deltas);
    StateAfter(sanitise, lines);
    NothingPendingIff(sanitise, deltas);
    AssembledFromOwn(sanitise, deltas);
    order := EmittedAscending(pending, pending.Keys);
    assert InOrder(pending, pending.Keys) == CallsOf(sanitise, deltas, order);
  }

  // ------------------------------------------------------------------ every emitted call, field by field

  /** The tool deltas of each line. */
  function ToolsOf(lines: seq<Line>): seq<seq<ToolDelta>> {
    seq(|lines|, i requires 0 <= i < |lines| => if lines[i].Choice? then lines[i].tools else [])
  }

  predicate NoErrors(lines: seq<Line>) {
    forall l | l in lines :: !l.ErrorObject?
  }

  lemma {:induction false} DeltasAre(front: seq<Line>, rest: seq<Line>)
    requires (front == [] || front[|front| - 1].ErrorObject?) && NoErrors(rest)
    ensures DeltasSinceError(front + rest) == Flatten(ToolsOf(rest))
  {
    if rest == [] {
      assert front + rest == front;
    } else {
      var init, last := rest[..|rest| - 1], rest[|rest| - 1];
      assert last in rest && rest == init + [last];
      DeltasAre(front, init);
      DeltasSnoc(front, init, last);
    }
  }

  lemma SinceErrorSnoc(lines: seq<Line>, last: Line)
    requires !last.ErrorObject?
    ensures DeltasSinceError(lines + [last]) == DeltasSinceError(lines) + if last.Choice? then last.tools else []
  {
    assert (lines + [last])[..|lines|] == lines;
  }

  lemma ToolsSnoc(lines: seq<Line>, last: Line)
    ensures Flatten(ToolsOf(lines + [last])) == Flatten(ToolsOf(lines)) + if last.Choice? then last.tools else []
  {
    var tools := if last.Choice? then last.tools else [];
    assert ToolsOf(lines + [last]) == ToolsOf(lines) + [tools];
    hide *;
    FlattenAppend(ToolsOf(lines), [tools]);
    FlattenOne(tools);
  }

  lemma DeltasSnoc(front: seq<Line>, init: seq<Line>, last: Line)
    requires !last.ErrorObject? && DeltasSinceError(front + init) == Flatten(ToolsOf(init))
    ensures DeltasSinceError(front + (init + [last])) == Flatten(ToolsOf(init + [last]))
  {
    hide *;
    SinceErrorSnoc(front + init, last);
    ToolsSnoc(init, last);
    ConcatAssoc(front, init, [last]);
  }

  /** Which deltas are of one index. */
  function OfIndex(deltas: seq<ToolDelta>, k: int): seq<bool> {
    seq(|deltas|, i requires 0 <= i < |deltas| => deltas[i].index == k)
  }

  function Pick(deltas: seq<ToolDelta>, at: seq<nat>): seq<ToolDelta>
    requires forall j | 0 <= j < |at| :: at[j] < |deltas|
  {
    seq(|at|, j requires 0 <= j < |at| => deltas[at[j]])
  }

  /** The deltas of one index, at their places. */
  function Own(deltas: seq<ToolDelta>, k: int): seq<ToolDelta> {
    Pick(deltas, Places(OfIndex(deltas, k)))
  }

  lemma {:induction false} OfIsOwn(deltas: seq<ToolDelta>, k: int)
    ensures Of(deltas, k) == Own(deltas, k)
  {
    if deltas != [] {
      var init, last := deltas[..|deltas| - 1], deltas[|deltas| - 1];
      OfIsOwn(init, k);
      PlacesSnoc(OfIndex(init, k), last.index == k);
      assert OfIndex(deltas, k) == OfIndex(init, k) + [last.index == k];
      hide Places;
      assert Pick(deltas, Places(OfIndex(init, k))) == Own(init, k);
    }
  }

  /** The last of the values that is not empty; empty when all are. */
  predicate IsLastNonEmpty(values: seq<string>, s: string) {
    || (s == "" && forall i | 0 <= i < |values| :: values[i] == "")
    || (s != "" && exists p :: 0 <= p < |values| && values[p] == s && forall q | p < q < |values| :: values[q] == "")
  }

  lemma {:induction false} LastIs(values: seq<string>)
    ensures IsLastNonEmpty(values, LastNonEmpty(values))
  {
    if values != [] {
      var init := values[..|values| - 1];
      LastIs(init);
      LastSnoc(init, values[|values| - 1], LastNonEmpty(init));
      hide IsLastNonEmpty;
      assert values == init + [values[|values| - 1]];
    }
  }

  lemma LastSnoc(init: seq<string>, v: string, s: string)
    requires IsLastNonEmpty(init, s)
    ensures IsLastNonEmpty(init + [v], if v != "" then v else s)
  {
    var values := init + [v];
    if v != "" {
      assert values[|init|] == v;
    } else if s != "" {
      var p :| 0 <= p < |init| && init[p] == s && forall q | p < q < |init| :: init[q] == "";
      assert values[p] == s;
    }
  }

  lemma {:induction false} JoinedIs(values: seq<string>)
    ensures Joined(values) == Flatten(values)
  {
    if values != [] {
      var init, last := values[..|values| - 1], values[|values| - 1];
      JoinedIs(init);
      FlattenAppend(init, [last]);
      FlattenOne(last);
      assert values == init + [last];
    }
  }

  /** What the app receives for one index, in terms of that index's own deltas: the last id and
      the last cleaned-up name that are not empty, and the object that the fragments of the
      arguments, one after the other, are read as. */
  predicate IsAssembled(sanitise: string -> string, parseArgs: string -> Option<string>, own: seq<ToolDelta>,
                        s: Signal)
  {
    && s.ToolCall?
    && IsLastNonEmpty(Ids(own), s.id)
    && IsLastNonEmpty(Names(sanitise, own), s.name)
    && s.argsObj == (var args := Flatten(Args(own));
                     if args == "" || parseArgs(args).None? then "{}" else parseArgs(args).value)
  }

  lemma HandedIsAssembled(sanitise: string -> string, parseArgs: string -> Option<string>, own: seq<ToolDelta>)
    ensures IsAssembled(sanitise, parseArgs, own, Handed(parseArgs, Call(sanitise, own)))
  {
    hide LastNonEmpty, IsLastNonEmpty, Joined;
    LastIs(Ids(own));
    LastIs(Names(sanitise, own));
    JoinedIs(Args(own));
  }

  /** The end of a stream whose last error, if any, ends `front`: behind `rest` the calls emitted
      are those of the indexes named in `rest`, in ascending order, each assembled from the deltas
      of its index; then the finish. */
  lemma EmittedFields(sanitise: string -> string, parseArgs: string -> Option<string>,
                      front: seq<Line>, rest: seq<Line>)
    returns (order: seq<int>)
    requires (front == [] || front[|front| - 1].ErrorObject?) && NoErrors(rest)
    requires Flatten(ToolsOf(rest)) != []
    ensures forall i, j | 0 <= i < j < |order| :: order[i] < order[j]
    ensures var deltas := Flatten(ToolsOf(rest));
            var signals := OnEnd(parseArgs, OnLines(sanitise, State(map[], false), front + rest).state).signals;
            && (forall k :: k in order <==> exists p :: 0 <= p < |deltas| && IsNamed(sanitise, deltas[p], k))
            && |signals| == |order| + 1 && signals[|order|] == Finished("tool_calls")
            && (forall i | 0 <= i < |order| ::
                  IsAssembled(sanitise, parseArgs, Own(deltas, order[i]), signals[i]))
  {
    hide OnLines, DeltasSinceError, Flatten, ToolsOf, InOrder, Call, Of, Own, Handed, IsAssembled, LastNonEmpty, OnEnd;
    DeltasAre(front, rest);
    var deltas := DeltasSinceError(front + rest);
    order := EmittedCalls(sanitise, parseArgs, front + rest);
    forall i | 0 <= i < |order|
      ensures var call := Call(sanitise, Of(deltas, order[i]));
              IsAssembled(sanitise, parseArgs, Own(deltas, order[i]), Handed(parseArgs, call))
    {
      OfIsOwn(deltas, order[i]);
      HandedIsAssembled(sanitise, parseArgs, Of(deltas, order[i]));
    }
    forall k ensures k in order <==> exists p :: 0 <= p < |deltas| && IsNamed(sanitise, deltas[p], k) {
      NamedIff(sanitise, deltas, k);
    }
  }

  predicate IsNamed(sanitise: string -> string, d: ToolDelta, k: int) {
    d.index == k && sanitise(d.name) != ""
  }

  lemma NamedIff(sanitise: string -> string, deltas: seq<ToolDelta>, k: int)
    ensures Of(deltas, k) != [] && Call(sanitise, Of(deltas, k)).name != "" <==>
            exists p :: 0 <= p < |deltas| && IsNamed(sanitise, deltas[p], k)
  {
    OfIsOwn(deltas, k);
    PlacesAre(OfIndex(deltas, k));
    var at := Places(OfIndex(deltas, k));
    var names := Names(sanitise, Of(deltas, k));
    LastIs(names);
    hide Of, LastNonEmpty, Places;
    if exists p :: 0 <= p < |deltas| && IsNamed(sanitise, deltas[p], k) {
      var p :| 0 <= p < |deltas| && IsNamed(sanitise, deltas[p], k);
      assert p in at;
      var j :| 0 <= j < |at| && at[j] == p;
      assert names[j] != "";
    } else {
      forall j | 0 <= j < |at| ensures names[j] == "" {
        assert !IsNamed(sanitise, deltas[at[j]], k);
      }
    }
  }

  /** From a request to the end of its stream there is at least one terminal signal, and
      exactly one when the stream had at most one ending and, if it had one, no tool delta
      is still pending behind the last error. */
  lemma TerminalSignals(sanitise: string -> string, parseArgs: string -> Option<string>, lines: seq<Line>)
    ensures Terminals(Response(sanitise, parseArgs, lines))
            == Endings(lines) + if Endings(lines) == 0 || DeltasSinceError(lines) != [] then 1 else 0
    ensures Terminals(Response(sanitise, parseArgs, lines)) >= 1
    ensures Terminals(Response(sanitise, parseArgs, lines)) == 1 <==>
            Endings(lines) == 0 || (Endings(lines) == 1 && DeltasSinceError(lines) == [])
  {
    var step := OnLines(sanitise, State(map[], false), lines);
    StateAfter(sanitise, lines);
    NothingPendingIff(sanitise, DeltasSinceError(lines));
    var fin := OnEnd(parseArgs, step.state).signals;
    TerminalsAppend(step.signals, fin);
    if step.state.pending != map[] {
      var calls := InOrder(step.state.pending, step.state.pending.Keys);
      ToolSignalsDoNotEnd(parseArgs, calls);
      TerminalsAppend(ToolSignals(parseArgs, calls), [Finished("tool_calls")]);
      assert [Finished("tool_calls")][..0] == [];
    } else {
      assert [Finished("stop")][..0] == [];
    }
  }

  /** Not every stream has one: an error behind a finish is a second terminal signal. */
  lemma TwoTerminals(sanitise: string -> string, parseArgs: string -> Option<string>, message: string)
    ensures Terminals(Response(sanitise, parseArgs, [Choice("", "", [], "stop"), ErrorObject(message)])) == 2
  {
    var lines := [Choice("", "", [], "stop"), ErrorObject(message)];
    assert lines[..1] == [Choice("", "", [], "stop")] && lines[..1][..0] == [];
    assert Endings(lines[..1]) == 1;
    assert Endings(lines) == 2 && DeltasSinceError(lines) == [];
    hide Terminals, Response, Endings, DeltasSinceError;
    TerminalSignals(sanitise, parseArgs, lines);
  }

  /** The transport may end a stream twice; the second end signals nothing. */
  lemma SecondEndIsSilent(parseArgs: string -> Option<string>, st: State)
    ensures OnEnd(parseArgs, OnEnd(parseArgs, st).state) == Step(OnEnd(parseArgs, st).state, [])
  {
    hide InOrder;
  }

  // ------------------------------------------------------------------ what the lines say

  /** What one line signals, whatever came before it. */
  function LineSays(line: Line): seq<Signal> {
    match line
    case Ignored => []
    case ErrorObject(message) => [Failed(if message != "" then message else "The provider returned an error.")]
    case Choice(content, thinking, _, reason) =>
      var text := if content == "" && thinking == "" then [] else [Chunk(content, thinking)];
      if reason in {"", "null", "tool_calls"} then text else text + [FinalChunk(reason), Finished(reason)]
  }

  function LinesSay(lines: seq<Line>): seq<seq<Signal>> {
    seq(|lines|, i requires 0 <= i < |lines| => LineSays(lines[i]))
  }

  lemma OneLineSays(sanitise: string -> string, st: State, line: Line)
    ensures OnLine(sanitise, st, line).signals == LineSays(line)
  {
    hide AbsorbAll;
  }

  /** All that is signalled before the end of the stream: line by line, the text as it came, and
      each ending under its own reason. */
  lemma {:induction false} SignalsAreSaid(sanitise: string -> string, st: State, lines: seq<Line>)
    ensures OnLines(sanitise, st, lines).signals == Flatten(LinesSay(lines))
  {
    if lines != [] {
      var init, last := lines[..|lines| - 1], lines[|lines| - 1];
      SignalsAreSaid(sanitise, st, init);
      OneLineSays(sanitise, OnLines(sanitise, st, init).state, last);
      assert LinesSay(lines) == LinesSay(init) + [LineSays(last)];
      hide Flatten, OnLine, LineSays;
      FlattenAppend(LinesSay(init), [LineSays(last)]);
      FlattenOne(LineSays(last));
    }
  }
}
