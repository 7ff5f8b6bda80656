/**
  The Ollama provider's stream parser (backend/api/ollama-provider.cpp): the in-band
  tool-call extractor, the done flush, and the finish reason.

  Content deltas are what is left after the inline-thinking hoister. Reading the text
  between the tags as a tool call is an oracle, `extract`.
 */
module OllamaProvider {
  import opened Common
  import opened InbandTags

  // ------------------------------------------------------------------ the provider

  /** A tool call as the app sees it; `inband` tells those hoisted from text from those
      the server sent as such. */
  datatype Call = Call(inband: bool, id: string, name: string, arguments: string)

  /** One line of the response stream. */
  datatype Line =
    | Unparsable
    | Delta(content: string, thinking: string, calls: seq<Call>)
    | Done(evalCount: int)

  datatype Signal =
    | Text(delta: string)
    | Thinking(delta: string)
    | ToolCall(call: Call)
    | Finished(reason: string, tokens: int)
    | Failed(message: string)

  /** The tool calls read from a list of bodies; a body that cannot be read is dropped. */
  function Extracted(extract: string -> Option<Call>, bodies: seq<string>): seq<Call> {
    if bodies == [] then [] else
    (match extract(bodies[0]) case None => [] case Some(call) => [call]) + Extracted(extract, bodies[1..])
  }

  lemma {:induction false} ExtractedAppend(extract: string -> Option<Call>, a: seq<string>, b: seq<string>)
    ensures Extracted(extract, a + b) == Extracted(extract, a) + Extracted(extract, b)
  {
    if a == [] {
      assert a + b == b;
    } else {
      ExtractedAppend(extract, a[1..], b);
      assert (a + b)[1..] == a[1..] + b;
      var first := match extract(a[0]) case None => [] case Some(call) => [call];
      ConcatAssoc(first, Extracted(extract, a[1..]), Extracted(extract, b));
    }
  }

  function ToolSignals(calls: seq<Call>): seq<Signal> {
    seq(|calls|, i requires 0 <= i < |calls| => ToolCall(calls[i]))
  }

  function TextSignal(t: string): seq<Signal> {
    if t == "" then [] else [Text(t)]
  }

  /** What the parser remembers between lines of one response. */
  datatype State = State(buf: string, pending: bool, done: bool)

  datatype Step = Step(state: State, signals: seq<Signal>)

  /** What one content delta does to the buffer. */
  function ScanDelta(buf: string, content: string): Scanned {
    if content == "" then Scanned("", [], buf) else Scan(buf + content)
  }

  function OnLine(extract: string -> Option<Call>, st: State, line: Line): Step {
    match line
    case Unparsable => Step(st, [])
    case Done(n) =>
      Step(State("", false, true), TextSignal(st.buf) + [Finished(if st.pending then "tool_calls" else "stop", n)])
    case Delta(content, thinking, calls) =>
      var think := if thinking == "" then [] else [Thinking(thinking)];
      var sc := ScanDelta(st.buf, content);
      var inband := Extracted(extract, sc.bodies);
      Step(State(sc.rest, st.pending || inband != [] || calls != [], st.done),
           think + ToolSignals(inband) + TextSignal(sc.text) + ToolSignals(calls))
  }

  class OllamaProvider {
    const extract: string -> Option<Call>
    var inbandToolBuf: string
    var hasPendingToolCall: bool
    var doneReceived: bool
    var signals: seq<Signal>   // everything emitted so far

    constructor (extract: string -> Option<Call>)
      ensures this.extract == extract && Now() == State("", false, false) && signals == []
    {
      this.extract := extract;
      inbandToolBuf, hasPendingToolCall, doneReceived, signals := "", false, false, [];
    }

    function Now(): State
      reads this
    {
      State(inbandToolBuf, hasPendingToolCall, doneReceived)
    }

    method SendRequest()
      modifies this
      ensures Now() == State("", false, false) && signals == old(signals)
    {
      hasPendingToolCall, doneReceived, inbandToolBuf := false, false, "";
    }

    method Emit(s: Signal)
      modifies this`signals
      ensures signals == old(signals) + [s]
    {
      signals := signals + [s];
    }

    method EmitText(t: string)
      modifies this`signals
      ensures signals == old(signals) + TextSignal(t)
    {
      if t != "" {
        Emit(Text(t));
      }
    }

    /** The hold-back test of the extractor: the tail that may start an open tag. */
    method SafeLength() returns (safe: nat)
      ensures safe == |inbandToolBuf| - Held(inbandToolBuf)
    {
      HeldIsLongest(inbandToolBuf);
      hide Held, HeldFrom, EndsWith;
      safe := |inbandToolBuf|;
      for i := 0 to |PREFIXES|
        invariant safe == |inbandToolBuf| && forall k | 0 < k <= i :: !EndsWith(inbandToolBuf, OPEN[..k])
      {
        PrefixesOfOpen(i);
        if EndsWith(inbandToolBuf, PREFIXES[i]) {
          HeldIs(inbandToolBuf, i + 1);
          return |inbandToolBuf| - |PREFIXES[i]|;
        }
      }
    }

    /** What has been emitted and noted once `bodies` are dealt with. */
    ghost predicate Hoisted(emitted: seq<Signal>, wasPending: bool, bodies: seq<string>)
      reads this
    {
      && signals == emitted + ToolSignals(Extracted(extract, bodies))
      && hasPendingToolCall == (wasPending || Extracted(extract, bodies) != [])
    }

    /** One extracted body: emitted as a tool call when it can be read as one. */
    method HoistBody(body: string, ghost emitted: seq<Signal>, ghost wasPending: bool, ghost before: seq<string>)
      requires Hoisted(emitted, wasPending, before)
      modifies this`hasPendingToolCall, this`signals
      ensures Hoisted(emitted, wasPending, before + [body])
    {
      ghost var calls := Extracted(extract, before);
      ExtractedAppend(extract, before, [body]);
      assert Extracted(extract, [body]) == match extract(body) case None => [] case Some(call) => [call];
      match extract(body) {
        case Some(call) =>
          assert ToolSignals(calls + [call]) == ToolSignals(calls) + [ToolCall(call)];
          ConcatAssoc(emitted, ToolSignals(calls), [ToolCall(call)]);
          hasPendingToolCall := true;
          Emit(ToolCall(call));
        case None =>
      }
    }

    /** One turn of the extractor: the text that may be flushed, and the next body. */
    method NextBody() returns (text: string, body: Option<string>)
      modifies this`inbandToolBuf
      ensures match Locate(old(inbandToolBuf))
              case NoOpen =>
                var b := old(inbandToolBuf);
                body == None && text == b[..|b| - Held(b)] && inbandToolBuf == b[|b| - Held(b)..]
              case Unclosed(before, rest) => body == None && text == before && inbandToolBuf == rest
              case Block(before, b, after) => body == Some(b) && text == before && inbandToolBuf == after
    {
      hide Find, FindFrom, OccursAt, Held;
      var openIdx := Find(inbandToolBuf, OPEN);
      if openIdx.None? {
        var safe := SafeLength();
        text, body := inbandToolBuf[..safe], None;
        inbandToolBuf := inbandToolBuf[safe..];
        return;
      }
      text := inbandToolBuf[..openIdx.value];
      inbandToolBuf := inbandToolBuf[openIdx.value..];
      var closeIdx := Find(inbandToolBuf, CLOSE);
      if closeIdx.None? {
        return text, None;
      }
      ghost var b, i, j := old(inbandToolBuf), openIdx.value, closeIdx.value;
      assert b[i..][|OPEN|..j] == b[i + |OPEN|..i + j] && b[i..][j + |CLOSE|..] == b[i + j + |CLOSE|..] by {
        OpenStartsSuffix(b, i);
        CloseAfterOpen(b[i..], j);
      }
      OpenStartsSuffix(b, i);
      CloseAfterOpen(inbandToolBuf, closeIdx.value);
      body := Some(inbandToolBuf[|OPEN|..closeIdx.value]);
      inbandToolBuf := inbandToolBuf[closeIdx.value + |CLOSE|..];
    }

    /** The in-band extractor loop: drains the buffer, emitting each tool call as it is
        read, and returns the text to flush. */
    method DrainInband() returns (flushed: string)
      modifies this`inbandToolBuf, this`hasPendingToolCall, this`signals
      ensures var sc := Scan(old(inbandToolBuf));
              && flushed == sc.text && inbandToolBuf == sc.rest
              && Hoisted(old(signals), old(hasPendingToolCall), sc.bodies)
    {
      flushed := "";
      ghost var whole, bodies := inbandToolBuf, [];
      assert signals + ToolSignals([]) == signals;
      assert Hoisted(signals, hasPendingToolCall, bodies);
      BeforeNothing(Scan(whole));
      hide Locate, Hoisted, Held, Scan, Before;
      while true
        invariant Scan(whole) == Before(flushed, bodies, Scan(inbandToolBuf))
        invariant Hoisted(old(signals), old(hasPendingToolCall), bodies)
        decreases |inbandToolBuf|
      {
        ScanTurn(flushed, bodies, inbandToolBuf);
        var text, body := NextBody();
        flushed := flushed + text;
        if body.None? {
          return;
        }
        HoistBody(body.value, old(signals), old(hasPendingToolCall), bodies);
        bodies := bodies + [body.value];
      }
    }

    /** The content of one delta through the extractor; nothing happens when it is empty. */
    method ParseContent(content: string)
      modifies this`inbandToolBuf, this`hasPendingToolCall, this`signals
      ensures var sc := ScanDelta(old(inbandToolBuf), content); var calls := Extracted(extract, sc.bodies);
              && inbandToolBuf == sc.rest && hasPendingToolCall == (old(hasPendingToolCall) || calls != [])
              && signals == old(signals) + ToolSignals(calls) + TextSignal(sc.text)
    {
      if content == "" {
        assert old(signals) + [] + [] == old(signals);
        return;
      }
      hide Scan, Extracted, ToolSignals;
      inbandToolBuf := inbandToolBuf + content;
      var flushed := DrainInband();
      EmitText(flushed);
    }

    method OnDelta(content: string, thinking: string, calls: seq<Call>)
      modifies this
      ensures Step(Now(), signals)
              == Emitted(old(signals), OnLine(extract, old(Now()), Delta(content, thinking, calls)))
    {
      ghost var sc := ScanDelta(inbandToolBuf, content);
      ConcatFour(signals, if thinking == "" then [] else [Thinking(thinking)],
                 ToolSignals(Extracted(extract, sc.bodies)), TextSignal(sc.text), ToolSignals(calls));
      DeltaParts(extract, Now(), Delta(content, thinking, calls));
      hide ScanDelta, Extracted, ToolSignals, TextSignal;
      if thinking != "" {
        Emit(Thinking(thinking));
      } else {
        assert signals + [] == signals;
      }
      ParseContent(content);
      if calls != [] {
        hasPendingToolCall := true;
      }
      EmitCalls(calls);
    }

    method OnDone(evalCount: int)
      modifies this
      ensures Step(Now(), signals) == Emitted(old(signals), OnLine(extract, old(Now()), Done(evalCount)))
    {
      doneReceived := true;
      EmitText(inbandToolBuf);
      inbandToolBuf := "";
      var reason := if hasPendingToolCall then "tool_calls" else "stop";
      hasPendingToolCall := false;
      Emit(Finished(reason, evalCount));
      ConcatAssoc(old(signals), TextSignal(old(inbandToolBuf)), [Finished(reason, evalCount)]);
    }

    /** One line of the response. */
    method ParseStreamChunk(line: Line)
      modifies this
      ensures Step(Now(), signals) == Emitted(old(signals), OnLine(extract, old(Now()), line))
    {
      match line {
        case Unparsable => assert old(signals) + [] == old(signals);
        case Done(evalCount) => OnDone(evalCount);
        case Delta(content, thinking, calls) => OnDelta(content, thinking, calls);
      }
    }

    method EmitCalls(calls: seq<Call>)
      modifies this`signals
      ensures signals == old(signals) + ToolSignals(calls)
    {
      for i := 0 to |calls|
        invariant signals == old(signals) + ToolSignals(calls[..i])
      {
        assert ToolSignals(calls[..i + 1]) == ToolSignals(calls[..i]) + [ToolCall(calls[i])];
        Emit(ToolCall(calls[i]));
      }
      assert calls[..|calls|] == calls;
    }

    /** The transport's end of stream: a synthetic stop when no done line was parsed. */
    method OnStreamFinished()
      modifies this`doneReceived, this`hasPendingToolCall, this`signals
      ensures Now() == old(Now()).(pending := false, done := false)
      ensures signals == old(signals) + if old(doneReceived) then [] else [Finished("stop", 0)]
    {
      if !doneReceived {
        Emit(Finished("stop", 0));
      }
      doneReceived, hasPendingToolCall := false, false;
    }

    method OnErrorOccurred(message: string)
      modifies this`signals
      ensures signals == old(signals) + [Failed(message)]
    {
      Emit(Failed(message));
    }
  }

  lemma ConcatFour<T>(o: seq<T>, a: seq<T>, b: seq<T>, c: seq<T>, d: seq<T>)
    ensures o + (a + b + c + d) == o + a + b + c + d
  {
    ConcatAssoc(o, a, b);
    ConcatAssoc(o, a + b, c);
    ConcatAssoc(o, a + b + c, d);
  }

  /** A step taken after `before` was emitted. */
  function Emitted(before: seq<Signal>, step: Step): Step {
    step.(signals := before + step.signals)
  }

  // ------------------------------------------------------------------ whole responses

  function OnLines(extract: string -> Option<Call>, st: State, lines: seq<Line>): Step
    decreases |lines|
  {
    if lines == [] then Step(st, []) else
    var first := OnLine(extract, st, lines[0]);
    Emitted(first.signals, OnLines(extract, first.state, lines[1..]))
  }

  /** The text a list of signals shows. */
  function TextOf(signals: seq<Signal>): string {
    if signals == [] then "" else
    (if signals[0].Text? then signals[0].delta else "") + TextOf(signals[1..])
  }

  /** The tool calls among a list of signals: those hoisted from text, or those sent. */
  function CallsOf(signals: seq<Signal>, inband: bool): seq<Call> {
    if signals == [] then [] else
    (if signals[0].ToolCall? && signals[0].call.inband == inband then [signals[0].call] else [])
    + CallsOf(signals[1..], inband)
  }

  lemma {:induction false} ProjectionsAppend(a: seq<Signal>, b: seq<Signal>, inband: bool)
    ensures TextOf(a + b) == TextOf(a) + TextOf(b)
    ensures CallsOf(a + b, inband) == CallsOf(a, inband) + CallsOf(b, inband)
  {
    if a == [] {
      assert a + b == b;
    } else {
      ProjectionsAppend(a[1..], b, inband);
      assert (a + b)[1..] == a[1..] + b;
      ConcatAssoc(if a[0].Text? then a[0].delta else "", TextOf(a[1..]), TextOf(b));
      ConcatAssoc(if a[0].ToolCall? && a[0].call.inband == inband then [a[0].call] else [],
                  CallsOf(a[1..], inband), CallsOf(b, inband));
    }
  }

  lemma {:induction false} ToolSignalsProject(calls: seq<Call>, kind: bool, inband: bool)
    requires forall c | c in calls :: c.inband == kind
    ensures TextOf(ToolSignals(calls)) == ""
    ensures CallsOf(ToolSignals(calls), inband) == if kind == inband then calls else []
  {
    if calls != [] {
      ToolSignalsProject(calls[1..], kind, inband);
      assert ToolSignals(calls)[1..] == ToolSignals(calls[1..]);
    }
  }

  /** The content of all the deltas together. */
  function Content(lines: seq<Line>): string {
    if lines == [] then "" else
    (if lines[0].Delta? then lines[0].content else "") + Content(lines[1..])
  }

  ghost predicate WellTagged(extract: string -> Option<Call>, lines: seq<Line>) {
    && (forall b | extract(b).Some? :: extract(b).value.inband)
    && (forall l | l in lines && l.Delta? :: forall c | c in l.calls :: !c.inband)
  }

  lemma {:induction false} ExtractedInband(extract: string -> Option<Call>, bodies: seq<string>)
    requires forall b | extract(b).Some? :: extract(b).value.inband
    ensures forall c | c in Extracted(extract, bodies) :: c.inband
  {
    if bodies != [] {
      ExtractedInband(extract, bodies[1..]);
    }
  }

  lemma TextSignalProjects(t: string)
    ensures TextOf(TextSignal(t)) == t && CallsOf(TextSignal(t), true) == []
  {
    if t != "" {
      assert [Text(t)][1..] == [];
      assert t + "" == t;
    }
  }

  lemma OneWellTagged(extract: string -> Option<Call>, line: Line)
    requires WellTagged(extract, [line]) && line.Delta?
    ensures forall b | extract(b).Some? :: extract(b).value.inband
    ensures forall c | c in line.calls :: !c.inband
  {
    assert line in [line];
  }

  lemma ThinkingProjects(t: string)
    ensures var think := if t == "" then [] else [Thinking(t)]; TextOf(think) == "" && CallsOf(think, true) == []
  {
    assert [Thinking(t)][1..] == [];
  }

  lemma DeltaParts(extract: string -> Option<Call>, st: State, line: Line)
    requires line.Delta?
    ensures var sc := ScanDelta(st.buf, line.content);
            var step := OnLine(extract, st, line);
            && step.state.buf == sc.rest
            && step.signals == (if line.thinking == "" then [] else [Thinking(line.thinking)])
                 + ToolSignals(Extracted(extract, sc.bodies)) + TextSignal(sc.text) + ToolSignals(line.calls)
  {
  }

  /** One delta, seen through both projections. */
  lemma DeltaProjects(extract: string -> Option<Call>, st: State, line: Line)
    requires WellTagged(extract, [line]) && line.Delta?
    ensures var sc := ScanDelta(st.buf, line.content);
            var step := OnLine(extract, st, line);
            && TextOf(step.signals) == sc.text && step.state.buf == sc.rest
            && CallsOf(step.signals, true) == Extracted(extract, sc.bodies)
  {
    OneWellTagged(extract, line);
    hide *;
    var sc := ScanDelta(st.buf, line.content);
    var think := if line.thinking == "" then [] else [Thinking(line.thinking)];
    var inband := Extracted(extract, sc.bodies);
    ExtractedInband(extract, sc.bodies);
    ToolSignalsProject(inband, true, true);
    ToolSignalsProject(line.calls, false, true);
    ThinkingProjects(line.thinking);
    TextSignalProjects(sc.text);
    ProjectionsAppend(think, ToolSignals(inband), true);
    ProjectionsAppend(think + ToolSignals(inband), TextSignal(sc.text), true);
    ProjectionsAppend(think + ToolSignals(inband) + TextSignal(sc.text), ToolSignals(line.calls), true);
    DeltaParts(extract, st, line);
  }

  /** The buffer holds no complete block and nothing that could be flushed. */
  predicate Settled(buf: string) {
    Parse(buf) == Parsed(buf, [])
  }

  lemma ScanDeltaThenParse(buf: string, content: string, more: string)
    requires Settled(buf)
    ensures var sc := ScanDelta(buf, content); var p := Parse(sc.rest + more);
            Settled(sc.rest) && Parse(buf + (content + more)) == Parsed(sc.text + p.text, sc.bodies + p.bodies)
  {
    if content == "" {
      assert content + more == more;
      var p := Parse(buf + more);
      assert "" + p.text == p.text && [] + p.bodies == p.bodies;
    } else {
      RestIsText(buf + content);
      ScanThenParse(buf + content, more);
      ConcatAssoc(buf, content, more);
    }
  }

  /** Up to the done line, what has been shown and extracted together with what parsing the
      buffer and all content still to come would give, is what one pass over everything
      gives: where the content was cut into deltas does not matter. */
  lemma {:induction false} CuttingIrrelevant(extract: string -> Option<Call>, st: State, lines: seq<Line>)
    requires WellTagged(extract, lines) && Settled(st.buf)
    requires forall l | l in lines :: !l.Done?
    ensures var step := OnLines(extract, st, lines); var whole := Parse(st.buf + Content(lines));
            && TextOf(step.signals) + step.state.buf == whole.text
            && CallsOf(step.signals, true) == Extracted(extract, whole.bodies)
            && Settled(step.state.buf)
    decreases |lines|
  {
    if lines == [] {
      assert st.buf + Content(lines) == st.buf;
      assert TextOf([]) + st.buf == st.buf;
    } else {
      var line, rest := lines[0], lines[1..];
      var first := OnLine(extract, st, line);
      var content := if line.Delta? then line.content else "";
      ScanDeltaThenParse(st.buf, content, Content(rest));
      LineProjects(extract, st, line);
      CuttingIrrelevant(extract, first.state, rest);
      var later := OnLines(extract, first.state, rest);
      var sc := ScanDelta(st.buf, content);
      ProjectionsAppend(first.signals, later.signals, true);
      ConcatAssoc(TextOf(first.signals), TextOf(later.signals), later.state.buf);
      ExtractedAppend(extract, sc.bodies, Parse(sc.rest + Content(rest)).bodies);
    }
  }

  /** The buffer is what a drain has left. */
  predicate Kept(buf: string) {
    Scan(buf) == Scanned("", [], buf)
  }

  lemma ScanDeltaAppend(buf: string, content: string, more: string)
    requires Kept(buf)
    ensures var sc := ScanDelta(buf, content);
            Kept(sc.rest) && Scan(buf + (content + more)) == Before(sc.text, sc.bodies, Scan(sc.rest + more))
  {
    hide Scan;
    if content == "" {
      assert content + more == more;
      BeforeNothing(Scan(buf + more));
    } else {
      RestIsKept(buf + content);
      ScanAppend(buf + content, more);
      ConcatAssoc(buf, content, more);
    }
  }

  /** At every moment before the done line: what has been shown and extracted, and what is
      held back, is what one drain of all content so far gives, however it was cut. */
  lemma {:induction false} ShownSoFar(extract: string -> Option<Call>, st: State, lines: seq<Line>)
    requires WellTagged(extract, lines) && Kept(st.buf)
    requires forall l | l in lines :: !l.Done?
    ensures var step := OnLines(extract, st, lines); var sc := Scan(st.buf + Content(lines));
            && TextOf(step.signals) == sc.text && step.state.buf == sc.rest
            && CallsOf(step.signals, true) == Extracted(extract, sc.bodies)
    decreases |lines|
  {
    if lines == [] {
      assert st.buf + Content(lines) == st.buf;
      assert TextOf([]) == "" && CallsOf([], true) == [];
    } else {
      var line, rest := lines[0], lines[1..];
      var first := OnLine(extract, st, line);
      var content := if line.Delta? then line.content else "";
      ScanDeltaAppend(st.buf, content, Content(rest));
      LineProjects(extract, st, line);
      ShownSoFar(extract, first.state, rest);
      var later := OnLines(extract, first.state, rest);
      var sc := ScanDelta(st.buf, content);
      ProjectionsAppend(first.signals, later.signals, true);
      ExtractedAppend(extract, sc.bodies, Scan(sc.rest + Content(rest)).bodies);
    }
  }

  lemma LineProjects(extract: string -> Option<Call>, st: State, line: Line)
    requires WellTagged(extract, [line]) && !line.Done?
    ensures var sc := ScanDelta(st.buf, if line.Delta? then line.content else "");
            var step := OnLine(extract, st, line);
            && TextOf(step.signals) == sc.text && step.state.buf == sc.rest
            && CallsOf(step.signals, true) == Extracted(extract, sc.bodies)
  {
    if line.Delta? {
      DeltaProjects(extract, st, line);
    }
  }

  lemma {:induction false} OnLinesAppend(extract: string -> Option<Call>, st: State, a: seq<Line>, b: seq<Line>)
    ensures var first := OnLines(extract, st, a);
            OnLines(extract, st, a + b) == Emitted(first.signals, OnLines(extract, first.state, b))
    decreases |a|
  {
    if a == [] {
      assert a + b == b;
      assert [] + OnLines(extract, st, b).signals == OnLines(extract, st, b).signals;
    } else {
      hide OnLine;
      var step := OnLine(extract, st, a[0]);
      OnLinesAppend(extract, step.state, a[1..], b);
      assert (a + b)[1..] == a[1..] + b;
      var first := OnLines(extract, step.state, a[1..]);
      ConcatAssoc(step.signals, first.signals, OnLines(extract, first.state, b).signals);
    }
  }

  predicate HasCall(signals: seq<Signal>) {
    exists s | s in signals :: s.ToolCall?
  }

  /** What was emitted after the last finish. */
  function SinceFinish(signals: seq<Signal>): seq<Signal> {
    if signals == [] || signals[|signals| - 1].Finished? then []
    else SinceFinish(signals[..|signals| - 1]) + [signals[|signals| - 1]]
  }

  lemma {:induction false} SinceFinishAppend(a: seq<Signal>, b: seq<Signal>)
    requires forall s | s in b :: !s.Finished?
    ensures SinceFinish(a + b) == SinceFinish(a) + b
  {
    if b == [] {
      assert a + b == a;
    } else {
      var init, last := b[..|b| - 1], b[|b| - 1];
      assert (a + b)[..|a + b| - 1] == a + init;
      SinceFinishAppend(a, init);
      ConcatAssoc(SinceFinish(a), init, [last]);
      assert init + [last] == b;
    }
  }

  /** A tool call is pending exactly when one was emitted since the last finish. */
  lemma {:induction false} PendingIff(extract: string -> Option<Call>, lines: seq<Line>)
    ensures var step := OnLines(extract, State("", false, false), lines);
            step.state.pending <==> HasCall(SinceFinish(step.signals))
    decreases |lines|
  {
    if lines != [] {
      var init, last := lines[..|lines| - 1], lines[|lines| - 1];
      assert lines == init + [last];
      var st0 := State("", false, false);
      PendingIff(extract, init);
      OnLinesAppend(extract, st0, init, [last]);
      var before := OnLines(extract, st0, init);
      OneLine(extract, before.state, last);
      var step := OnLine(extract, before.state, last);
      PendingStep(extract, before.state, last);
      if last.Done? {
        var all := before.signals + step.signals;
        assert all[|all| - 1].Finished?;
      } else {
        SinceFinishAppend(before.signals, step.signals);
      }
    }
  }

  lemma OneLine(extract: string -> Option<Call>, st: State, line: Line)
    ensures OnLines(extract, st, [line]) == OnLine(extract, st, line)
  {
    assert [line][1..] == [];
    var step := OnLine(extract, st, line);
    assert step.signals + [] == step.signals;
  }

  lemma PendingStep(extract: string -> Option<Call>, st: State, line: Line)
    ensures var step := OnLine(extract, st, line);
            if line.Done? then !step.state.pending && step.signals != [] && step.signals[|step.signals| - 1].Finished?
            else (step.state.pending <==> st.pending || HasCall(step.signals))
                 && forall s | s in step.signals :: !s.Finished? && !s.Failed?
  {
    hide Scan;
    if line.Delta? {
      var inband := Extracted(extract, ScanDelta(st.buf, line.content).bodies);
      var step := OnLine(extract, st, line);
      if inband != [] { assert ToolSignals(inband)[0] in step.signals; }
      if line.calls != [] { assert ToolSignals(line.calls)[0] in step.signals; }
    }
  }

  /** A response whose one done line comes last: the text shown and the calls hoisted are
      those of one pass over the whole content, and the finish reason is "tool_calls"
      exactly when a call was emitted. */
  lemma ResponseIsOnePass(extract: string -> Option<Call>, lines: seq<Line>, n: int)
    requires WellTagged(extract, lines) && forall l | l in lines :: !l.Done?
    ensures var step := OnLines(extract, State("", false, false), lines + [Done(n)]);
            var whole := Parse(Content(lines));
            && TextOf(step.signals) == whole.text
            && CallsOf(step.signals, true) == Extracted(extract, whole.bodies)
            && step.signals != []
            && step.signals[|step.signals| - 1] == Finished(if HasCall(step.signals) then "tool_calls" else "stop", n)
  {
    hide *;
    var st0 := State("", false, false);
    var a := OnLines(extract, st0, lines);
    FromStart(extract, lines);
    OnLinesAppend(extract, st0, lines, [Done(n)]);
    OneLine(extract, a.state, Done(n));
    DoneStep(extract, a.state, n);
    PendingWithoutDone(extract, lines);
    var fin := Finished(if a.state.pending then "tool_calls" else "stop", n);
    DoneProjects(a.signals, a.state.buf, fin);
    EmittedIs(a.signals, OnLine(extract, a.state, Done(n)));
  }

  // ------------------------------------------------------------------ every call, place by place

  /** Which bodies can be read as calls. */
  function Readable(extract: string -> Option<Call>, bodies: seq<string>): seq<bool> {
    seq(|bodies|, i requires 0 <= i < |bodies| => extract(bodies[i]).Some?)
  }

  /** Which signals are calls hoisted from text, or calls the server sent. */
  function AreCalls(signals: seq<Signal>, inband: bool): seq<bool> {
    seq(|signals|, i requires 0 <= i < |signals| => signals[i].ToolCall? && signals[i].call.inband == inband)
  }

  /** The bodies that can be read as calls, in order, are what is extracted. */
  lemma {:induction false} ReadInOrder(extract: string -> Option<Call>, bodies: seq<string>)
    ensures var at := Places(Readable(extract, bodies));
            && |Extracted(extract, bodies)| == |at|
            && forall j | 0 <= j < |at| :: Some(Extracted(extract, bodies)[j]) == extract(bodies[at[j]])
  {
    if bodies != [] {
      var init, last := bodies[..|bodies| - 1], bodies[|bodies| - 1];
      ReadInOrder(extract, init);
      PlacesSnoc(Readable(extract, init), extract(last).Some?);
      assert bodies == init + [last];
      assert Readable(extract, bodies) == Readable(extract, init) + [extract(last).Some?];
      ExtractedAppend(extract, init, [last]);
      OneExtracted(extract, last);
      var at, calls := Places(Readable(extract, init)), Extracted(extract, init);
      hide *;
      forall j | 0 <= j < |Places(Readable(extract, bodies))|
        ensures Some(Extracted(extract, bodies)[j]) == extract(bodies[Places(Readable(extract, bodies))[j]])
      {
        assert j < |at| ==> bodies[at[j]] == init[at[j]];
      }
    }
  }

  lemma OneExtracted(extract: string -> Option<Call>, body: string)
    ensures Extracted(extract, [body]) == if extract(body).Some? then [extract(body).value] else []
  {
    assert [body][1..] == [];
  }

  lemma OneCall(s: Signal, inband: bool)
    ensures CallsOf([s], inband) == if s.ToolCall? && s.call.inband == inband then [s.call] else []
  {
    assert [s][1..] == [];
  }

  /** The calls hoisted from text, or those the server sent, in their places. */
  lemma {:induction false} CallPlaces(signals: seq<Signal>, inband: bool)
    ensures var out := Places(AreCalls(signals, inband));
            && |out| == |CallsOf(signals, inband)|
            && forall j | 0 <= j < |out| :: signals[out[j]] == ToolCall(CallsOf(signals, inband)[j])
  {
    if signals != [] {
      var init, last := signals[..|signals| - 1], signals[|signals| - 1];
      CallPlaces(init, inband);
      var mark := last.ToolCall? && last.call.inband == inband;
      PlacesSnoc(AreCalls(init, inband), mark);
      assert signals == init + [last];
      assert AreCalls(signals, inband) == AreCalls(init, inband) + [mark];
      ProjectionsAppend(init, [last], inband);
      OneCall(last, inband);
      var out, calls := Places(AreCalls(init, inband)), CallsOf(init, inband);
      assert CallsOf(signals, inband) == if mark then calls + [last.call] else calls;
      hide *;
      CallSnoc(init, last, out, calls, mark);
    }
  }

  lemma CallSnoc(init: seq<Signal>, last: Signal, out: seq<nat>, calls: seq<Call>, mark: bool)
    requires |out| == |calls| && (mark ==> last.ToolCall?)
    requires forall j | 0 <= j < |out| :: out[j] < |init| && init[out[j]] == ToolCall(calls[j])
    ensures var more, read := if mark then out + [|init|] else out, if mark then calls + [last.call] else calls;
            |more| == |read| && forall j | 0 <= j < |more| ::
              more[j] < |init + [last]| && (init + [last])[more[j]] == ToolCall(read[j])
  {
    var signals := init + [last];
    assert signals[|init|] == last;
    forall j | 0 <= j < |out| ensures signals[out[j]] == ToolCall(calls[j]) {
      assert signals[out[j]] == init[out[j]];
    }
  }

  /** Every block whose body can be read as a call is emitted as that call, once and in order,
      and no other call is hoisted. */
  lemma CallsAreHoisted(extract: string -> Option<Call>, lines: seq<Line>)
    requires WellTagged(extract, lines) && NoDone(lines)
    ensures var bodies := Parse(Content(lines)).bodies;
            var signals := OnLines(extract, State("", false, false), lines).signals;
            var at, out := Places(Readable(extract, bodies)), Places(AreCalls(signals, true));
            && |at| == |out|
            && (forall j | 0 <= j < |at| ::
                  signals[out[j]].ToolCall? && Some(signals[out[j]].call) == extract(bodies[at[j]]))
  {
    FromStart(extract, lines);
    ReadInOrder(extract, Parse(Content(lines)).bodies);
    CallPlaces(OnLines(extract, State("", false, false), lines).signals, true);
    hide OnLines, Parse, CallsOf, Extracted, Places;
  }

  /** A text with no open tag, or one that is never closed, is text throughout. */
  lemma ParseOfPlain(s: string)
    requires (forall k :: !OccursAt(s, OPEN, k)) || (forall k :: !OccursAt(s, CLOSE, k))
    ensures Parse(s) == Parsed(s, [])
  {
    LocateCuts(s);
    match Locate(s)
    case NoOpen =>
    case Unclosed(_, _) =>
    case Block(before, body, after) =>
      var k := |before + OPEN + body|;
      assert OccursAt(s, OPEN, |before|) by { assert s[|before|..|before| + |OPEN|] == OPEN; }
      assert OccursAt(s, CLOSE, k) by { assert s[k..k + |CLOSE|] == CLOSE; }
      assert false;
  }

  /** So a block whose body can be read, however it is cut into deltas, is one call and none of
      the text. */
  lemma OneBlockOneCall(extract: string -> Option<Call>, lines: seq<Line>, before: string, body: string,
                        after: string)
    returns (p: nat)
    requires WellTagged(extract, lines) && NoDone(lines)
    requires Content(lines) == before + OPEN + body + CLOSE + after && extract(body).Some?
    requires Find(before + OPEN, OPEN) == Some(|before|) && Find(body + CLOSE, CLOSE) == Some(|body|)
    requires forall k :: !OccursAt(after, OPEN, k)
    ensures var step := OnLines(extract, State("", false, false), lines);
            && p < |step.signals| && step.signals[p] == ToolCall(extract(body).value)
            && (forall i: nat | i < |step.signals| && step.signals[i].ToolCall? && step.signals[i].call.inband ::
                  i == p)
            && TextOf(step.signals) + step.state.buf == before + after
  {
    ParseOfPlain(after);
    ParseOfBlock(before, body, after);
    hide *;
    assert Parse(Content(lines)) == Parsed(before + after, [body]) by { assert [body] + [] == [body]; }
    FromStart(extract, lines);
    p := OneBodyOneCall(extract, lines, body);
  }

  lemma OneBodyOneCall(extract: string -> Option<Call>, lines: seq<Line>, body: string) returns (p: nat)
    requires WellTagged(extract, lines) && NoDone(lines)
    requires Parse(Content(lines)).bodies == [body] && extract(body).Some?
    ensures var signals := OnLines(extract, State("", false, false), lines).signals;
            && p < |signals| && signals[p] == ToolCall(extract(body).value)
            && (forall i: nat | i < |signals| && signals[i].ToolCall? && signals[i].call.inband :: i == p)
  {
    hide *;
    CallsAreHoisted(extract, lines);
    var signals := OnLines(extract, State("", false, false), lines).signals;
    var out := Places(AreCalls(signals, true));
    OneReadable(extract, body);
    PlacesAre(AreCalls(signals, true));
    CallMarks(signals, true);
    p := out[0];
    assert forall i: nat :: i in out ==> i == p;
  }

  lemma OneReadable(extract: string -> Option<Call>, body: string)
    requires extract(body).Some?
    ensures Places(Readable(extract, [body])) == [0]
  {
    var marks := Readable(extract, [body]);
    assert marks == [true] && marks[..0] == [];
  }

  lemma CallMarks(signals: seq<Signal>, inband: bool)
    ensures |AreCalls(signals, inband)| == |signals|
    ensures forall i | 0 <= i < |signals| ::
              AreCalls(signals, inband)[i] <==> signals[i].ToolCall? && signals[i].call.inband == inband
  {}

  /** The calls the server sent as such, in order, and all thinking. */
  function SentCalls(lines: seq<Line>): seq<Call> {
    if lines == [] then [] else (if lines[0].Delta? then lines[0].calls else []) + SentCalls(lines[1..])
  }

  function Thought(lines: seq<Line>): string {
    if lines == [] then "" else (if lines[0].Delta? then lines[0].thinking else "") + Thought(lines[1..])
  }

  function ThinkingOf(signals: seq<Signal>): string {
    if signals == [] then "" else
    (if signals[0].Thinking? then signals[0].delta else "") + ThinkingOf(signals[1..])
  }

  lemma {:induction false} ThinkingAppend(a: seq<Signal>, b: seq<Signal>)
    ensures ThinkingOf(a + b) == ThinkingOf(a) + ThinkingOf(b)
  {
    if a == [] {
      assert a + b == b;
    } else {
      ThinkingAppend(a[1..], b);
      assert (a + b)[1..] == a[1..] + b;
      ConcatAssoc(if a[0].Thinking? then a[0].delta else "", ThinkingOf(a[1..]), ThinkingOf(b));
    }
  }

  lemma {:induction false} NoThinking(signals: seq<Signal>)
    requires forall s | s in signals :: !s.Thinking?
    ensures ThinkingOf(signals) == ""
  {
    if signals != [] {
      NoThinking(signals[1..]);
    }
  }

  lemma LineForwards(extract: string -> Option<Call>, st: State, line: Line)
    requires WellTagged(extract, [line])
    ensures var signals := OnLine(extract, st, line).signals;
            && CallsOf(signals, false) == (if line.Delta? then line.calls else [])
            && ThinkingOf(signals) == if line.Delta? then line.thinking else ""
  {
    var signals := OnLine(extract, st, line).signals;
    if line.Delta? {
      OneWellTagged(extract, line);
      DeltaParts(extract, st, line);
      hide OnLine, ScanDelta, Extracted, WellTagged;
      var sc := ScanDelta(st.buf, line.content);
      var think := if line.thinking == "" then [] else [Thinking(line.thinking)];
      var inband, text := ToolSignals(Extracted(extract, sc.bodies)), TextSignal(sc.text);
      var sent := ToolSignals(line.calls);
      ExtractedInband(extract, sc.bodies);
      ToolSignalsProject(Extracted(extract, sc.bodies), true, false);
      ToolSignalsProject(line.calls, false, false);
      NoThinking(inband);
      NoThinking(text);
      NoThinking(sent);
      OneThought(line.thinking);
      TextIsNoCall(sc.text);
      hide *;
      ProjectionsAppend(think, inband, false);
      ProjectionsAppend(think + inband, text, false);
      ProjectionsAppend(think + inband + text, sent, false);
      ThinkingAppend(think, inband);
      ThinkingAppend(think + inband, text);
      ThinkingAppend(think + inband + text, sent);
    } else if line.Done? {
      var fin := Finished(if st.pending then "tool_calls" else "stop", line.evalCount);
      NoThinking(signals);
      TextIsNoCall(st.buf);
      OneCall(fin, false);
      ProjectionsAppend(TextSignal(st.buf), [fin], false);
    }
  }

  lemma OneThought(t: string)
    ensures var think := if t == "" then [] else [Thinking(t)]; ThinkingOf(think) == t && CallsOf(think, false) == []
  {
    assert [Thinking(t)][1..] == [] && t + "" == t;
  }

  lemma TextIsNoCall(t: string)
    ensures CallsOf(TextSignal(t), false) == []
  {
    assert [Text(t)][1..] == [];
  }

  /** Whatever the lines: the calls the server sends are passed on in order, unchanged and once
      each, and so is all thinking. */
  lemma {:induction false} SentIsForwarded(extract: string -> Option<Call>, st: State, lines: seq<Line>)
    requires WellTagged(extract, lines)
    ensures var signals := OnLines(extract, st, lines).signals;
            CallsOf(signals, false) == SentCalls(lines) && ThinkingOf(signals) == Thought(lines)
    decreases |lines|
  {
    if lines != [] {
      var first := OnLine(extract, st, lines[0]);
      LineForwards(extract, st, lines[0]);
      SentIsForwarded(extract, first.state, lines[1..]);
      var later := OnLines(extract, first.state, lines[1..]);
      ProjectionsAppend(first.signals, later.signals, false);
      ThinkingAppend(first.signals, later.signals);
    }
  }

  lemma EmittedIs(before: seq<Signal>, step: Step)
    ensures Emitted(before, step).signals == before + step.signals
  {
  }

  lemma DoneStep(extract: string -> Option<Call>, st: State, n: int)
    ensures OnLine(extract, st, Done(n)).signals
            == TextSignal(st.buf) + [Finished(if st.pending then "tool_calls" else "stop", n)]
  {
  }

  lemma FromStart(extract: string -> Option<Call>, lines: seq<Line>)
    requires WellTagged(extract, lines) && forall l | l in lines :: !l.Done?
    ensures var step := OnLines(extract, State("", false, false), lines); var whole := Parse(Content(lines));
            TextOf(step.signals) + step.state.buf == whole.text
              && CallsOf(step.signals, true) == Extracted(extract, whole.bodies)
  {
    assert Settled("") by { assert Locate("").NoOpen?; }
    CuttingIrrelevant(extract, State("", false, false), lines);
    assert "" + Content(lines) == Content(lines);
  }

  lemma PendingWithoutDone(extract: string -> Option<Call>, lines: seq<Line>)
    requires forall l | l in lines :: !l.Done?
    ensures var step := OnLines(extract, State("", false, false), lines);
            step.state.pending <==> HasCall(step.signals)
  {
    PendingIff(extract, lines);
    var signals := OnLines(extract, State("", false, false), lines).signals;
    NoFinish(extract, State("", false, false), lines);
    SinceFinishAppend([], signals);
    assert [] + signals == signals;
  }

  lemma DoneProjects(before: seq<Signal>, buf: string, fin: Signal)
    requires fin.Finished?
    ensures var all := before + (TextSignal(buf) + [fin]);
            && TextOf(all) == TextOf(before) + buf && CallsOf(all, true) == CallsOf(before, true)
            && (HasCall(all) <==> HasCall(before)) && all[|all| - 1] == fin
  {
    assert [fin][1..] == [];
    TextSignalProjects(buf);
    ProjectionsAppend(before, TextSignal(buf) + [fin], true);
    ProjectionsAppend(TextSignal(buf), [fin], true);
    assert buf + "" == buf;
  }

  lemma {:induction false} NoFinish(extract: string -> Option<Call>, st: State, lines: seq<Line>)
    requires forall l | l in lines :: !l.Done?
    ensures forall s | s in OnLines(extract, st, lines).signals :: !s.Finished?
    decreases |lines|
  {
    if lines != [] {
      PendingStep(extract, st, lines[0]);
      NoFinish(extract, OnLine(extract, st, lines[0]).state, lines[1..]);
    }
  }

  /** When the connection drops before the done line, what is lost is what a drain of the
      content keeps: the text shown is whole if and only if no tag is open, not even in part,
      behind the last complete block. */
  lemma CutShort(extract: string -> Option<Call>, lines: seq<Line>)
    requires WellTagged(extract, lines) && forall l | l in lines :: !l.Done?
    ensures var step := OnLines(extract, State("", false, false), lines);
            && TextOf(step.signals) + Scan(Content(lines)).rest == Parse(Content(lines)).text
            && (TextOf(step.signals) == Parse(Content(lines)).text <==> Scan(Content(lines)).rest == "")
            && (Scan(Content(lines)).rest == "" <==>
                Find(Trailing(Content(lines)), OPEN).None?
                && forall n | 1 <= n < |OPEN| :: !EndsWith(Trailing(Content(lines)), OPEN[..n]))
  {
    var st0 := State("", false, false);
    assert Kept("") by { KeptNothing(); }
    assert "" + Content(lines) == Content(lines);
    ShownSoFar(extract, st0, lines);
    FromStart(extract, lines);
    NothingKeptIff(Content(lines));
    hide *;
    var text, rest := TextOf(OnLines(extract, st0, lines).signals), Scan(Content(lines)).rest;
    assert |text + rest| == |text| + |rest|;
    assert rest == "" ==> text + rest == text;
  }

  lemma KeptNothing()
    ensures Kept("")
  {
    assert Locate("").NoOpen?;
  }

  // ------------------------------------------------------------------ the finish reason, over the lines

  predicate ServerCalls(lines: seq<Line>) {
    lines != [] && ((lines[0].Delta? && lines[0].calls != []) || ServerCalls(lines[1..]))
  }

  /** Lines hold a tool call: one sent as such, or one in a block of their content taken as a whole. */
  predicate HoldCall(extract: string -> Option<Call>, buf: string, lines: seq<Line>) {
    Extracted(extract, Parse(buf + Content(lines)).bodies) != [] || ServerCalls(lines)
  }

  predicate NoDone(lines: seq<Line>) {
    forall l | l in lines :: !l.Done?
  }

  /** The lines behind the last done line, and those in front of it. */
  function Tail(lines: seq<Line>): seq<Line> {
    if lines == [] || lines[|lines| - 1].Done? then [] else Tail(lines[..|lines| - 1]) + [lines[|lines| - 1]]
  }

  function Front(lines: seq<Line>): seq<Line> {
    if lines == [] then []
    else if lines[|lines| - 1].Done? then lines[..|lines| - 1]
    else Front(lines[..|lines| - 1])
  }

  lemma {:induction false} TailIsLast(lines: seq<Line>)
    ensures NoDone(Tail(lines))
    ensures DoneCount(lines) == 0 ==> Tail(lines) == lines
    ensures DoneCount(lines) > 0 ==> exists n :: lines == Front(lines) + [Done(n)] + Tail(lines)
    ensures DoneCount(lines) > 0 ==> |Front(lines)| < |lines|
  {
    if lines != [] {
      var init, last := lines[..|lines| - 1], lines[|lines| - 1];
      assert lines == init + [last];
      DoneCountAppend(init, [last]);
      assert [last][1..] == [];
      if last.Done? {
        assert lines == Front(lines) + [Done(last.evalCount)] + Tail(lines);
      } else {
        TailIsLast(init);
        if DoneCount(lines) > 0 {
          var n :| init == Front(init) + [Done(n)] + Tail(init);
          ConcatAssoc(Front(init) + [Done(n)], Tail(init), [last]);
          assert lines == Front(lines) + [Done(n)] + Tail(lines);
        }
      }
    }
  }

  lemma {:induction false} DoneCountAppend(a: seq<Line>, b: seq<Line>)
    ensures DoneCount(a + b) == DoneCount(a) + DoneCount(b)
  {
    if a == [] {
      assert a + b == b;
    } else {
      DoneCountAppend(a[1..], b);
      assert (a + b)[1..] == a[1..] + b;
    }
  }

  /** A tool call is emitted for some stretch of the lines, from one done line to the next. */
  predicate EmitCall(extract: string -> Option<Call>, lines: seq<Line>)
    decreases |lines|
  {
    || HoldCall(extract, "", Tail(lines))
    || (DoneCount(lines) > 0 && (TailIsLast(lines); EmitCall(extract, Front(lines))))
  }

  lemma HasCallAppend(a: seq<Signal>, b: seq<Signal>)
    ensures HasCall(a + b) <==> HasCall(a) || HasCall(b)
  {
    assert forall s :: s in a + b <==> s in a || s in b;
  }

  /** Without a done line a call is emitted, and pending, exactly when the lines hold one. */
  lemma {:induction false} StretchEmits(extract: string -> Option<Call>, st: State, lines: seq<Line>)
    requires NoDone(lines) && Settled(st.buf)
    ensures var step := OnLines(extract, st, lines);
            && (HasCall(step.signals) <==> HoldCall(extract, st.buf, lines))
            && (step.state.pending <==> st.pending || HoldCall(extract, st.buf, lines))
    decreases |lines|
  {
    if lines == [] {
      assert st.buf + "" == st.buf;
    } else {
      var line, rest := lines[0], lines[1..];
      assert line in lines && forall l | l in rest :: l in lines;
      var content := if line.Delta? then line.content else "";
      var step := OnLine(extract, st, line);
      LineEmits(extract, st, line);
      hide OnLine, HasCall, Extracted, Parse, ScanDelta, Settled;
      var sc := ScanDelta(st.buf, content);
      ScanDeltaThenParse(st.buf, content, Content(rest));
      ExtractedAppend(extract, sc.bodies, Parse(sc.rest + Content(rest)).bodies);
      StretchEmits(extract, step.state, rest);
      HasCallAppend(step.signals, OnLines(extract, step.state, rest).signals);
    }
  }

  lemma LineEmits(extract: string -> Option<Call>, st: State, line: Line)
    requires !line.Done?
    ensures var sc := ScanDelta(st.buf, if line.Delta? then line.content else "");
            var step := OnLine(extract, st, line);
            && step.state.buf == sc.rest
            && (HasCall(step.signals) <==> Extracted(extract, sc.bodies) != [] || (line.Delta? && line.calls != []))
            && (step.state.pending <==> st.pending || HasCall(step.signals))
  {
    hide Scan, Extracted;
    PendingStep(extract, st.(pending := false), line);
    assert Extracted(extract, []) == [] by { ExtractedNothing(extract); }
    if line.Delta? {
      DeltaParts(extract, st, line);
    }
  }

  lemma ExtractedNothing(extract: string -> Option<Call>)
    ensures Extracted(extract, []) == []
  {}

  /** Over any lines, done lines included: a call was emitted exactly when some stretch holds
      one, and one is pending exactly when the stretch behind the last done line does. */
  lemma {:induction false} LinesEmit(extract: string -> Option<Call>, lines: seq<Line>)
    ensures var step := OnLines(extract, State("", false, false), lines);
            && (HasCall(step.signals) <==> EmitCall(extract, lines))
            && (step.state.pending <==> HoldCall(extract, "", Tail(lines)))
    decreases |lines|
  {
    var st0 := State("", false, false);
    TailIsLast(lines);
    assert Settled("") by { assert Locate("").NoOpen?; }
    hide OnLine, OnLines, HasCall, HoldCall, Tail, Front, Settled;
    if DoneCount(lines) == 0 {
      StretchEmits(extract, st0, lines);
    } else {
      var front, tail := Front(lines), Tail(lines);
      var n :| lines == front + [Done(n)] + tail;
      LinesEmit(extract, front);
      var a := OnLines(extract, st0, front);
      var b := OnLine(extract, a.state, Done(n));
      var c := OnLines(extract, b.state, tail);
      OnLinesAppend(extract, st0, front, [Done(n)]);
      OneLine(extract, a.state, Done(n));
      OnLinesAppend(extract, st0, front + [Done(n)], tail);
      DoneResets(extract, a.state, n);
      StretchEmits(extract, b.state, tail);
      HasCallAppend(a.signals, b.signals);
      HasCallAppend(a.signals + b.signals, c.signals);
    }
  }

  lemma DoneResets(extract: string -> Option<Call>, st: State, n: int)
    ensures OnLine(extract, st, Done(n)).state == State("", false, true)
    ensures !HasCall(OnLine(extract, st, Done(n)).signals)
  {
    DoneStep(extract, st, n);
  }

  /** The reason of a done line after any lines of the request: "tool_calls" if and only if the
      lines behind the done line before it hold a call. So it says whether a call was emitted
      for the request if and only if none was, or those lines hold one. */
  lemma FinishReasonIff(extract: string -> Option<Call>, lines: seq<Line>, n: int)
    ensures var before := OnLines(extract, State("", false, false), lines);
            var signals := OnLine(extract, before.state, Done(n)).signals;
            && signals != []
            && signals[|signals| - 1]
               == Finished(if HoldCall(extract, "", Tail(lines)) then "tool_calls" else "stop", n)
            && ((signals[|signals| - 1].reason == "tool_calls" <==> HasCall(before.signals))
                <==> !EmitCall(extract, lines) || HoldCall(extract, "", Tail(lines)))
  {
    LinesEmit(extract, lines);
    DoneStep(extract, OnLines(extract, State("", false, false), lines).state, n);
    hide OnLine, OnLines, HasCall, HoldCall, Tail;
  }

  /** The reason of a second done line is "stop" whatever was called before: the property
      "tool_calls exactly when a call was emitted" is one of the first done line only. */
  lemma SecondDoneForgets(extract: string -> Option<Call>, call: Call)
    ensures var step := OnLines(extract, State("", false, false), [Delta("", "", [call]), Done(1), Done(2)]);
            HasCall(step.signals) && step.signals[|step.signals| - 1] == Finished("stop", 2)
  {
    var lines := [Delta("", "", [call]), Done(1), Done(2)];
    var st0 := State("", false, false);
    assert lines[1..] == [Done(1), Done(2)] && lines[1..][1..] == [Done(2)];
    OneLine(extract, State("", false, true), Done(2));
    var one := OnLine(extract, st0, lines[0]);
    assert one.signals == [ToolCall(call)] && one.state == State("", true, false);
    var two := OnLine(extract, one.state, Done(1));
    assert two.state == State("", false, true);
    assert OnLines(extract, st0, lines).signals[0] == ToolCall(call);
  }

  // ------------------------------------------------------------------ terminal signals

  function Terminals(signals: seq<Signal>): nat {
    if signals == [] then 0 else
    Terminals(signals[1..]) + if signals[0].Finished? || signals[0].Failed? then 1 else 0
  }

  function DoneCount(lines: seq<Line>): nat {
    if lines == [] then 0 else DoneCount(lines[1..]) + if lines[0].Done? then 1 else 0
  }

  lemma {:induction false} TerminalsAppend(a: seq<Signal>, b: seq<Signal>)
    ensures Terminals(a + b) == Terminals(a) + Terminals(b)
  {
    if a == [] {
      assert a + b == b;
    } else {
      TerminalsAppend(a[1..], b);
      assert (a + b)[1..] == a[1..] + b;
    }
  }

  lemma {:induction false} NoTerminals(signals: seq<Signal>)
    requires forall s | s in signals :: !s.Finished? && !s.Failed?
    ensures Terminals(signals) == 0
  {
    if signals != [] {
      NoTerminals(signals[1..]);
    }
  }

  lemma {:induction false} TerminalsOfLines(extract: string -> Option<Call>, st: State, lines: seq<Line>)
    ensures var step := OnLines(extract, st, lines);
            Terminals(step.signals) == DoneCount(lines) && (step.state.done <==> st.done || DoneCount(lines) > 0)
    decreases |lines|
  {
    if lines != [] {
      var step := OnLine(extract, st, lines[0]);
      TerminalsOfLines(extract, step.state, lines[1..]);
      TerminalsOfLine(extract, st, lines[0]);
      hide OnLine, Terminals;
      TerminalsAppend(step.signals, OnLines(extract, step.state, lines[1..]).signals);
    }
  }

  lemma TerminalsOfLine(extract: string -> Option<Call>, st: State, line: Line)
    ensures var step := OnLine(extract, st, line);
            Terminals(step.signals) == (if line.Done? then 1 else 0) && (step.state.done <==> st.done || line.Done?)
  {
    var step := OnLine(extract, st, line);
    if line.Done? {
      TerminalsAppend(TextSignal(st.buf), [step.signals[|step.signals| - 1]]);
      NoTerminals(TextSignal(st.buf));
    } else {
      PendingStep(extract, st, line);
      NoTerminals(step.signals);
    }
  }

  /** From a request to the end of its stream there is at least one terminal signal, and
      exactly one unless there was more than one done line. */
  lemma {:induction false} TerminalSignals(extract: string -> Option<Call>, lines: seq<Line>)
    ensures var step := OnLines(extract, State("", false, false), lines);
            var all := step.signals + if step.state.done then [] else [Finished("stop", 0)];
            && Terminals(all) == (if DoneCount(lines) == 0 then 1 else DoneCount(lines))
            && Terminals(all) >= 1 && (Terminals(all) == 1 <==> DoneCount(lines) <= 1)
  {
    var step := OnLines(extract, State("", false, false), lines);
    TerminalsOfLines(extract, State("", false, false), lines);
    TerminalsAppend(step.signals, if step.state.done then [] else [Finished("stop", 0)]);
    assert [Finished("stop", 0)][1..] == [];
  }

  /** Not every response has one: a second done line is a second terminal signal. */
  lemma TwoTerminals(extract: string -> Option<Call>, m: int, n: int)
    ensures var step := OnLines(extract, State("", false, false), [Done(m), Done(n)]);
            Terminals(step.signals + if step.state.done then [] else [Finished("stop", 0)]) == 2
  {
    var lines := [Done(m), Done(n)];
    assert lines[1..] == [Done(n)] && [Done(n)][1..] == [];
    assert DoneCount([Done(n)]) == 1;
    assert DoneCount(lines) == 2;
    hide *;
    TerminalSignals(extract, lines);
  }
}
