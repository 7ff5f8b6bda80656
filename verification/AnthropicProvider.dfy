/**
  The Anthropic provider's stream assembly (backend/api/anthropic-provider.cpp): content blocks
  put together event by event, the finished turn remembered at message_stop, and the terminal
  signals of a request.

  `parseArgs` is an oracle: the text of the JSON object that a tool's streamed input parses
  to, "{}" when it does not parse. Token counts are not modelled.
 */
module AnthropicProvider {
  import opened Common
  import opened ToolTurns
  import opened AnthropicHistory
  import opened BoundedCache
  import opened LlmMessages

  datatype Start = Start(kind: string, thinking: string, text: string, signature: string,
                         data: string, id: string, name: string)

  datatype Delta =
    | SignatureDelta(signature: string)
    | TextDelta(text: string)
    | InputJsonDelta(partialJson: string)
    | ThinkingDelta(thinking: string)
    | OtherDelta

  datatype Event =
    | MessageStart
    | BlockStart(block: Start)
    | BlockDelta(delta: Delta)
    | BlockStop
    | MessageDelta(stopReason: string)
    | MessageStop
    | ErrorEvent(kind: string, message: string)
    | OtherEvent

  datatype Signal =
    | TextChunk(text: string)
    | ThinkingChunk(text: string)
    | ToolCall(use: Block)
    | FinalChunk(reason: string)
    | Finished(reason: string)
    | Failed(message: string)

  function MapStopReason(stopReason: string): string {
    if stopReason == "tool_use" then "tool_calls"
    else if stopReason == "max_tokens" || stopReason == "model_context_window_exceeded" then "length"
    else if stopReason == "refusal" then "content_filter"
    else "stop"
  }

  /** The block being streamed, and the tool call pending in it. */
  datatype Open = Open(kind: string, text: string, signature: string, data: string,
                       useId: string, useName: string, useJson: string)

  datatype State = State(
    open: Open, turnBlocks: seq<Block>, stopReason: string, finished: bool, cache: Cache<seq<Block>>)

  datatype Step = Step(state: State, signals: seq<Signal>)

  class AnthropicProvider {
    const parseArgs: string -> string
    var blockType: string
    var blockText: string
    var blockSignature: string
    var blockData: string
    var pendingToolUseId: string
    var pendingToolName: string
    var pendingToolInputJson: string
    var turnBlocks: seq<Block>
    var stopReason: string
    var finishedEmitted: bool
    var toolTurns: map<string, seq<Block>>
    var toolTurnOrder: seq<string>
    var signals: seq<Signal>

    constructor (parseArgs: string -> string)
      ensures this.parseArgs == parseArgs && Now() == Initial() && signals == []
    {
      this.parseArgs := parseArgs;
      blockType, blockText, blockSignature, blockData := "", "", "", "";
      pendingToolUseId, pendingToolName, pendingToolInputJson := "", "", "";
      turnBlocks, stopReason, finishedEmitted := [], "", false;
      toolTurns, toolTurnOrder, signals := map[], [], [];
    }

    function OpenNow(): Open
      reads this`blockType, this`blockText, this`blockSignature, this`blockData
      reads this`pendingToolUseId, this`pendingToolName, this`pendingToolInputJson
    {
      Open(blockType, blockText, blockSignature, blockData, pendingToolUseId, pendingToolName, pendingToolInputJson)
    }

    function CacheNow(): Cache<seq<Block>>
      reads this`toolTurns, this`toolTurnOrder
    {
      Cache(toolTurns, toolTurnOrder)
    }

    function Now(): State
      reads this
    {
      State(OpenNow(), turnBlocks, stopReason, finishedEmitted, CacheNow())
    }

    method Emit(s: Signal)
      modifies this`signals
      ensures signals == old(signals) + [s]
    {
      signals := signals + [s];
    }

    method ResetRequest()
      modifies this`pendingToolUseId, this`pendingToolName, this`pendingToolInputJson, this`finishedEmitted
      modifies this`turnBlocks, this`blockType, this`stopReason
      ensures Now() == Reset(old(Now()))
    {
      pendingToolUseId, pendingToolName, pendingToolInputJson := "", "", "";
      finishedEmitted := false;
      turnBlocks := [];
      blockType, stopReason := "", "";
    }

    method SendRequest(apiKey: string)
      modifies this
      ensures Now() == if apiKey == "" then old(Now()) else Reset(old(Now()))
      ensures signals == old(signals) + if apiKey == "" then [Failed("Anthropic API key not configured")] else []
    {
      hide Reset;
      if apiKey == "" {
        Emit(Failed("Anthropic API key not configured"));
        return;
      }
      ResetRequest();
      assert signals + [] == signals;
    }

    method OnBlockStart(block: Start)
      modifies this`blockType, this`blockText, this`blockSignature, this`blockData
      modifies this`pendingToolUseId, this`pendingToolName, this`pendingToolInputJson
      ensures OpenNow() == Opened(old(OpenNow()), block)
    {
      blockType := block.kind;
      blockText := if block.kind == "thinking" then block.thinking else block.text;
      blockSignature, blockData := block.signature, block.data;
      if block.kind == "tool_use" {
        pendingToolUseId, pendingToolName, pendingToolInputJson := block.id, block.name, "";
      }
    }

    method OnBlockDelta(delta: Delta)
      modifies this`blockText, this`blockSignature, this`pendingToolInputJson, this`signals
      ensures OpenNow() == Extended(old(OpenNow()), delta)
      ensures signals == old(signals) + Streamed(delta)
    {
      match delta {
        case SignatureDelta(signature) => blockSignature := blockSignature + signature;
        case TextDelta(text) =>
          blockText := blockText + text;
          if text != "" {
            Emit(TextChunk(text));
          }
        case InputJsonDelta(partialJson) => pendingToolInputJson := pendingToolInputJson + partialJson;
        case ThinkingDelta(thinking) =>
          blockText := blockText + thinking;
          if thinking != "" {
            Emit(ThinkingChunk(thinking));
          }
        case OtherDelta =>
      }
      assert old(signals) + [] == old(signals);
    }

    method RecordBlock()
      modifies this`turnBlocks
      ensures turnBlocks == old(turnBlocks) + PlainOf(old(OpenNow()))
    {
      assert turnBlocks + [] == turnBlocks;
      if blockType == "thinking" {
        turnBlocks := turnBlocks + [Thinking(blockText, blockSignature)];
      } else if blockType == "redacted_thinking" {
        turnBlocks := turnBlocks + [RedactedThinking(blockData)];
      } else if blockType == "text" && blockText != "" {
        turnBlocks := turnBlocks + [Text(blockText)];
      }
    }

    method RecordToolUse()
      modifies this`turnBlocks, this`pendingToolUseId, this`pendingToolName, this`pendingToolInputJson, this`signals
      ensures turnBlocks == old(turnBlocks) + UseOf(parseArgs, old(OpenNow()))
      ensures OpenNow() == if old(pendingToolName) != "" then NoUse(old(OpenNow())) else old(OpenNow())
      ensures signals == old(signals) + CallSignals(UseOf(parseArgs, old(OpenNow())))
    {
      if pendingToolName != "" {
        var argsObj := "{}";
        if pendingToolInputJson != "" {
          argsObj := parseArgs(pendingToolInputJson);
        }
        var use := ToolUse(pendingToolUseId, pendingToolName, argsObj);
        turnBlocks := turnBlocks + [use];
        assert CallSignals([use]) == [ToolCall(use)];
        Emit(ToolCall(use));
        pendingToolUseId, pendingToolName, pendingToolInputJson := "", "", "";
      } else {
        assert turnBlocks + [] == turnBlocks;
        assert signals + CallSignals([]) == signals;
      }
    }

    method OnBlockStop()
      modifies this
      ensures Now() == old(Now()).(open := Closed(old(OpenNow())),
                                   turnBlocks := old(turnBlocks) + Finish(parseArgs, old(OpenNow())))
      ensures signals == old(signals) + CallSignals(UseOf(parseArgs, old(OpenNow())))
    {
      hide PlainOf, UseOf, CallSignals;
      RecordBlock();
      RecordToolUse();
      ConcatAssoc(old(turnBlocks), PlainOf(old(OpenNow())), UseOf(parseArgs, old(OpenNow())));
      blockType := "";
    }

    method OnMessageDelta(reason: string)
      modifies this`stopReason, this`signals
      ensures stopReason == if Stops(reason) then MapStopReason(reason) else old(stopReason)
      ensures signals == old(signals) + if Stops(reason) then [FinalChunk(MapStopReason(reason))] else []
    {
      if reason != "" && reason != "null" {
        var mappedReason := MapStopReason(reason);
        stopReason := mappedReason;
        Emit(FinalChunk(mappedReason));
      } else {
        assert signals + [] == signals;
      }
    }

    /** The finished turn goes into the replay cache when it holds an identified tool use;
        the oldest entries leave. */
    method RememberToolTurn()
      modifies this`turnBlocks, this`toolTurns, this`toolTurnOrder
      ensures turnBlocks == [] && CacheNow() == Remember(old(CacheNow()), old(turnBlocks))
    {
      hide Key;
      var useIds: seq<string> := [];
      for i := 0 to |turnBlocks|
        invariant turnBlocks == old(turnBlocks) && CacheNow() == old(CacheNow())
        invariant useIds == UseIds(turnBlocks[..i])
      {
        assert turnBlocks[..i + 1][..i] == turnBlocks[..i];
        if turnBlocks[i].ToolUse? {
          useIds := useIds + [turnBlocks[i].id];
        }
      }
      assert turnBlocks[..|turnBlocks|] == turnBlocks;
      var key := ToolTurnKey(useIds);
      if key != "" {
        if key !in toolTurns {
          toolTurnOrder := toolTurnOrder + [key];
        }
        toolTurns := toolTurns[key := turnBlocks];
        while |toolTurnOrder| > MAX_REMEMBERED
          invariant Evict(MAX_REMEMBERED, CacheNow()) == Remember(old(CacheNow()), old(turnBlocks))
        {
          toolTurns := toolTurns - {toolTurnOrder[0]};
          toolTurnOrder := toolTurnOrder[1..];
        }
      }
      turnBlocks := [];
    }

    method OnMessageStop()
      modifies this`turnBlocks, this`toolTurns, this`toolTurnOrder, this`signals, this`finishedEmitted
      ensures turnBlocks == [] && finishedEmitted && CacheNow() == Remember(old(CacheNow()), old(turnBlocks))
      ensures signals == old(signals) + [Finished(if old(stopReason) == "" then "stop" else old(stopReason))]
    {
      RememberToolTurn();
      Emit(Finished(if stopReason == "" then "stop" else stopReason));
      finishedEmitted := true;
    }

    method ParseSseEvent(event: Event)
      modifies this
      ensures Step(Now(), signals) == Emitted(old(signals), OnEvent(parseArgs, old(Now()), event))
      ensures event.ErrorEvent? ==> signals == old(signals) + [Failed("[" + event.kind + "] " + event.message)]
    {
      hide Opened, Extended, Streamed, Closed, Finish, UseOf, Remember, CallSignals, MapStopReason;
      assert signals + [] == signals;
      match event {
        case MessageStart => turnBlocks, blockType := [], "";
        case BlockStart(block) => OnBlockStart(block);
        case BlockDelta(delta) => OnBlockDelta(delta);
        case BlockStop => OnBlockStop();
        case MessageDelta(reason) => OnMessageDelta(reason);
        case MessageStop => OnMessageStop();
        case ErrorEvent(kind, message) => Emit(Failed("[" + kind + "] " + message));
        case OtherEvent =>
      }
    }

    /** The end of the stream: a synthetic stop when no message_stop came. */
    method OnStreamFinished()
      modifies this
      ensures Step(Now(), signals) == Emitted(old(signals), OnEnd(old(Now())))
    {
      if !finishedEmitted {
        Emit(Finished("stop"));
        finishedEmitted := true;
      } else {
        assert signals + [] == signals;
      }
      pendingToolUseId, pendingToolName, pendingToolInputJson := "", "", "";
    }
  }

  // ------------------------------------------------------------------ the parser's steps

  function Initial(): State {
    State(Open("", "", "", "", "", "", ""), [], "", false, Cache(map[], []))
  }

  function NoUse(open: Open): Open {
    open.(useId := "", useName := "", useJson := "")
  }

  /** The state a request starts from: only the remembered turns stay. */
  function Reset(st: State): State {
    State(NoUse(st.open).(kind := ""), [], "", false, st.cache)
  }

  function Emitted(before: seq<Signal>, step: Step): Step {
    step.(signals := before + step.signals)
  }

  function Opened(open: Open, block: Start): Open {
    var o := open.(kind := block.kind, text := if block.kind == "thinking" then block.thinking else block.text,
                   signature := block.signature, data := block.data);
    if block.kind == "tool_use" then o.(useId := block.id, useName := block.name, useJson := "") else o
  }

  function Extended(open: Open, delta: Delta): Open {
    match delta
    case SignatureDelta(signature) => open.(signature := open.signature + signature)
    case TextDelta(text) => open.(text := open.text + text)
    case InputJsonDelta(partialJson) => open.(useJson := open.useJson + partialJson)
    case ThinkingDelta(thinking) => open.(text := open.text + thinking)
    case OtherDelta => open
  }

  function Streamed(delta: Delta): seq<Signal> {
    match delta
    case TextDelta(text) => if text != "" then [TextChunk(text)] else []
    case ThinkingDelta(thinking) => if thinking != "" then [ThinkingChunk(thinking)] else []
    case _ => []
  }

  function PlainOf(open: Open): seq<Block> {
    if open.kind == "thinking" then [Thinking(open.text, open.signature)]
    else if open.kind == "redacted_thinking" then [RedactedThinking(open.data)]
    else if open.kind == "text" && open.text != "" then [Text(open.text)]
    else []
  }

  function UseOf(parseArgs: string -> string, open: Open): seq<Block> {
    if open.useName == "" then [] else
    [ToolUse(open.useId, open.useName, if open.useJson == "" then "{}" else parseArgs(open.useJson))]
  }

  function Finish(parseArgs: string -> string, open: Open): seq<Block> {
    PlainOf(open) + UseOf(parseArgs, open)
  }

  function CallSignals(uses: seq<Block>): seq<Signal> {
    seq(|uses|, i requires 0 <= i < |uses| => ToolCall(uses[i]))
  }

  function Closed(open: Open): Open {
    (if open.useName != "" then NoUse(open) else open).(kind := "")
  }

  predicate Stops(reason: string) {
    reason != "" && reason != "null"
  }

  function OnEvent(parseArgs: string -> string, st: State, event: Event): Step {
    match event
    case MessageStart => Step(st.(turnBlocks := [], open := st.open.(kind := "")), [])
    case BlockStart(block) => Step(st.(open := Opened(st.open, block)), [])
    case BlockDelta(delta) => Step(st.(open := Extended(st.open, delta)), Streamed(delta))
    case BlockStop =>
      Step(st.(open := Closed(st.open), turnBlocks := st.turnBlocks + Finish(parseArgs, st.open)),
           CallSignals(UseOf(parseArgs, st.open)))
    case MessageDelta(reason) =>
      if Stops(reason)
      then Step(st.(stopReason := MapStopReason(reason)), [FinalChunk(MapStopReason(reason))])
      else Step(st, [])
    case MessageStop =>
      Step(st.(turnBlocks := [], finished := true, cache := Remember(st.cache, st.turnBlocks)),
           [Finished(if st.stopReason == "" then "stop" else st.stopReason)])
    case ErrorEvent(kind, message) => Step(st, [Failed("[" + kind + "] " + message)])
    case OtherEvent => Step(st, [])
  }

  function OnEnd(st: State): Step {
    Step(st.(open := NoUse(st.open), finished := true), if st.finished then [] else [Finished("stop")])
  }

  function OnEvents(parseArgs: string -> string, st: State, events: seq<Event>): Step {
    if events == [] then Step(st, []) else
    var before := OnEvents(parseArgs, st, events[..|events| - 1]);
    Emitted(before.signals, OnEvent(parseArgs, before.state, events[|events| - 1]))
  }

  lemma {:induction false} EventsAppend(parseArgs: string -> string, st: State, a: seq<Event>, b: seq<Event>)
    ensures var one := OnEvents(parseArgs, st, a);
            OnEvents(parseArgs, st, a + b) == Emitted(one.signals, OnEvents(parseArgs, one.state, b))
  {
    hide OnEvent;
    var one := OnEvents(parseArgs, st, a);
    if b == [] {
      assert a + b == a;
      assert one.signals + [] == one.signals;
    } else {
      var init, last := b[..|b| - 1], b[|b| - 1];
      EventsAppend(parseArgs, st, a, init);
      assert (a + b)[..|a + b| - 1] == a + init;
      var two := OnEvents(parseArgs, one.state, init);
      ConcatAssoc(one.signals, two.signals, OnEvent(parseArgs, two.state, last).signals);
    }
  }

  lemma OneEvent(parseArgs: string -> string, st: State, event: Event)
    ensures OnEvents(parseArgs, st, [event]) == OnEvent(parseArgs, st, event)
  {
    hide OnEvent;
    assert [event][..0] == [];
    assert [] + OnEvent(parseArgs, st, event).signals == OnEvent(parseArgs, st, event).signals;
  }

  // ------------------------------------------------------------------ a well-bracketed turn

  datatype SentBlock = SentBlock(start: Start, deltas: seq<Delta>)

  /** A turn as the API sends it: whole blocks, and between them events that open none. */
  datatype Item = Sent(block: SentBlock) | Aside(event: Event)

  predicate IsAside(event: Event) {
    event.MessageDelta? || event.ErrorEvent? || event.OtherEvent?
  }

  predicate WellBracketed(items: seq<Item>) {
    forall i | 0 <= i < |items| && items[i].Aside? :: IsAside(items[i].event)
  }

  function DeltaEvents(deltas: seq<Delta>): seq<Event> {
    seq(|deltas|, i requires 0 <= i < |deltas| => BlockDelta(deltas[i]))
  }

  function EventsOf(item: Item): seq<Event> {
    match item
    case Sent(block) => [BlockStart(block.start)] + DeltaEvents(block.deltas) + [BlockStop]
    case Aside(event) => [event]
  }

  function EventsOfAll(items: seq<Item>): seq<Event> {
    if items == [] then [] else EventsOfAll(items[..|items| - 1]) + EventsOf(items[|items| - 1])
  }

  /** The text of a block's deltas; the signatures and the input, likewise. */
  function TextOf(deltas: seq<Delta>): string {
    if deltas == [] then "" else
    TextOf(deltas[..|deltas| - 1])
    + match deltas[|deltas| - 1]
      case TextDelta(text) => text
      case ThinkingDelta(thinking) => thinking
      case _ => ""
  }

  function SignatureOf(deltas: seq<Delta>): string {
    if deltas == [] then "" else
    SignatureOf(deltas[..|deltas| - 1])
    + if deltas[|deltas| - 1].SignatureDelta? then deltas[|deltas| - 1].signature else ""
  }

  function JsonOf(deltas: seq<Delta>): string {
    if deltas == [] then "" else
    JsonOf(deltas[..|deltas| - 1])
    + if deltas[|deltas| - 1].InputJsonDelta? then deltas[|deltas| - 1].partialJson else ""
  }

  /** What is recorded of a block that was sent: its own fields with its deltas appended.
      Blocks of other kinds, empty texts and tool uses without a name leave nothing. */
  function Recorded(parseArgs: string -> string, block: SentBlock): seq<Block> {
    var start, deltas := block.start, block.deltas;
    if start.kind == "thinking" then [Thinking(start.thinking + TextOf(deltas), start.signature + SignatureOf(deltas))]
    else if start.kind == "redacted_thinking" then [RedactedThinking(start.data)]
    else if start.kind == "text" && start.text + TextOf(deltas) != "" then [Text(start.text + TextOf(deltas))]
    else if start.kind == "tool_use" && start.name != "" then
      [ToolUse(start.id, start.name, if JsonOf(deltas) == "" then "{}" else parseArgs(JsonOf(deltas)))]
    else []
  }

  function RecordedAll(parseArgs: string -> string, items: seq<Item>): seq<Block> {
    if items == [] then [] else
    RecordedAll(parseArgs, items[..|items| - 1])
    + match items[|items| - 1]
      case Sent(block) => Recorded(parseArgs, block)
      case Aside(_) => []
  }

  function Uses(blocks: seq<Block>): seq<Block> {
    if blocks == [] then [] else
    Uses(blocks[..|blocks| - 1]) + if blocks[|blocks| - 1].ToolUse? then [blocks[|blocks| - 1]] else []
  }

  /** The tool calls a run of signals hands to the app. */
  function Calls(signals: seq<Signal>): seq<Block> {
    if signals == [] then [] else
    Calls(signals[..|signals| - 1])
    + if signals[|signals| - 1].ToolCall? then [signals[|signals| - 1].use] else []
  }

  lemma {:induction false} CallsAppend(a: seq<Signal>, b: seq<Signal>)
    ensures Calls(a + b) == Calls(a) + Calls(b)
  {
    if b == [] {
      assert a + b == a;
    } else {
      CallsAppend(a, b[..|b| - 1]);
      assert (a + b)[..|a + b| - 1] == a + b[..|b| - 1];
    }
  }

  lemma {:induction false} UsesAppend(a: seq<Block>, b: seq<Block>)
    ensures Uses(a + b) == Uses(a) + Uses(b)
  {
    if b == [] {
      assert a + b == a;
    } else {
      UsesAppend(a, b[..|b| - 1]);
      assert (a + b)[..|a + b| - 1] == a + b[..|b| - 1];
    }
  }

  /** The open block with a run of deltas appended. */
  lemma {:induction false} DeltasExtend(parseArgs: string -> string, st: State, deltas: seq<Delta>)
    ensures var step := OnEvents(parseArgs, st, DeltaEvents(deltas));
            && step.state == st.(open := st.open.(text := st.open.text + TextOf(deltas),
                                                  signature := st.open.signature + SignatureOf(deltas),
                                                  useJson := st.open.useJson + JsonOf(deltas)))
            && Calls(step.signals) == []
  {
    if deltas == [] {
      assert st.open.text + "" == st.open.text && st.open.signature + "" == st.open.signature;
      assert st.open.useJson + "" == st.open.useJson;
    } else {
      var init, last := deltas[..|deltas| - 1], deltas[|deltas| - 1];
      DeltasExtend(parseArgs, st, init);
      assert DeltaEvents(deltas)[..|deltas| - 1] == DeltaEvents(init);
      var before := OnEvents(parseArgs, st, DeltaEvents(init));
      CallsAppend(before.signals, Streamed(last));
      StreamedCallsNone(last);
      DeltaExtends(st.open, init, last);
    }
  }

  lemma StreamedCallsNone(delta: Delta)
    ensures Calls(Streamed(delta)) == []
  {
    assert Streamed(delta) != [] ==> Streamed(delta)[..0] == [];
  }

  lemma DeltaExtends(open: Open, init: seq<Delta>, last: Delta)
    ensures var o := open.(text := open.text + TextOf(init), signature := open.signature + SignatureOf(init),
                           useJson := open.useJson + JsonOf(init));
            var deltas := init + [last];
            Extended(o, last) == open.(text := open.text + TextOf(deltas),
                                       signature := open.signature + SignatureOf(deltas),
                                       useJson := open.useJson + JsonOf(deltas))
  {
    assert (init + [last])[..|init|] == init;
  }

  /** One whole block: what is recorded of it is appended, and no call stays pending. */
  lemma BlockRecorded(parseArgs: string -> string, st: State, block: SentBlock)
    requires st.open.useName == ""
    ensures var step := OnEvents(parseArgs, st, EventsOf(Sent(block)));
            && step.state.open.useName == ""
            && step.state == st.(open := step.state.open, turnBlocks := st.turnBlocks + Recorded(parseArgs, block))
            && Calls(step.signals) == Uses(Recorded(parseArgs, block))
  {
    FinishIsRecorded(parseArgs, st.open, block);
    hide OnEvents, Opened, Closed, Finish, UseOf, Recorded, DeltaEvents;
    hide CallSignals, Calls, Uses, TextOf, SignatureOf, JsonOf;
    var first, middle := [BlockStart(block.start)], DeltaEvents(block.deltas);
    OneEvent(parseArgs, st, BlockStart(block.start));
    var one := st.(open := Opened(st.open, block.start));
    DeltasExtend(parseArgs, one, block.deltas);
    EventsAppend(parseArgs, st, first, middle);
    var two := OnEvents(parseArgs, one, middle);
    EventsAppend(parseArgs, st, first + middle, [BlockStop]);
    OneEvent(parseArgs, two.state, BlockStop);
    assert [] + two.signals == two.signals;
    CallsAppend(two.signals, CallSignals(UseOf(parseArgs, two.state.open)));
    assert [] + Uses(Recorded(parseArgs, block)) == Uses(Recorded(parseArgs, block));
  }

  lemma FinishIsRecorded(parseArgs: string -> string, open: Open, block: SentBlock)
    requires open.useName == ""
    ensures var o := Opened(open, block.start);
            var p := o.(text := o.text + TextOf(block.deltas), signature := o.signature + SignatureOf(block.deltas),
                        useJson := o.useJson + JsonOf(block.deltas));
            && Finish(parseArgs, p) == Recorded(parseArgs, block)
            && Calls(CallSignals(UseOf(parseArgs, p))) == Uses(Recorded(parseArgs, block))
            && Closed(p).useName == ""
  {
    hide TextOf, SignatureOf, JsonOf;
    assert "" + JsonOf(block.deltas) == JsonOf(block.deltas);
    var recorded := Recorded(parseArgs, block);
    assert recorded != [] ==> recorded[..0] == [];
    var o := Opened(open, block.start);
    var p := o.(text := o.text + TextOf(block.deltas), signature := o.signature + SignatureOf(block.deltas),
                useJson := o.useJson + JsonOf(block.deltas));
    var calls := CallSignals(UseOf(parseArgs, p));
    assert calls != [] ==> calls[..0] == [];
  }

  /** For any well-bracketed turn the blocks recorded are the blocks sent with their deltas
      concatenated, and the calls handed to the app are the tool uses among them. */
  lemma {:induction false} TurnRecorded(parseArgs: string -> string, st: State, items: seq<Item>)
    requires WellBracketed(items) && st.open.useName == ""
    ensures var step := OnEvents(parseArgs, st, EventsOfAll(items));
            && step.state.open.useName == ""
            && step.state.turnBlocks == st.turnBlocks + RecordedAll(parseArgs, items)
            && step.state.cache == st.cache && step.state.finished == st.finished
            && Calls(step.signals) == Uses(RecordedAll(parseArgs, items))
  {
    if items == [] {
      assert st.turnBlocks + [] == st.turnBlocks;
    } else {
      hide OnEvents, Recorded, EventsOf, Calls, Uses;
      var init, last := items[..|items| - 1], items[|items| - 1];
      TurnRecorded(parseArgs, st, init);
      var before := OnEvents(parseArgs, st, EventsOfAll(init));
      EventsAppend(parseArgs, st, EventsOfAll(init), EventsOf(last));
      CallsAppend(before.signals, OnEvents(parseArgs, before.state, EventsOf(last)).signals);
      match last {
        case Sent(block) =>
          BlockRecorded(parseArgs, before.state, block);
          ConcatAssoc(st.turnBlocks, RecordedAll(parseArgs, init), Recorded(parseArgs, block));
          UsesAppend(RecordedAll(parseArgs, init), Recorded(parseArgs, block));
        case Aside(event) =>
          AsideKeeps(parseArgs, before.state, event);
          assert RecordedAll(parseArgs, init) + [] == RecordedAll(parseArgs, init);
          assert Calls(before.signals) + [] == Calls(before.signals);
      }
    }
  }

  lemma AsideKeeps(parseArgs: string -> string, st: State, event: Event)
    requires IsAside(event)
    ensures var step := OnEvents(parseArgs, st, EventsOf(Aside(event)));
            step.state == st.(stopReason := step.state.stopReason) && Calls(step.signals) == []
  {
    hide OnEvents, MapStopReason, Remember, Opened, Extended, Closed, Finish, UseOf, CallSignals;
    OneEvent(parseArgs, st, event);
    var signals := OnEvent(parseArgs, st, event).signals;
    assert signals != [] ==> signals[..0] == [];
  }

  function TurnEvents(items: seq<Item>): seq<Event> {
    [MessageStart] + EventsOfAll(items) + [MessageStop]
  }

  /** At message_stop the recorded turn, and nothing else, is remembered. */
  lemma TurnRemembered(parseArgs: string -> string, st: State, items: seq<Item>)
    requires WellBracketed(items) && st.open.useName == ""
    ensures OnEvents(parseArgs, st, TurnEvents(items)).state.cache
            == Remember(st.cache, RecordedAll(parseArgs, items))
    ensures OnEvents(parseArgs, st, TurnEvents(items)).state.open.useName == ""
  {
    hide OnEvents, Remember;
    var first := [MessageStart];
    var one := st.(turnBlocks := [], open := st.open.(kind := ""));
    OneEvent(parseArgs, st, MessageStart);
    TurnRecorded(parseArgs, one, items);
    EventsAppend(parseArgs, st, first, EventsOfAll(items));
    var two := OnEvents(parseArgs, one, EventsOfAll(items)).state;
    EventsAppend(parseArgs, st, first + EventsOfAll(items), [MessageStop]);
    OneEvent(parseArgs, two, MessageStop);
    assert [] + RecordedAll(parseArgs, items) == RecordedAll(parseArgs, items);
  }

  // ------------------------------------------------------------------ every run

  lemma {:induction false} CacheKept(parseArgs: string -> string, st: State, events: seq<Event>)
    requires WellKeyed(st.cache)
    ensures WellKeyed(OnEvents(parseArgs, st, events).state.cache)
  {
    if events != [] {
      hide WellKeyed, Remember, Opened, Extended, Closed, Finish, UseOf, MapStopReason;
      CacheKept(parseArgs, st, events[..|events| - 1]);
      var before := OnEvents(parseArgs, st, events[..|events| - 1]).state;
      if events[|events| - 1].MessageStop? {
        RememberStep(before.cache, before.turnBlocks);
      }
    }
  }

  /** A request and what came of it: its events, and whether its stream came to an end or was
      cancelled. */
  datatype Exchange = Exchange(events: seq<Event>, ended: bool)

  function After(parseArgs: string -> string, st: State, exchange: Exchange): State {
    var end := OnEvents(parseArgs, Reset(st), exchange.events).state;
    if exchange.ended then OnEnd(end).state else end
  }

  function AfterAll(parseArgs: string -> string, st: State, exchanges: seq<Exchange>): State {
    if exchanges == [] then st else
    After(parseArgs, AfterAll(parseArgs, st, exchanges[..|exchanges| - 1]), exchanges[|exchanges| - 1])
  }

  /** In every reachable state the cache is well-formed, and a new request starts with no call
      pending, whatever the streams before it left open. */
  lemma {:induction false} ReachableCache(parseArgs: string -> string, exchanges: seq<Exchange>)
    ensures WellKeyed(AfterAll(parseArgs, Initial(), exchanges).cache)
    ensures Reset(AfterAll(parseArgs, Initial(), exchanges)).open.useName == ""
  {
    if exchanges != [] {
      hide WellKeyed, OnEvents;
      ReachableCache(parseArgs, exchanges[..|exchanges| - 1]);
      CacheKept(parseArgs, Reset(AfterAll(parseArgs, Initial(), exchanges[..|exchanges| - 1])),
        exchanges[|exchanges| - 1].events);
    }
  }

  /** The turns recorded at the message_stops of a stream, whatever its events. */
  function TurnsAt(parseArgs: string -> string, st: State, events: seq<Event>): seq<seq<Block>> {
    if events == [] then [] else
    var init := events[..|events| - 1];
    TurnsAt(parseArgs, st, init)
    + if events[|events| - 1].MessageStop? then [OnEvents(parseArgs, st, init).state.turnBlocks] else []
  }

  function TurnsOver(parseArgs: string -> string, st: State, exchanges: seq<Exchange>): seq<seq<Block>> {
    if exchanges == [] then [] else
    var init := exchanges[..|exchanges| - 1];
    TurnsOver(parseArgs, st, init)
    + TurnsAt(parseArgs, Reset(AfterAll(parseArgs, st, init)), exchanges[|exchanges| - 1].events)
  }

  lemma EventCache(parseArgs: string -> string, st: State, event: Event)
    ensures OnEvent(parseArgs, st, event).state.cache
            == if event.MessageStop? then Remember(st.cache, st.turnBlocks) else st.cache
  {
    hide Remember, Opened, Extended, Closed, Finish, UseOf, MapStopReason;
  }

  lemma {:induction false} CacheIsRemembered(parseArgs: string -> string, st: State, events: seq<Event>)
    ensures OnEvents(parseArgs, st, events).state.cache == RememberAll(st.cache, TurnsAt(parseArgs, st, events))
  {
    if events != [] {
      hide OnEvent, Remember;
      var init, last := events[..|events| - 1], events[|events| - 1];
      CacheIsRemembered(parseArgs, st, init);
      var before := OnEvents(parseArgs, st, init).state;
      EventCache(parseArgs, before, last);
      RememberAppend(st.cache, TurnsAt(parseArgs, st, init), [before.turnBlocks]);
      RememberOne(RememberAll(st.cache, TurnsAt(parseArgs, st, init)), before.turnBlocks);
      hide RememberAll;
      assert TurnsAt(parseArgs, st, init) + [] == TurnsAt(parseArgs, st, init);
    }
  }

  /** What later requests and their streams do to the cache: their turns are remembered. */
  lemma {:induction false} LaterCache(parseArgs: string -> string, st: State, exchanges: seq<Exchange>)
    ensures AfterAll(parseArgs, st, exchanges).cache == RememberAll(st.cache, TurnsOver(parseArgs, st, exchanges))
  {
    if exchanges != [] {
      hide OnEvents, Remember, TurnsAt;
      var init, last := exchanges[..|exchanges| - 1], exchanges[|exchanges| - 1];
      LaterCache(parseArgs, st, init);
      var before := AfterAll(parseArgs, st, init);
      CacheIsRemembered(parseArgs, Reset(before), last.events);
      RememberAppend(st.cache, TurnsOver(parseArgs, st, init), TurnsAt(parseArgs, Reset(before), last.events));
      hide RememberAll;
    }
  }

  /** The state after a request whose stream brought this turn. */
  function AfterTurn(parseArgs: string -> string, earlier: seq<Exchange>, items: seq<Item>, ended: bool): State {
    After(parseArgs, AfterAll(parseArgs, Initial(), earlier), Exchange(TurnEvents(items), ended))
  }

  lemma AfterTurnCache(parseArgs: string -> string, earlier: seq<Exchange>, items: seq<Item>, ended: bool)
    requires WellBracketed(items)
    ensures var before := AfterAll(parseArgs, Initial(), earlier).cache;
            && WellKeyed(before)
            && AfterTurn(parseArgs, earlier, items, ended).cache == Remember(before, RecordedAll(parseArgs, items))
  {
    hide OnEvents, Remember, WellKeyed, TurnEvents, WellBracketed, RecordedAll;
    ReachableCache(parseArgs, earlier);
    TurnRemembered(parseArgs, Reset(AfterAll(parseArgs, Initial(), earlier)), items);
  }

  /** No stream of the later requests brought a turn with the same tool-use ids. */
  ghost predicate KeyIsFree(parseArgs: string -> string, st: State, items: seq<Item>, later: seq<Exchange>) {
    forall t | t in TurnsOver(parseArgs, st, later) :: TurnKey(t) != TurnKey(RecordedAll(parseArgs, items))
  }

  /** The turn goes back as it came. Whatever requests and streams went before and came after,
      a message whose tool calls carry the turn's ids, in any order, is sent with exactly the
      blocks that were streamed, for as long as the turn is cached and no later turn took its
      key. */
  lemma SentBackAsReceived(parseArgs: string -> string, earlier: seq<Exchange>, items: seq<Item>, ended: bool,
                           later: seq<Exchange>, msg: Message)
    requires WellBracketed(items) && KeyIsFree(parseArgs, AfterTurn(parseArgs, earlier, items, ended), items, later)
    requires multiset(NonEmpty(CallIds(msg.toolCalls))) == multiset(NonEmpty(UseIds(RecordedAll(parseArgs, items))))
    ensures var turns := AfterAll(parseArgs, AfterTurn(parseArgs, earlier, items, ended), later).cache.entries;
            Key(CallIds(msg.toolCalls)) in turns ==>
              CallContent(turns, msg) == RecordedAll(parseArgs, items)
  {
    hide OnEvents, Remember, RememberAll, Key, NonEmpty, UseIds, After, AfterAll, AfterTurn, TurnsOver;
    hide CallIds, RecordedAll, TurnKey, WellBracketed, WellKeyed;
    var st := AfterTurn(parseArgs, earlier, items, ended);
    AfterTurnCache(parseArgs, earlier, items, ended);
    LaterCache(parseArgs, st, later);
    var turns := TurnsOver(parseArgs, st, later);
    assert forall i | 0 <= i < |turns| :: turns[i] in turns;
    ReplayedUnchanged(AfterAll(parseArgs, Initial(), earlier).cache, RecordedAll(parseArgs, items), turns,
      CallIds(msg.toolCalls));
  }

  /** When it still is: at place `p` of the order list, if and only if the keys the later turns
      added do not push it out. */
  lemma StillCachedIff(parseArgs: string -> string, earlier: seq<Exchange>, items: seq<Item>, ended: bool,
                       later: seq<Exchange>, p: nat)
    requires WellBracketed(items) && KeyIsFree(parseArgs, AfterTurn(parseArgs, earlier, items, ended), items, later)
    requires var c := AfterTurn(parseArgs, earlier, items, ended).cache;
             p < |c.order| && c.order[p] == TurnKey(RecordedAll(parseArgs, items))
    ensures var st := AfterTurn(parseArgs, earlier, items, ended);
            TurnKey(RecordedAll(parseArgs, items)) in AfterAll(parseArgs, st, later).cache.entries <==>
            |st.cache.order| + |Fresh(MAX_REMEMBERED, st.cache, Keyed(TurnsOver(parseArgs, st, later)))|
            <= MAX_REMEMBERED + p
  {
    hide OnEvents, Remember, RememberAll, After, AfterAll, AfterTurn, TurnsOver, Keyed, Fresh, PutAll;
    hide RecordedAll, TurnKey, WellBracketed;
    var st := AfterTurn(parseArgs, earlier, items, ended);
    AfterTurnCache(parseArgs, earlier, items, ended);
    RememberStep(AfterAll(parseArgs, Initial(), earlier).cache, RecordedAll(parseArgs, items));
    LaterCache(parseArgs, st, later);
    var turns := TurnsOver(parseArgs, st, later);
    RememberedIsPut(st.cache, turns);
    assert forall i | 0 <= i < |turns| :: turns[i] in turns;
    KeyedKeys(turns, TurnKey(RecordedAll(parseArgs, items)));
    StaysCachedIff(MAX_REMEMBERED, st.cache, Keyed(turns), p);
  }

  // ------------------------------------------------------------------ terminal signals

  function Terminals(signals: seq<Signal>): nat {
    if signals == [] then 0 else
    Terminals(signals[..|signals| - 1])
    + if signals[|signals| - 1].Finished? || signals[|signals| - 1].Failed? then 1 else 0
  }

  function MessageStops(events: seq<Event>): nat {
    if events == [] then 0 else
    MessageStops(events[..|events| - 1]) + if events[|events| - 1].MessageStop? then 1 else 0
  }

  function Errors(events: seq<Event>): nat {
    if events == [] then 0 else
    Errors(events[..|events| - 1]) + if events[|events| - 1].ErrorEvent? then 1 else 0
  }

  lemma {:induction false} TerminalsAppend(a: seq<Signal>, b: seq<Signal>)
    ensures Terminals(a + b) == Terminals(a) + Terminals(b)
  {
    if b == [] {
      assert a + b == a;
    } else {
      TerminalsAppend(a, b[..|b| - 1]);
      assert (a + b)[..|a + b| - 1] == a + b[..|b| - 1];
    }
  }

  lemma EventTerminals(parseArgs: string -> string, st: State, event: Event)
    ensures Terminals(OnEvent(parseArgs, st, event).signals) == if event.MessageStop? || event.ErrorEvent? then 1 else 0
  {
    hide Remember, MapStopReason;
    var signals := OnEvent(parseArgs, st, event).signals;
    assert |signals| <= 1;
    assert signals != [] ==> signals[..0] == [];
  }

  lemma EventState(parseArgs: string -> string, st: State, event: Event)
    ensures var next := OnEvent(parseArgs, st, event).state;
            && (next.finished <==> st.finished || event.MessageStop?)
            && next.stopReason == if event.MessageDelta? && Stops(event.stopReason) then MapStopReason(event.stopReason)
                                  else st.stopReason
  {
    hide Remember, MapStopReason, Opened, Extended, Closed, Finish, UseOf;
  }

  /** The last stop reason given, as the app knows it. */
  function Reason(events: seq<Event>): string {
    if events == [] then ""
    else if events[|events| - 1].MessageDelta? && Stops(events[|events| - 1].stopReason)
    then MapStopReason(events[|events| - 1].stopReason)
    else Reason(events[..|events| - 1])
  }

  lemma {:induction false} StateAfter(parseArgs: string -> string, st: State, events: seq<Event>)
    requires !st.finished && st.stopReason == ""
    ensures var step := OnEvents(parseArgs, st, events);
            && (step.state.finished <==> MessageStops(events) > 0)
            && step.state.stopReason == Reason(events)
            && Terminals(step.signals) == MessageStops(events) + Errors(events)
  {
    if events != [] {
      hide OnEvent, MapStopReason;
      var init, last := events[..|events| - 1], events[|events| - 1];
      StateAfter(parseArgs, st, init);
      var before := OnEvents(parseArgs, st, init);
      EventTerminals(parseArgs, before.state, last);
      EventState(parseArgs, before.state, last);
      TerminalsAppend(before.signals, OnEvent(parseArgs, before.state, last).signals);
    }
  }

  /** Everything a request signals, from its start to the end of its stream. */
  function Response(parseArgs: string -> string, st: State, events: seq<Event>): seq<Signal> {
    var step := OnEvents(parseArgs, Reset(st), events);
    step.signals + OnEnd(step.state).signals
  }

  /** At least one terminal signal for any stream; exactly one when no error event came and
      at most one message_stop. */
  lemma TerminalSignals(parseArgs: string -> string, st: State, events: seq<Event>)
    ensures Terminals(Response(parseArgs, st, events))
            == MessageStops(events) + Errors(events) + if MessageStops(events) == 0 then 1 else 0
    ensures Terminals(Response(parseArgs, st, events)) >= 1
    ensures Terminals(Response(parseArgs, st, events)) == 1 <==> Errors(events) == 0 && MessageStops(events) <= 1
  {
    hide OnEvents;
    var step := OnEvents(parseArgs, Reset(st), events);
    StateAfter(parseArgs, Reset(st), events);
    var fin := OnEnd(step.state).signals;
    assert fin != [] ==> fin[..0] == [];
    TerminalsAppend(step.signals, fin);
  }

  lemma OneErrorCounts(event: Event)
    requires event.ErrorEvent?
    ensures MessageStops([event]) == 0 && Errors([event]) == 1
  {
    assert [event][..0] == [];
  }

  /** Not every stream has one: an error event alone is followed by the synthetic stop. */
  lemma TwoTerminals(parseArgs: string -> string, st: State, kind: string, message: string)
    ensures Terminals(Response(parseArgs, st, [ErrorEvent(kind, message)])) == 2
  {
    hide Terminals, Response, MessageStops, Errors;
    OneErrorCounts(ErrorEvent(kind, message));
    TerminalSignals(parseArgs, st, [ErrorEvent(kind, message)]);
  }

  /** The transport may end a stream twice; the second end signals nothing. */
  lemma SecondEndIsSilent(st: State)
    ensures OnEnd(OnEnd(st).state) == Step(OnEnd(st).state, [])
  {
    hide Remember;
  }

  // ------------------------------------------------------------------ block by block, field by field

  function Texts(deltas: seq<Delta>): seq<string> {
    seq(|deltas|, i requires 0 <= i < |deltas| =>
      match deltas[i] case TextDelta(text) => text case ThinkingDelta(thinking) => thinking case _ => "")
  }

  function Signatures(deltas: seq<Delta>): seq<string> {
    seq(|deltas|, i requires 0 <= i < |deltas| =>
      match deltas[i] case SignatureDelta(signature) => signature case _ => "")
  }

  function Inputs(deltas: seq<Delta>): seq<string> {
    seq(|deltas|, i requires 0 <= i < |deltas| =>
      match deltas[i] case InputJsonDelta(partialJson) => partialJson case _ => "")
  }

  lemma FlattenSnoc(init: seq<string>, last: string)
    ensures Flatten(init + [last]) == Flatten(init) + last
  {
    FlattenAppend(init, [last]);
    FlattenOne(last);
  }

  lemma {:induction false} TextsAreFlat(deltas: seq<Delta>)
    ensures TextOf(deltas) == Flatten(Texts(deltas))
  {
    if deltas != [] {
      var init, last := deltas[..|deltas| - 1], deltas[|deltas| - 1];
      TextsAreFlat(init);
      assert Texts(deltas) == Texts(init) + [Texts([last])[0]];
      hide Flatten;
      FlattenSnoc(Texts(init), Texts([last])[0]);
    }
  }

  lemma {:induction false} SignaturesAreFlat(deltas: seq<Delta>)
    ensures SignatureOf(deltas) == Flatten(Signatures(deltas))
  {
    if deltas != [] {
      var init, last := deltas[..|deltas| - 1], deltas[|deltas| - 1];
      SignaturesAreFlat(init);
      assert Signatures(deltas) == Signatures(init) + [Signatures([last])[0]];
      hide Flatten;
      FlattenSnoc(Signatures(init), Signatures([last])[0]);
    }
  }

  lemma {:induction false} InputsAreFlat(deltas: seq<Delta>)
    ensures JsonOf(deltas) == Flatten(Inputs(deltas))
  {
    if deltas != [] {
      var init, last := deltas[..|deltas| - 1], deltas[|deltas| - 1];
      InputsAreFlat(init);
      assert Inputs(deltas) == Inputs(init) + [Inputs([last])[0]];
      hide Flatten;
      FlattenSnoc(Inputs(init), Inputs([last])[0]);
    }
  }

  predicate IsUse(item: Item) {
    item.Sent? && item.block.start.kind == "tool_use" && item.block.start.name != ""
  }

  /** An item leaves a block: thinking, redacted thinking, a text that is not empty in all, and
      a tool use with a name. */
  predicate Leaves(item: Item) {
    || (item.Sent? && item.block.start.kind in {"thinking", "redacted_thinking"})
    || (item.Sent? && item.block.start.kind == "text"
          && item.block.start.text + Flatten(Texts(item.block.deltas)) != "")
    || IsUse(item)
  }

  /** The block an item leaves: its own kind and fields, with what its deltas brought appended. */
  predicate IsLeft(parseArgs: string -> string, item: Item, b: Block) {
    item.Sent? &&
    var start, deltas := item.block.start, item.block.deltas;
    && (start.kind == "thinking" ==>
          b == Thinking(start.thinking + Flatten(Texts(deltas)), start.signature + Flatten(Signatures(deltas))))
    && (start.kind == "redacted_thinking" ==> b == RedactedThinking(start.data))
    && (start.kind == "text" ==> b == Text(start.text + Flatten(Texts(deltas))))
    && (start.kind == "tool_use" ==>
          && b.ToolUse? && b.id == start.id && b.name == start.name
          && b.input == if Flatten(Inputs(deltas)) == "" then "{}" else parseArgs(Flatten(Inputs(deltas))))
  }

  lemma RecordedIsLeft(parseArgs: string -> string, block: SentBlock)
    ensures var blocks := Recorded(parseArgs, block);
            && (if Leaves(Sent(block)) then |blocks| == 1 && IsLeft(parseArgs, Sent(block), blocks[0])
                else blocks == [])
            && Uses(blocks) == if IsUse(Sent(block)) then blocks else []
  {
    TextsAreFlat(block.deltas);
    SignaturesAreFlat(block.deltas);
    InputsAreFlat(block.deltas);
    hide TextOf, SignatureOf, JsonOf, Flatten, Texts, Signatures, Inputs;
    var blocks := Recorded(parseArgs, block);
    assert blocks != [] ==> blocks[..0] == [];
  }

  /** Blocks that are one for one those left by the marked items. */
  ghost predicate AreLeft(parseArgs: string -> string, items: seq<Item>, marks: seq<bool>, blocks: seq<Block>) {
    && |marks| == |items| && |blocks| == |Places(marks)|
    && forall j | 0 <= j < |blocks| :: IsLeft(parseArgs, items[Places(marks)[j]], blocks[j])
  }

  lemma LeftSnoc(parseArgs: string -> string, items: seq<Item>, marks: seq<bool>, blocks: seq<Block>, item: Item,
                 mark: bool, more: seq<Block>)
    requires AreLeft(parseArgs, items, marks, blocks)
    requires if mark then |more| == 1 && IsLeft(parseArgs, item, more[0]) else more == []
    ensures AreLeft(parseArgs, items + [item], marks + [mark], blocks + more)
  {
    PlacesSnoc(marks, mark);
    hide Places, IsLeft;
    var at, after, all := Places(marks), Places(marks + [mark]), blocks + more;
    forall j | 0 <= j < |all| ensures IsLeft(parseArgs, (items + [item])[after[j]], all[j]) {
      if j < |blocks| {
        assert all[j] == blocks[j] && after[j] == at[j] && (items + [item])[at[j]] == items[at[j]];
      } else {
        assert all[j] == more[0] && after[j] == |items| && (items + [item])[|items|] == item;
      }
    }
  }

  function Leaving(items: seq<Item>): seq<bool> {
    seq(|items|, i requires 0 <= i < |items| => Leaves(items[i]))
  }

  function Using(items: seq<Item>): seq<bool> {
    seq(|items|, i requires 0 <= i < |items| => IsUse(items[i]))
  }

  lemma MarksSnoc(items: seq<Item>, item: Item)
    ensures Leaving(items + [item]) == Leaving(items) + [Leaves(item)]
    ensures Using(items + [item]) == Using(items) + [IsUse(item)]
  {
    hide Leaves, IsUse;
  }

  lemma RecordedSnoc(parseArgs: string -> string, items: seq<Item>, item: Item)
    ensures var more := if item.Sent? then Recorded(parseArgs, item.block) else [];
            && RecordedAll(parseArgs, items + [item]) == RecordedAll(parseArgs, items) + more
            && (if Leaves(item) then |more| == 1 && IsLeft(parseArgs, item, more[0]) else more == [])
            && Uses(more) == if IsUse(item) then more else []
  {
    assert (items + [item])[..|items|] == items;
    if item.Sent? {
      RecordedIsLeft(parseArgs, item.block);
      assert item == Sent(item.block);
    }
    hide Recorded, IsLeft;
  }

  lemma OneMoreLeft(parseArgs: string -> string, items: seq<Item>, item: Item)
    requires AreLeft(parseArgs, items, Leaving(items), RecordedAll(parseArgs, items))
    requires AreLeft(parseArgs, items, Using(items), Uses(RecordedAll(parseArgs, items)))
    ensures var all := items + [item];
            && AreLeft(parseArgs, all, Leaving(all), RecordedAll(parseArgs, all))
            && AreLeft(parseArgs, all, Using(all), Uses(RecordedAll(parseArgs, all)))
  {
    hide *;
    var more := if item.Sent? then Recorded(parseArgs, item.block) else [];
    RecordedSnoc(parseArgs, items, item);
    MarksSnoc(items, item);
    LeftSnoc(parseArgs, items, Leaving(items), RecordedAll(parseArgs, items), item, Leaves(item), more);
    UsesAppend(RecordedAll(parseArgs, items), more);
    UseLeaves(item);
    LeftSnoc(parseArgs, items, Using(items), Uses(RecordedAll(parseArgs, items)), item, IsUse(item), Uses(more));
  }

  /** The turn recorded is one for one the blocks that leave something, and its tool uses are
      one for one those with a name, all with their own fields. */
  lemma {:induction false} RecordedAreLeft(parseArgs: string -> string, items: seq<Item>)
    ensures AreLeft(parseArgs, items, Leaving(items), RecordedAll(parseArgs, items))
    ensures AreLeft(parseArgs, items, Using(items), Uses(RecordedAll(parseArgs, items)))
  {
    if items == [] {
      hide IsLeft, Leaves, IsUse;
      assert Leaving(items) == [] == Using(items) && Places([]) == [];
    } else {
      hide *;
      RecordedAreLeft(parseArgs, items[..|items| - 1]);
      OneMoreLeft(parseArgs, items[..|items| - 1], items[|items| - 1]);
      assert items == items[..|items| - 1] + [items[|items| - 1]];
    }
  }

  lemma UseLeaves(item: Item)
    ensures IsUse(item) ==> Leaves(item)
  {}

  function CallMarks(signals: seq<Signal>): seq<bool> {
    seq(|signals|, i requires 0 <= i < |signals| => signals[i].ToolCall?)
  }

  /** The calls among signals, one for one. */
  ghost predicate AreCalls(signals: seq<Signal>, calls: seq<Block>) {
    var at := Places(CallMarks(signals));
    |calls| == |at| && forall j | 0 <= j < |calls| :: signals[at[j]] == ToolCall(calls[j])
  }

  lemma {:induction false} CallsAreHanded(signals: seq<Signal>)
    ensures AreCalls(signals, Calls(signals))
  {
    if signals != [] {
      var init, s := signals[..|signals| - 1], signals[|signals| - 1];
      CallsAreHanded(init);
      assert CallMarks(signals) == CallMarks(init) + [s.ToolCall?];
      PlacesSnoc(CallMarks(init), s.ToolCall?);
      hide Places;
      var at, after := Places(CallMarks(init)), Places(CallMarks(signals));
      forall j | 0 <= j < |Calls(signals)| ensures signals[after[j]] == ToolCall(Calls(signals)[j]) {
        if j < |Calls(init)| {
          assert after[j] == at[j] && signals[at[j]] == init[at[j]];
        }
      }
    }
  }

  /** For any well-bracketed turn, block by block: what is recorded is one for one the blocks
      that leave something, and the calls handed to the app are one for one the tool uses with a
      name, each with the fields that were streamed. */
  lemma TurnIsLeft(parseArgs: string -> string, st: State, items: seq<Item>)
    returns (blocks: seq<Block>, calls: seq<Block>)
    requires WellBracketed(items) && st.open.useName == ""
    ensures AreLeft(parseArgs, items, Leaving(items), blocks) && AreLeft(parseArgs, items, Using(items), calls)
    ensures var step := OnEvents(parseArgs, st, EventsOfAll(items));
            step.state.turnBlocks == st.turnBlocks + blocks && AreCalls(step.signals, calls)
  {
    hide *;
    TurnRecorded(parseArgs, st, items);
    RecordedAreLeft(parseArgs, items);
    CallsAreHanded(OnEvents(parseArgs, st, EventsOfAll(items)).signals);
    blocks := RecordedAll(parseArgs, items);
    calls := Uses(blocks);
  }

  // ------------------------------------------------------------------ the text streamed

  /** The text of the text deltas, and of the thinking deltas, event by event. */
  function TextsIn(events: seq<Event>): seq<string> {
    seq(|events|, i requires 0 <= i < |events| =>
      match events[i] case BlockDelta(TextDelta(text)) => text case _ => "")
  }

  function ThoughtsIn(events: seq<Event>): seq<string> {
    seq(|events|, i requires 0 <= i < |events| =>
      match events[i] case BlockDelta(ThinkingDelta(thinking)) => thinking case _ => "")
  }

  function Shown(signals: seq<Signal>): seq<string> {
    seq(|signals|, i requires 0 <= i < |signals| => match signals[i] case TextChunk(text) => text case _ => "")
  }

  function Thought(signals: seq<Signal>): seq<string> {
    seq(|signals|, i requires 0 <= i < |signals| => match signals[i] case ThinkingChunk(text) => text case _ => "")
  }

  lemma ShownAppend(a: seq<Signal>, b: seq<Signal>)
    ensures Flatten(Shown(a + b)) == Flatten(Shown(a)) + Flatten(Shown(b))
    ensures Flatten(Thought(a + b)) == Flatten(Thought(a)) + Flatten(Thought(b))
  {
    hide Flatten;
    assert Shown(a + b) == Shown(a) + Shown(b) && Thought(a + b) == Thought(a) + Thought(b);
    FlattenAppend(Shown(a), Shown(b));
    FlattenAppend(Thought(a), Thought(b));
  }

  lemma OneShown(parseArgs: string -> string, st: State, event: Event)
    ensures var signals := OnEvent(parseArgs, st, event).signals;
            && Flatten(Shown(signals)) == TextsIn([event])[0]
            && Flatten(Thought(signals)) == ThoughtsIn([event])[0]
  {
    hide Remember, MapStopReason, Opened, Extended, Closed, Finish, UseOf;
    var signals := OnEvent(parseArgs, st, event).signals;
    if event.BlockStop? {
      CallsShowNothing(UseOf(parseArgs, st.open));
    } else if signals == [] {
      assert Shown(signals) == [] == Thought(signals);
    } else {
      assert Shown(signals) == [TextsIn([event])[0]] && Thought(signals) == [ThoughtsIn([event])[0]];
      FlattenOne(TextsIn([event])[0]);
      FlattenOne(ThoughtsIn([event])[0]);
    }
  }

  lemma {:induction false} CallsShowNothing(uses: seq<Block>)
    ensures Flatten(Shown(CallSignals(uses))) == "" == Flatten(Thought(CallSignals(uses)))
  {
    if uses != [] {
      var signals, rest := CallSignals(uses), CallSignals(uses[1..]);
      CallsShowNothing(uses[1..]);
      assert Shown(signals)[1..] == Shown(rest) && Thought(signals)[1..] == Thought(rest);
    }
  }

  lemma TextsSnoc(events: seq<Event>, last: Event)
    ensures Flatten(TextsIn(events + [last])) == Flatten(TextsIn(events)) + TextsIn([last])[0]
    ensures Flatten(ThoughtsIn(events + [last])) == Flatten(ThoughtsIn(events)) + ThoughtsIn([last])[0]
  {
    hide Flatten;
    assert TextsIn(events + [last]) == TextsIn(events) + [TextsIn([last])[0]];
    assert ThoughtsIn(events + [last]) == ThoughtsIn(events) + [ThoughtsIn([last])[0]];
    FlattenSnoc(TextsIn(events), TextsIn([last])[0]);
    FlattenSnoc(ThoughtsIn(events), ThoughtsIn([last])[0]);
  }

  /** Whatever the events: the text shown is that of the text deltas, and the thinking shown that
      of the thinking deltas, in order with nothing lost. */
  lemma {:induction false} TextIsShown(parseArgs: string -> string, st: State, events: seq<Event>)
    ensures Flatten(Shown(OnEvents(parseArgs, st, events).signals)) == Flatten(TextsIn(events))
    ensures Flatten(Thought(OnEvents(parseArgs, st, events).signals)) == Flatten(ThoughtsIn(events))
  {
    if events != [] {
      hide Flatten, OnEvent, Shown, Thought, TextsIn, ThoughtsIn;
      var init, last := events[..|events| - 1], events[|events| - 1];
      TextIsShown(parseArgs, st, init);
      var before := OnEvents(parseArgs, st, init);
      ShownAppend(before.signals, OnEvent(parseArgs, before.state, last).signals);
      OneShown(parseArgs, before.state, last);
      TextsSnoc(init, last);
      assert events == init + [last];
    } else {
      assert Shown([]) == [] == Thought([]) && TextsIn([]) == [] == ThoughtsIn([]);
    }
  }

  /** The app's name of a stop reason. */
  predicate IsName(name: string, stopReason: string) {
    && (stopReason == "tool_use" ==> name == "tool_calls")
    && (stopReason in {"max_tokens", "model_context_window_exceeded"} ==> name == "length")
    && (stopReason == "refusal" ==> name == "content_filter")
    && (stopReason !in {"tool_use", "max_tokens", "model_context_window_exceeded", "refusal"} ==> name == "stop")
  }

  /** What is reported of stop reasons: each one given at once, and at a message_stop the last one
      given, all under the app's names; "stop" when none was. */
  lemma {:induction false} FinishIsNamed(parseArgs: string -> string, st: State, events: seq<Event>, k: nat)
    requires k <= |events| && (k < |events| ==> events[k].MessageDelta? && events[k].stopReason !in {"", "null"})
    requires forall j | 0 <= j < |events| && (j > k || k == |events|) && events[j].MessageDelta? ::
               events[j].stopReason in {"", "null"}
    ensures var signals := OnEvent(parseArgs, OnEvents(parseArgs, Reset(st), events).state, MessageStop).signals;
            |signals| == 1 && signals[0].Finished?
            && IsName(signals[0].reason, if k < |events| then events[k].stopReason else "")
    ensures k < |events| ==>
              var signals := OnEvent(parseArgs, OnEvents(parseArgs, Reset(st), events[..k]).state, events[k]).signals;
              |signals| == 1 && signals[0].FinalChunk? && IsName(signals[0].reason, events[k].stopReason)
  {
    StateAfter(parseArgs, Reset(st), events);
    ReasonIsLast(events, k);
    hide OnEvents, Reason, Remember;
  }

  lemma {:induction false} ReasonIsLast(events: seq<Event>, k: nat)
    requires k <= |events| && (k < |events| ==> events[k].MessageDelta? && Stops(events[k].stopReason))
    requires forall j | 0 <= j < |events| && (j > k || k == |events|) && events[j].MessageDelta? ::
               !Stops(events[j].stopReason)
    ensures Reason(events) == if k < |events| then MapStopReason(events[k].stopReason) else ""
  {
    if events != [] && k != |events| - 1 {
      ReasonIsLast(events[..|events| - 1], if k == |events| then k - 1 else k);
    }
  }

  // ------------------------------------------------------------------ sent back at once

  /** The ids of the tool uses with a name, as they were sent. */
  function IdsUsed(items: seq<Item>): seq<string> {
    var at := Places(Using(items));
    seq(|at|, j requires 0 <= j < |at| => if items[at[j]].Sent? then items[at[j]].block.start.id else "")
  }

  lemma {:induction false} UseIdsAre(blocks: seq<Block>)
    ensures |UseIds(blocks)| == |Uses(blocks)|
    ensures forall j | 0 <= j < |Uses(blocks)| :: Uses(blocks)[j].ToolUse? && Uses(blocks)[j].id == UseIds(blocks)[j]
  {
    if blocks != [] {
      UseIdsAre(blocks[..|blocks| - 1]);
    }
  }

  lemma IdsAreUsed(parseArgs: string -> string, items: seq<Item>)
    ensures UseIds(RecordedAll(parseArgs, items)) == IdsUsed(items)
  {
    RecordedAreLeft(parseArgs, items);
    UseIdsAre(RecordedAll(parseArgs, items));
    hide RecordedAll, Uses, UseIds, Places;
    var at, uses := Places(Using(items)), Uses(RecordedAll(parseArgs, items));
    forall j | 0 <= j < |at| ensures uses[j].id == IdsUsed(items)[j] {
      assert IsLeft(parseArgs, items[at[j]], uses[j]) && IsUse(items[at[j]]);
    }
  }

  /** Whatever went before: right after a turn that used a tool under an id, a message that
      carries the ids of its tool uses, in any order, finds the turn, block by block as it was
      streamed. */
  lemma SentBackAtOnce(parseArgs: string -> string, earlier: seq<Exchange>, items: seq<Item>, ended: bool,
                       ids: seq<string>)
    returns (blocks: seq<Block>)
    requires WellBracketed(items) && multiset(ids) == multiset(IdsUsed(items))
    requires exists i | 0 <= i < |ids| :: ids[i] != ""
    ensures AreLeft(parseArgs, items, Leaving(items), blocks)
    ensures var turns := AfterTurn(parseArgs, earlier, items, ended).cache.entries;
            Key(ids) in turns && turns[Key(ids)] == blocks
  {
    hide *;
    blocks := RecordedAll(parseArgs, items);
    RecordedAreLeft(parseArgs, items);
    IdsAreUsed(parseArgs, items);
    AfterTurnCache(parseArgs, earlier, items, ended);
    RememberedIsThere(AfterAll(parseArgs, Initial(), earlier).cache, blocks, ids);
  }
}
