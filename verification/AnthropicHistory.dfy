/**
  The message array of an Anthropic request (backend/api/anthropic-provider.cpp, the loop of
  buildRequestBody): tool results gathered into one user turn, tool-use turns replayed from
  the cache, blank turns left out, and no plain assistant turn last.

  Whether a text is blank after trimming is an oracle, `isBlank`.
 */
module AnthropicHistory {
  import opened Common
  import opened Gathering
  import opened LlmMessages
  import opened ToolNames
  import opened ToolTurns

  datatype ToolResult = ToolResult(useId: string, content: string)

  type ApiTurn = Turn<ToolResult, Block>

  type Turns = map<string, seq<Block>>

  // ------------------------------------------------------------------ one message

  function ResultOf(msg: Message): ToolResult {
    ToolResult(msg.toolCallId, if msg.content == "" then "(no output)" else msg.content)
  }

  function TextBlocks(content: string): seq<Block> {
    if content == "" then [] else [Text(content)]
  }

  function CallIds(calls: seq<StoredCall>): seq<string> {
    seq(|calls|, i requires 0 <= i < |calls| => calls[i].id)
  }

  function CallBlocks(calls: seq<StoredCall>): seq<Block> {
    seq(|calls|, i requires 0 <= i < |calls| =>
      ToolUse(calls[i].id, ApiToolName(ANTHROPIC, calls[i].name), calls[i].input))
  }

  function ImageBlocks(images: seq<Attachment>): seq<Block> {
    seq(|images|, i requires 0 <= i < |images| => Image(images[i].mimeType, images[i].base64))
  }

  /** The blocks of a tool-use turn: those remembered, or else those the history tells of. */
  function CallContent(turns: Turns, msg: Message): seq<Block> {
    if Key(CallIds(msg.toolCalls)) in turns then turns[Key(CallIds(msg.toolCalls))]
    else TextBlocks(msg.content) + CallBlocks(msg.toolCalls)
  }

  /** What one message of the history contributes to the request. */
  function EntryOf(isBlank: string -> bool, turns: Turns, msg: Message): Entry<ToolResult, Block> {
    var role := if msg.role == "system" then "user" else msg.role;
    if IsToolResult(msg) then Answer(ResultOf(msg))
    else if msg.toolCalls != [] then SaidParts(role, CallContent(turns, msg))
    else if msg.images != [] then SaidParts(role, ImageBlocks(msg.images) + TextBlocks(msg.content))
    else if isBlank(msg.content) then Nothing
    else SaidText(role, msg.content)
  }

  function Entries(isBlank: string -> bool, turns: Turns, history: seq<Message>): seq<Entry<ToolResult, Block>> {
    seq(|history|, i requires 0 <= i < |history| => EntryOf(isBlank, turns, history[i]))
  }

  /** An assistant turn of plain text at the end. */
  predicate EndsInPrefill(messages: seq<ApiTurn>) {
    && messages != []
    && messages[|messages| - 1].role == "assistant"
    && messages[|messages| - 1].content.Plain?
  }

  function WithoutPrefill(messages: seq<ApiTurn>): seq<ApiTurn> {
    if EndsInPrefill(messages) then messages[|messages| - 1 := messages[|messages| - 1].(role := "user")]
    else messages
  }

  function Messages(isBlank: string -> bool, turns: Turns, history: seq<Message>): seq<ApiTurn> {
    WithoutPrefill(Gather(Entries(isBlank, turns, history)))
  }

  // ------------------------------------------------------------------ the loop

  method ToolCallBlocks(turns: Turns, msg: Message) returns (blocks: seq<Block>)
    ensures blocks == CallContent(turns, msg)
  {
    hide Key;
    var key := ToolTurnKey(CallIds(msg.toolCalls));
    if key in turns {
      return turns[key];
    }
    blocks := [];
    if msg.content != "" {
      blocks := blocks + [Text(msg.content)];
    }
    for i := 0 to |msg.toolCalls|
      invariant blocks == TextBlocks(msg.content) + CallBlocks(msg.toolCalls)[..i]
    {
      var tc := msg.toolCalls[i];
      blocks := blocks + [ToolUse(tc.id, ApiToolName(ANTHROPIC, tc.name), tc.input)];
    }
    assert CallBlocks(msg.toolCalls)[..|msg.toolCalls|] == CallBlocks(msg.toolCalls);
  }

  method VisionBlocks(msg: Message) returns (blocks: seq<Block>)
    ensures blocks == ImageBlocks(msg.images) + TextBlocks(msg.content)
  {
    blocks := [];
    for i := 0 to |msg.images|
      invariant blocks == ImageBlocks(msg.images)[..i]
    {
      blocks := blocks + [Image(msg.images[i].mimeType, msg.images[i].base64)];
    }
    assert ImageBlocks(msg.images)[..|msg.images|] == ImageBlocks(msg.images);
    assert ImageBlocks(msg.images) + [] == ImageBlocks(msg.images);
    if msg.content != "" {
      blocks := blocks + [Text(msg.content)];
    }
  }

  method BuildMessages(isBlank: string -> bool, turns: Turns, history: seq<Message>) returns (messages: seq<ApiTurn>)
    ensures messages == Messages(isBlank, turns, history)
  {
    hide CallContent, AppendResult, Key, ImageBlocks, TextBlocks;
    messages := [];
    ghost var entries := Entries(isBlank, turns, history);
    for i := 0 to |history|
      invariant messages == Gather(entries[..i])
    {
      assert entries[..i + 1][..i] == entries[..i];
      var msg := history[i];
      if msg.role == "tool" && msg.toolCallId != "" {
        messages := AppendResult(messages, ResultOf(msg));
        continue;
      }
      var role := if msg.role == "system" then "user" else msg.role;
      if msg.toolCalls != [] {
        var blocks := ToolCallBlocks(turns, msg);
        messages := messages + [Turn(role, Parts(Others(blocks)))];
      } else if msg.images != [] {
        var blocks := VisionBlocks(msg);
        messages := messages + [Turn(role, Parts(Others(blocks)))];
      } else {
        if isBlank(msg.content) {
          assert messages + [] == messages;
          continue;
        }
        messages := messages + [Turn(role, Plain(msg.content))];
      }
    }
    assert entries[..|history|] == entries;
    if messages != [] {
      var last := messages[|messages| - 1];
      if last.role == "assistant" && last.content.Plain? {
        messages := messages[|messages| - 1 := last.(role := "user")];
      }
    }
  }

  // ------------------------------------------------------------------ what the array is

  predicate NoSystem(messages: seq<ApiTurn>) {
    forall i | 0 <= i < |messages| :: messages[i].role != "system"
  }

  predicate NoSystemEntries(entries: seq<Entry<ToolResult, Block>>) {
    forall i | 0 <= i < |entries| ::
      match entries[i]
      case SaidText(role, _) => role != "system"
      case SaidParts(role, _) => role != "system"
      case _ => true
  }

  lemma {:induction false} GatherNoSystem(entries: seq<Entry<ToolResult, Block>>)
    requires NoSystemEntries(entries)
    ensures NoSystem(Gather(entries))
  {
    if entries != [] {
      hide TakesResults;
      GatherNoSystem(entries[..|entries| - 1]);
    }
  }

  lemma WithoutPrefillKeeps(messages: seq<ApiTurn>)
    requires AllUniform(messages) && Gathered(messages) && NoSystem(messages)
    ensures var out := WithoutPrefill(messages);
            && NoSystem(out) && !EndsInPrefill(out) && AllUniform(out) && Gathered(out)
            && FlattenedResults(out) == FlattenedResults(messages)
  {
    var out := WithoutPrefill(messages);
    if out != messages {
      var last := messages[|messages| - 1];
      assert !HoldsResults(last) && !HoldsResults(last.(role := "user"));
      hide HoldsResults, WithoutPrefill, ResultsIn;
      assert out[..|out| - 1] == messages[..|messages| - 1];
    }
  }

  /** What the API requires of the array, for any history: no system turn, no plain assistant
      turn at the end, and no two neighbours that both hold tool results. */
  lemma ArrayIsAccepted(isBlank: string -> bool, turns: Turns, history: seq<Message>)
    ensures var out := Messages(isBlank, turns, history);
            NoSystem(out) && !EndsInPrefill(out) && AllUniform(out) && Gathered(out)
  {
    assert NoSystemEntries(Entries(isBlank, turns, history));
    hide Gather, WithoutPrefill, AllUniform, Gathered, Entries;
    GatherNoSystem(Entries(isBlank, turns, history));
    GatherGathers(Entries(isBlank, turns, history));
    WithoutPrefillKeeps(Gather(Entries(isBlank, turns, history)));
  }

  /** The tool messages that name their call, in order. */
  function Identified(history: seq<Message>): seq<ToolResult> {
    if history == [] then [] else
    Identified(history[..|history| - 1])
    + if IsToolResult(history[|history| - 1]) then [ResultOf(history[|history| - 1])] else []
  }

  lemma {:induction false} AnswersAreIdentified(isBlank: string -> bool, turns: Turns, history: seq<Message>)
    ensures Answers(Entries(isBlank, turns, history)) == Identified(history)
  {
    if history != [] {
      hide CallContent, ImageBlocks, TextBlocks, ResultOf;
      var init, entries := history[..|history| - 1], Entries(isBlank, turns, history);
      AnswersAreIdentified(isBlank, turns, init);
      assert entries[..|entries| - 1] == Entries(isBlank, turns, init);
      assert entries[|entries| - 1] == EntryOf(isBlank, turns, history[|history| - 1]);
    }
  }

  /** The tool results of the request, read off in order, are the identified tool messages
      of the history. */
  lemma ResultsAreIdentified(isBlank: string -> bool, turns: Turns, history: seq<Message>)
    ensures FlattenedResults(Messages(isBlank, turns, history)) == Identified(history)
  {
    var entries := Entries(isBlank, turns, history);
    assert NoSystemEntries(entries);
    hide Gather, WithoutPrefill, AllUniform, Gathered, Entries, NoSystemEntries;
    GatherNoSystem(entries);
    GatherGathers(entries);
    ResultsInOrder(entries);
    WithoutPrefillKeeps(Gather(entries));
    AnswersAreIdentified(isBlank, turns, history);
  }

  // ------------------------------------------------------------------ every turn, message by message

  /** The messages that go into a request: identified tool results, and those that have tool
      calls, images or text that is not blank. */
  function Counted(isBlank: string -> bool, history: seq<Message>): seq<bool> {
    seq(|history|, i requires 0 <= i < |history| =>
      || IsToolResult(history[i])
      || history[i].toolCalls != [] || history[i].images != [] || !isBlank(history[i].content))
  }

  /** The parts of a turn are these blocks. */
  predicate AreBlocks(t: ApiTurn, blocks: seq<Block>) {
    && t.content.Parts? && |t.content.parts| == |blocks|
    && forall i | 0 <= i < |blocks| :: t.content.parts[i] == Other(blocks[i])
  }

  /** The text of a message as a block, if it has any, at place `n`. */
  predicate TextAt(blocks: seq<Block>, n: nat, msg: Message) {
    msg.content != "" ==> n < |blocks| && blocks[n] == Block.Text(msg.content)
  }

  /** A tool-use turn from the message's own fields: its text, then one tool_use a call. */
  predicate CallsInFull(blocks: seq<Block>, msg: Message) {
    var n, calls := if msg.content == "" then 0 else 1, msg.toolCalls;
    && TextAt(blocks, 0, msg) && |blocks| == n + |calls|
    && forall i | 0 <= i < |calls| ::
         blocks[n + i] == ToolUse(calls[i].id, ApiToolName(ANTHROPIC, calls[i].name), calls[i].input)
  }

  /** Images in order, then the text. */
  predicate ImagesInFull(blocks: seq<Block>, msg: Message) {
    && |blocks| == |msg.images| + (if msg.content == "" then 0 else 1) && TextAt(blocks, |msg.images|, msg)
    && forall i | 0 <= i < |msg.images| :: blocks[i] == Image(msg.images[i].mimeType, msg.images[i].base64)
  }

  /** What a turn says for a message that is no tool result, from the message's own fields. */
  ghost predicate Says(turns: Turns, msg: Message, t: ApiTurn) {
    var key := Key(seq(|msg.toolCalls|, i requires 0 <= i < |msg.toolCalls| => msg.toolCalls[i].id));
    if msg.toolCalls != [] then
      if key in turns then AreBlocks(t, turns[key])
      else exists blocks :: AreBlocks(t, blocks) && CallsInFull(blocks, msg)
    else if msg.images != [] then exists blocks :: AreBlocks(t, blocks) && ImagesInFull(blocks, msg)
    else t.content == Plain(msg.content)
  }

  /** The role a message is sent under: the last plain assistant turn as the user's. */
  function RoleOf(msg: Message, last: bool): string {
    if msg.role == "system" || (last && msg.role == "assistant" && msg.toolCalls == [] && msg.images == [])
    then "user" else msg.role
  }

  /** The turn of one message, taken by itself. */
  ghost predicate IsTurnOf(turns: Turns, msg: Message, t: ApiTurn, last: bool) {
    if IsToolResult(msg) then
      && t.role == "user" && t.content.Parts? && |t.content.parts| == 1
      && t.content.parts[0]
         == Result(ToolResult(msg.toolCallId, if msg.content == "" then "(no output)" else msg.content))
    else t.role == RoleOf(msg, last) && Says(turns, msg, t)
  }

  lemma CallsAreSaid(turns: Turns, msg: Message, role: string)
    requires msg.toolCalls != []
    ensures Says(turns, msg, Turn(role, Parts(Others(CallContent(turns, msg)))))
  {
    hide Key, ApiToolName;
    var t: ApiTurn := Turn(role, Parts(Others(CallContent(turns, msg))));
    assert CallIds(msg.toolCalls)
           == seq(|msg.toolCalls|, i requires 0 <= i < |msg.toolCalls| => msg.toolCalls[i].id);
    assert AreBlocks(t, CallContent(turns, msg));
    assert CallsInFull(TextBlocks(msg.content) + CallBlocks(msg.toolCalls), msg);
  }

  lemma ImagesAreSaid(turns: Turns, msg: Message, role: string)
    requires msg.toolCalls == [] && msg.images != []
    ensures Says(turns, msg, Turn(role, Parts(Others(ImageBlocks(msg.images) + TextBlocks(msg.content)))))
  {
    hide Key;
    var blocks := ImageBlocks(msg.images) + TextBlocks(msg.content);
    var t: ApiTurn := Turn(role, Parts(Others(blocks)));
    assert AreBlocks(t, blocks) && ImagesInFull(blocks, msg);
  }

  lemma EntryIsTurn(isBlank: string -> bool, turns: Turns, msg: Message)
    ensures var alone := Alone(EntryOf(isBlank, turns, msg));
            if Counted(isBlank, [msg])[0] then |alone| == 1 && IsTurnOf(turns, msg, alone[0], false) else alone == []
  {
    if !IsToolResult(msg) {
      var role := if msg.role == "system" then "user" else msg.role;
      if msg.toolCalls != [] {
        CallsAreSaid(turns, msg, role);
        hide Says, CallContent;
      } else if msg.images != [] {
        ImagesAreSaid(turns, msg, role);
        hide Says, ImageBlocks, TextBlocks;
      }
    }
  }

  /** Turns that are one for one the messages at the places `at`; `whole` when they are all of a
      request, whose last turn may not be a plain assistant's. */
  ghost predicate AreTurns(turns: Turns, history: seq<Message>, at: seq<nat>, apart: seq<ApiTurn>, whole: bool) {
    && |apart| == |at|
    && forall j | 0 <= j < |at| ::
         at[j] < |history| && IsTurnOf(turns, history[at[j]], apart[j], whole && j == |at| - 1)
  }

  lemma AloneSnoc(isBlank: string -> bool, turns: Turns, init: seq<Message>, last: Message)
    requires AreTurns(turns, init, Places(Counted(isBlank, init)), AloneAll(Entries(isBlank, turns, init)), false)
    ensures AreTurns(turns, init + [last], Places(Counted(isBlank, init + [last])),
                     AloneAll(Entries(isBlank, turns, init + [last])), false)
  {
    hide *;
    EntryIsTurn(isBlank, turns, last);
    EntriesSnoc(isBlank, turns, init, last);
    PlacesSnoc(Counted(isBlank, init), Counted(isBlank, [last])[0]);
    TurnsSnoc(turns, init, last, Places(Counted(isBlank, init)), AloneAll(Entries(isBlank, turns, init)),
              Counted(isBlank, [last])[0], Alone(EntryOf(isBlank, turns, last)));
  }

  lemma {:induction false} AloneOneForOne(isBlank: string -> bool, turns: Turns, history: seq<Message>)
    ensures var alone := AloneAll(Entries(isBlank, turns, history));
            AreTurns(turns, history, Places(Counted(isBlank, history)), alone, false)
  {
    if history != [] {
      hide *;
      var init, last := history[..|history| - 1], history[|history| - 1];
      AloneOneForOne(isBlank, turns, init);
      AloneSnoc(isBlank, turns, init, last);
      assert history == init + [last];
    } else {
      hide IsTurnOf, EntryOf;
      assert Places(Counted(isBlank, history)) == [] && AloneAll(Entries(isBlank, turns, history)) == [];
    }
  }

  lemma EntriesSnoc(isBlank: string -> bool, turns: Turns, init: seq<Message>, last: Message)
    ensures |Counted(isBlank, [last])| == 1 && |Counted(isBlank, init)| == |init|
    ensures Counted(isBlank, init + [last]) == Counted(isBlank, init) + [Counted(isBlank, [last])[0]]
    ensures AloneAll(Entries(isBlank, turns, init + [last]))
            == AloneAll(Entries(isBlank, turns, init)) + Alone(EntryOf(isBlank, turns, last))
  {
    hide EntryOf, Alone;
    var entries := Entries(isBlank, turns, init + [last]);
    assert entries[..|entries| - 1] == Entries(isBlank, turns, init);
  }

  lemma TurnsSnoc(turns: Turns, init: seq<Message>, last: Message, at: seq<nat>, alone: seq<ApiTurn>, mark: bool,
                  more: seq<ApiTurn>)
    requires AreTurns(turns, init, at, alone, false)
    requires if mark then |more| == 1 && IsTurnOf(turns, last, more[0], false) else more == []
    ensures AreTurns(turns, init + [last], if mark then at + [|init|] else at, alone + more, false)
  {
    hide IsTurnOf;
    var history, all, apart := init + [last], if mark then at + [|init|] else at, alone + more;
    forall j | 0 <= j < |all|
      ensures all[j] < |history| && IsTurnOf(turns, history[all[j]], apart[j], false)
    {
      if j < |at| {
        assert all[j] == at[j] && history[at[j]] == init[at[j]] && apart[j] == alone[j];
      } else {
        assert all[j] == |init| && history[|init|] == last && apart[j] == more[0];
      }
    }
  }

  /** Sending the last turn as the user's changes the role of the last turn taken apart, and
      nothing else. */
  lemma PrefillApart(messages: seq<ApiTurn>)
    requires AllUniform(messages)
    ensures var apart, out := TakenApart(messages), TakenApart(WithoutPrefill(messages));
            if EndsInPrefill(messages) then
              && apart != [] && EndsInPrefill(apart) && |out| == |apart|
              && out == apart[|apart| - 1 := apart[|apart| - 1].(role := "user")]
            else out == apart
  {
    if EndsInPrefill(messages) {
      var last, init := messages[|messages| - 1], messages[..|messages| - 1];
      assert !HoldsResults(last) && !HoldsResults(last.(role := "user"));
      assert WithoutPrefill(messages)[..|messages| - 1] == init;
      hide HoldsResults;
      assert TakenApart(messages) == TakenApart(init) + [last];
      assert TakenApart(WithoutPrefill(messages)) == TakenApart(init) + [last.(role := "user")];
    }
  }

  /** The list ends in a plain assistant turn if and only if its last message is one. */
  lemma LastIsPlain(turns: Turns, msg: Message, t: ApiTurn)
    requires IsTurnOf(turns, msg, t, false)
    ensures t.role == "assistant" && t.content.Plain? ==> IsTurnOf(turns, msg, t.(role := "user"), true)
    ensures !(t.role == "assistant" && t.content.Plain?) ==> IsTurnOf(turns, msg, t, true)
  {
    hide Key;
    if t.role == "assistant" && t.content.Plain? {
      assert Says(turns, msg, t) && Says(turns, msg, t.(role := "user"));
    }
  }

  lemma LastTurn(turns: Turns, history: seq<Message>, at: seq<nat>, apart: seq<ApiTurn>)
    requires AreTurns(turns, history, at, apart, false)
    ensures AreTurns(turns, history, at,
              if EndsInPrefill(apart) then apart[|apart| - 1 := apart[|apart| - 1].(role := "user")] else apart, true)
  {
    hide IsTurnOf;
    var out := if EndsInPrefill(apart) then apart[|apart| - 1 := apart[|apart| - 1].(role := "user")] else apart;
    forall j | 0 <= j < |at|
      ensures at[j] < |history| && IsTurnOf(turns, history[at[j]], out[j], j == |at| - 1)
    {
      if j == |at| - 1 {
        LastIsPlain(turns, history[at[j]], apart[j]);
      } else {
        assert out[j] == apart[j];
      }
    }
  }

  /** The request says what the conversation says: its turns, with results taken apart, are one
      for one and in order the messages that count, each with its own content. */
  lemma TurnsAreMessages(isBlank: string -> bool, turns: Turns, history: seq<Message>)
    ensures var at, apart := Places(Counted(isBlank, history)), TakenApart(Messages(isBlank, turns, history));
            AreTurns(turns, history, at, apart, true)
  {
    hide Gather, Entries, IsTurnOf, AreTurns, Counted, Places, TakenApart, WithoutPrefill, AllUniform, Gathered;
    var entries := Entries(isBlank, turns, history);
    AloneOneForOne(isBlank, turns, history);
    GatherGathers(entries);
    PrefillApart(Gather(entries));
    PrefillStays(Gather(entries));
    LastTurn(turns, history, Places(Counted(isBlank, history)), TakenApart(Gather(entries)));
  }

  /** A list of turns ends in a plain assistant turn exactly when it does so taken apart. */
  lemma PrefillStays(messages: seq<ApiTurn>)
    requires AllUniform(messages)
    ensures EndsInPrefill(TakenApart(messages)) <==> EndsInPrefill(messages)
  {
    if messages != [] {
      var last := messages[|messages| - 1];
      if HoldsResults(last) {
        EndsAlike(messages);
      } else {
        assert TakenApart(messages)[|TakenApart(messages)| - 1] == last;
      }
    }
  }
}
