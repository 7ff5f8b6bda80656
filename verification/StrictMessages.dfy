/**
  Message normalisation for strict OpenAI-compatible servers
  (backend/api/openai-compat-provider.cpp, normalizeStrictMessages).

  A message is a JSON object; only whether a value is null, a string or something else
  matters here. An array element that is not an object counts as the empty object.
 */
module StrictMessages {
  import opened Common

  datatype Json = Null | Text(s: string) | Value(raw: string)

  type Message = map<string, Json>

  const SEPARATOR := "\n\n"

  /** value(key).toString(): the empty string for a missing or non-string value. */
  function StringAt(m: Message, key: string): string {
    if key in m && m[key].Text? then m[key].s else ""
  }

  function Role(m: Message): string {
    StringAt(m, "role")
  }

  predicate HasText(m: Message) {
    "content" in m && m["content"].Text?
  }

  predicate Plain(m: Message) {
    "tool_calls" !in m && "tool_call_id" !in m && HasText(m)
  }

  /** Rule A: only the first message may be a system one. */
  function RuleA(m: Message, first: bool): Message {
    if Role(m) == "system" && !first then m["role" := Text("user")] else m
  }

  /** Rule C: an assistant turn with tool calls has null instead of empty content. */
  function RuleC(m: Message): Message {
    if Role(m) == "assistant" && "tool_calls" in m && "content" in m && m["content"] == Text("")
    then m["content" := Null] else m
  }

  /** Rule B: two plain user turns, or two plain system turns, may become one. */
  predicate Mergeable(prev: Message, m: Message) {
    Role(m) == Role(prev) && (Role(m) == "user" || Role(m) == "system") && Plain(m) && Plain(prev)
  }

  function Merge(prev: Message, m: Message): Message {
    prev["content" := Text(StringAt(prev, "content") + SEPARATOR + StringAt(m, "content"))]
  }

  method NormalizeStrictMessages(messages: seq<Message>) returns (out: seq<Message>)
    ensures out == Normalized(messages)
  {
    out := [];
    for i := 0 to |messages|
      invariant out == Normalized(messages[..i])
    {
      assert messages[..i + 1] == messages[..i] + [messages[i]];
      NormalizedSnoc(messages[..i], messages[i]);
      var m := messages[i];
      if Role(m) == "system" && out != [] {
        m := m["role" := Text("user")];
      }
      if Role(m) == "assistant" && "tool_calls" in m {
        if "content" in m && m["content"].Text? && m["content"].s == "" {
          m := m["content" := Null];
        }
      }
      if out != [] {
        var prev := out[|out| - 1];
        var mergeable :=
          && Role(m) == Role(prev)
          && (Role(m) == "user" || Role(m) == "system")
          && "tool_calls" !in m && "tool_call_id" !in m
          && "tool_calls" !in prev && "tool_call_id" !in prev
          && HasText(m) && HasText(prev);
        if mergeable {
          prev := prev["content" := Text(prev["content"].s + SEPARATOR + m["content"].s)];
          out := out[|out| - 1 := prev];
          continue;
        }
      }
      out := out + [m];
    }
    assert messages[..|messages|] == messages;
  }

  // ------------------------------------------------------------------ what it means

  function Prepare(m: Message, first: bool): Message {
    RuleC(RuleA(m, first))
  }

  function Prepared(ms: seq<Message>): seq<Message> {
    seq(|ms|, i requires 0 <= i < |ms| => Prepare(ms[i], i == 0))
  }

  /** Every maximal run of mergeable messages as one. Read from the right, unlike the loop. */
  function Collapse(ms: seq<Message>): seq<Message> {
    if ms == [] then [] else Lead(ms[0], Collapse(ms[1..]))
  }

  function Lead(m: Message, rest: seq<Message>): seq<Message> {
    if rest != [] && Mergeable(m, rest[0]) then [Merge(m, rest[0])] + rest[1..] else [m] + rest
  }

  function Normalized(ms: seq<Message>): seq<Message> {
    Collapse(Prepared(ms))
  }

  /** One more message behind what has been collapsed, as the loop adds it. */
  function Push(out: seq<Message>, m: Message): seq<Message> {
    if out != [] && Mergeable(out[|out| - 1], m) then out[|out| - 1 := Merge(out[|out| - 1], m)] else out + [m]
  }

  lemma MergeKeeps(a: Message, b: Message, c: Message)
    requires Mergeable(a, b)
    ensures Mergeable(a, c) == Mergeable(b, c)
    ensures Mergeable(Merge(a, b), c) == Mergeable(a, c) && Mergeable(c, Merge(a, b)) == Mergeable(c, a)
    ensures Mergeable(b, c) ==> Merge(Merge(a, b), c) == Merge(a, Merge(b, c))
  {
    var x, y, z := StringAt(a, "content"), StringAt(b, "content"), StringAt(c, "content");
    assert x + SEPARATOR + y + SEPARATOR + z == x + SEPARATOR + (y + SEPARATOR + z);
  }

  lemma PushBehind(first: Message, rest: seq<Message>, m: Message)
    requires rest != []
    ensures Push([first] + rest, m) == [first] + Push(rest, m)
  {
    hide Mergeable, Merge;
  }

  /** Working from the left or from the right comes to the same. */
  lemma LeadPush(a: Message, rest: seq<Message>, m: Message)
    ensures Push(Lead(a, rest), m) == Lead(a, Push(rest, m))
  {
    hide Mergeable, Merge;
    if |rest| > 1 {
      assert rest == [rest[0]] + rest[1..];
      PushBehind(rest[0], rest[1..], m);
      PushBehind(Merge(a, rest[0]), rest[1..], m);
      PushBehind(a, rest, m);
    } else if |rest| == 1 {
      LeadPushOne(a, rest[0], m);
    } else {
      assert Lead(a, rest) == [a] && Push(rest, m) == [m];
    }
  }

  lemma LeadPushOne(a: Message, r: Message, m: Message)
    ensures Push(Lead(a, [r]), m) == Lead(a, Push([r], m))
  {
    hide Mergeable, Merge;
    if Mergeable(a, r) {
      MergeKeeps(a, r, m);
    }
    if Mergeable(r, m) {
      MergeKeeps(r, m, a);
    }
  }

  /** Adding a message last to a collapsed list is what the loop does. */
  lemma {:induction false} CollapseSnoc(ms: seq<Message>, m: Message)
    ensures Collapse(ms + [m]) == Push(Collapse(ms), m)
  {
    hide Push, Lead;
    if ms == [] {
      assert ([] + [m])[1..] == [] && ([] + [m])[0] == m;
      LeadPushNothing(m);
    } else {
      assert (ms + [m])[1..] == ms[1..] + [m];
      CollapseSnoc(ms[1..], m);
      LeadPush(ms[0], Collapse(ms[1..]), m);
    }
  }

  lemma LeadPushNothing(m: Message)
    ensures Lead(m, []) == Push([], m)
  {
  }

  lemma NormalizedSnoc(ms: seq<Message>, m: Message)
    ensures Normalized(ms + [m]) == Push(Normalized(ms), Prepare(m, ms == []))
    ensures Normalized(ms) == [] <==> ms == []
  {
    assert Prepared(ms + [m]) == Prepared(ms) + [Prepare(m, ms == [])];
    CollapseSnoc(Prepared(ms), Prepare(m, ms == []));
  }

  // ------------------------------------------------------------------ what it guarantees

  /** What a strict server asks for. */
  ghost predicate Strict(ms: seq<Message>) {
    && (forall i | 0 < i < |ms| :: Role(ms[i]) != "system")
    && (forall i | 0 <= i < |ms| :: RuleC(ms[i]) == ms[i])
    && (forall i | 0 <= i < |ms| - 1 :: !Mergeable(ms[i], ms[i + 1]))
  }

  lemma {:induction false} CollapseIsStrict(ms: seq<Message>)
    requires forall i | 0 < i < |ms| :: Role(ms[i]) != "system"
    requires forall i | 0 <= i < |ms| :: RuleC(ms[i]) == ms[i]
    ensures Strict(Collapse(ms)) && (ms != [] ==> Collapse(ms) != [] && Role(Collapse(ms)[0]) == Role(ms[0]))
  {
    hide Mergeable, Merge, RuleC, Strict;
    if ms == [] {
      NoneIsStrict();
    } else {
      CollapseIsStrict(ms[1..]);
      LeadIsStrict(ms[0], Collapse(ms[1..]));
    }
  }

  lemma NoneIsStrict()
    ensures Strict([])
  {}

  lemma LeadIsStrict(a: Message, rest: seq<Message>)
    requires Strict(rest) && RuleC(a) == a && (rest != [] ==> Role(rest[0]) != "system")
    ensures Strict(Lead(a, rest)) && Lead(a, rest) != [] && Role(Lead(a, rest)[0]) == Role(a)
  {
    hide Mergeable, Merge, RuleC, Role;
    if rest != [] && Mergeable(a, rest[0]) {
      MergedPairApart(a, rest);
      MergedIsSettled(a, rest[0]);
    }
  }

  lemma MergedIsSettled(a: Message, b: Message)
    requires Mergeable(a, b)
    ensures RuleC(Merge(a, b)) == Merge(a, b) && Role(Merge(a, b)) == Role(a)
  {
  }

  lemma MergedPairApart(a: Message, rest: seq<Message>)
    requires rest != [] && Mergeable(a, rest[0])
    requires |rest| > 1 ==> !Mergeable(rest[0], rest[1])
    ensures |rest| > 1 ==> !Mergeable(Merge(a, rest[0]), rest[1])
  {
    if |rest| > 1 {
      MergeKeeps(a, rest[0], rest[1]);
    }
  }

  lemma PrepareSettles(m: Message, first: bool)
    ensures var p := Prepare(m, first); RuleC(p) == p && (!first ==> Role(p) != "system")
  {
  }

  /** The result satisfies the server. */
  lemma NormalizedIsStrict(ms: seq<Message>)
    ensures Strict(Normalized(ms))
  {
    forall i | 0 <= i < |ms|
      ensures RuleC(Prepared(ms)[i]) == Prepared(ms)[i] && (i > 0 ==> Role(Prepared(ms)[i]) != "system")
    {
      PrepareSettles(ms[i], i == 0);
    }
    CollapseIsStrict(Prepared(ms));
  }

  lemma {:induction false} CollapseOfApart(ms: seq<Message>)
    requires forall i | 0 <= i < |ms| - 1 :: !Mergeable(ms[i], ms[i + 1])
    ensures Collapse(ms) == ms
  {
    if ms != [] {
      CollapseOfApart(ms[1..]);
      if |ms| > 1 {
        assert !Mergeable(ms[0], ms[0 + 1]);
      }
    }
  }

  /** Normalising changes nothing exactly when the list is already strict. */
  lemma UnchangedIffStrict(ms: seq<Message>)
    ensures Normalized(ms) == ms <==> Strict(ms)
  {
    NormalizedIsStrict(ms);
    if Strict(ms) {
      assert Prepared(ms) == ms;
      CollapseOfApart(ms);
    }
  }

  /** Normalising twice is normalising once. */
  lemma Idempotent(ms: seq<Message>)
    ensures Normalized(Normalized(ms)) == Normalized(ms)
  {
    NormalizedIsStrict(ms);
    UnchangedIffStrict(Normalized(ms));
  }

  /** A normalised beginning may stand for the beginning. */
  lemma {:induction false} Incremental(a: seq<Message>, b: seq<Message>)
    ensures Normalized(Normalized(a) + b) == Normalized(a + b)
    decreases |b|
  {
    if b == [] {
      assert Normalized(a) + b == Normalized(a) && a + b == a;
      Idempotent(a);
    } else {
      var init, last := b[..|b| - 1], b[|b| - 1];
      Incremental(a, init);
      assert Normalized(a) + b == (Normalized(a) + init) + [last] && a + b == (a + init) + [last];
      NormalizedSnoc(Normalized(a) + init, last);
      NormalizedSnoc(a + init, last);
      NormalizedSnoc(a, last);
    }
  }

  // ------------------------------------------------------------------ what it keeps

  /** The turns of all other roles, such as assistant and tool. */
  function Others(ms: seq<Message>): seq<Message> {
    if ms == [] then [] else
    (if Role(ms[0]) == "user" || Role(ms[0]) == "system" then [] else [ms[0]]) + Others(ms[1..])
  }

  /** All string contents in order, each closed by a separator. */
  function AllText(ms: seq<Message>): string {
    if ms == [] then "" else
    (if HasText(ms[0]) then ms[0]["content"].s + SEPARATOR else "") + AllText(ms[1..])
  }

  lemma {:induction false} CollapseKeeps(ms: seq<Message>)
    ensures Others(Collapse(ms)) == Others(ms) && AllText(Collapse(ms)) == AllText(ms)
  {
    if ms != [] {
      CollapseKeeps(ms[1..]);
      var rest := Collapse(ms[1..]);
      if rest != [] && Mergeable(ms[0], rest[0]) {
        var c := [Merge(ms[0], rest[0])] + rest[1..];
        assert c[1..] == rest[1..];
        var x, y := ms[0]["content"].s, rest[0]["content"].s;
        assert (x + SEPARATOR + y) + SEPARATOR + AllText(rest[1..])
          == x + SEPARATOR + (y + SEPARATOR + AllText(rest[1..]));
      } else {
        assert ([ms[0]] + rest)[1..] == rest;
      }
    }
  }

  /** Turns of other roles come through one for one and in order, changed only by rule C,
      and no text is lost or moved, save the empty content rule C turns to null. */
  lemma TurnsAndTextKept(ms: seq<Message>)
    ensures Others(Normalized(ms)) == OthersAfterC(ms)
    ensures AllText(Normalized(ms)) == AllTextAfterC(ms)
  {
    CollapseKeeps(Prepared(ms));
    PreparedKeeps(ms, true);
    assert Prepared(ms) == PreparedFrom(ms, true);
  }

  function OthersAfterC(ms: seq<Message>): seq<Message> {
    if ms == [] then [] else
    (if Role(ms[0]) == "user" || Role(ms[0]) == "system" then [] else [RuleC(ms[0])]) + OthersAfterC(ms[1..])
  }

  function AllTextAfterC(ms: seq<Message>): string {
    if ms == [] then "" else
    (if HasText(ms[0]) && RuleC(ms[0]) == ms[0] then ms[0]["content"].s + SEPARATOR else "") + AllTextAfterC(ms[1..])
  }

  function PreparedFrom(ms: seq<Message>, first: bool): seq<Message> {
    seq(|ms|, i requires 0 <= i < |ms| => Prepare(ms[i], first && i == 0))
  }

  lemma {:induction false} PreparedKeeps(ms: seq<Message>, first: bool)
    ensures Others(PreparedFrom(ms, first)) == OthersAfterC(ms)
    ensures AllText(PreparedFrom(ms, first)) == AllTextAfterC(ms)
  {
    if ms != [] {
      hide RuleA, RuleC, Prepare;
      PreparedKeeps(ms[1..], false);
      PrepareKeepsOne(ms[0], first);
      var rest := ms[1..];
      forall i | 0 <= i < |rest| ensures PreparedFrom(ms, first)[1..][i] == PreparedFrom(rest, false)[i] {
        assert PreparedFrom(ms, first)[i + 1] == Prepare(rest[i], false);
      }
      assert PreparedFrom(ms, first)[1..] == PreparedFrom(rest, false);
    }
  }

  lemma PrepareKeepsOne(m: Message, first: bool)
    ensures var p := Prepare(m, first);
            if Role(m) == "user" || Role(m) == "system" then Role(p) == "user" || Role(p) == "system"
            else p == RuleC(m) && Role(p) == Role(m)
    ensures var p := Prepare(m, first);
            if HasText(m) && RuleC(m) == m then HasText(p) && p["content"] == m["content"] else !HasText(p)
  {
  }

  // ------------------------------------------------------------------ message by message

  /** A message as it is sent by itself: a system one behind the first as a user's, the empty
      content of an assistant turn with tool calls as null, and every other field as it was. */
  ghost predicate SentAs(m: Message, first: bool, sent: Message) {
    && sent.Keys == m.Keys
    && (forall k | k in m && k != "role" && k != "content" :: sent[k] == m[k])
    && ("role" in m ==>
          sent["role"] == if m["role"] == Text("system") && !first then Text("user") else m["role"])
    && ("content" in m ==>
          sent["content"] == if "role" in m && m["role"] == Text("assistant") && "tool_calls" in m
                                && m["content"] == Text("") then Null else m["content"])
  }

  /** A user turn, or a system one behind the first, that is a text and has to do with no tool
      call. */
  predicate UserText(ms: seq<Message>, i: nat)
    requires i < |ms|
  {
    var m := ms[i];
    && "role" in m && (m["role"] == Text("user") || (m["role"] == Text("system") && i > 0))
    && "content" in m && m["content"].Text? && "tool_calls" !in m && "tool_call_id" !in m
  }

  /** The messages that start a turn of their own: all but a user text behind a user text. */
  function Starts(ms: seq<Message>): seq<bool> {
    seq(|ms|, i requires 0 <= i < |ms| => i == 0 || !UserText(ms, i - 1) || !UserText(ms, i))
  }

  /** The texts of consecutive messages with the separator between them. */
  function JoinedText(ms: seq<Message>, from: nat, to: nat): string
    requires from < to <= |ms|
  {
    var m := ms[to - 1];
    var last := if "content" in m && m["content"].Text? then m["content"].s else "";
    if to == from + 1 then last else JoinedText(ms, from, to - 1) + "\n\n" + last
  }

  /** What the messages from one place to another are sent as: one by itself, or several user
      texts as one user turn that has the first one's other fields and their texts joined. */
  ghost predicate IsTurn(ms: seq<Message>, from: nat, to: nat, sent: Message) {
    from < to <= |ms| &&
    if to == from + 1 then SentAs(ms[from], from == 0, sent)
    else
      && UserText(ms, from) && (forall i | from < i < to :: UserText(ms, i))
      && sent.Keys == ms[from].Keys && sent["role"] == Text("user")
      && sent["content"] == Text(JoinedText(ms, from, to))
      && forall k | k in sent && k != "role" && k != "content" :: sent[k] == ms[from][k]
  }

  /** Where the turn at `j` ends: where the next one starts, or at the end. */
  function EndOf(starts: seq<nat>, j: nat, end: nat): nat {
    if j + 1 < |starts| then starts[j + 1] else end
  }

  ghost predicate AreTurns(ms: seq<Message>, starts: seq<nat>, out: seq<Message>) {
    && |out| == |starts|
    && forall j | 0 <= j < |starts| :: IsTurn(ms, starts[j], EndOf(starts, j, |ms|), out[j])
  }

  lemma PreparedIsSent(m: Message, first: bool)
    ensures SentAs(m, first, Prepare(m, first))
  {}

  lemma {:induction false} JoinedStays(ms: seq<Message>, m: Message, from: nat, to: nat)
    requires from < to <= |ms|
    ensures JoinedText(ms + [m], from, to) == JoinedText(ms, from, to)
  {
    assert (ms + [m])[to - 1] == ms[to - 1];
    if to > from + 1 {
      JoinedStays(ms, m, from, to - 1);
    }
  }

  lemma UserTextsStay(ms: seq<Message>, m: Message)
    ensures forall i | 0 <= i < |ms| :: UserText(ms + [m], i) <==> UserText(ms, i)
  {
    assert forall i | 0 <= i < |ms| :: (ms + [m])[i] == ms[i];
  }

  lemma TurnStays(ms: seq<Message>, m: Message, from: nat, to: nat, sent: Message)
    requires IsTurn(ms, from, to, sent)
    ensures IsTurn(ms + [m], from, to, sent)
  {
    JoinedStays(ms, m, from, to);
    hide SentAs, JoinedText;
    UserTextsStay(ms, m);
    assert (ms + [m])[from] == ms[from];
    hide UserText;
  }

  /** A user text joins the turn of a user text right before it, and nothing else does. */
  lemma JoinsIff(ms: seq<Message>, m: Message, from: nat, sent: Message)
    requires IsTurn(ms, from, |ms|, sent)
    ensures var all := ms + [m];
            Mergeable(sent, Prepare(m, false)) <==> UserText(all, |ms| - 1) && UserText(all, |ms|)
  {
    var all := ms + [m];
    assert all[|ms| - 1] == ms[|ms| - 1] && all[|ms|] == m;
    PreparedUser(m);
    if |ms| == from + 1 {
      SentUser(ms[from], from == 0, sent);
    } else {
      assert UserText(ms, |ms| - 1);
      hide JoinedText, Prepare;
    }
  }

  /** What a turn that takes or gives user text looks like. */
  predicate TakesText(m: Message) {
    Role(m) == "user" && Plain(m)
  }

  lemma PreparedUser(m: Message)
    ensures Role(Prepare(m, false)) != "system"
    ensures TakesText(Prepare(m, false)) <==> UserText([m, m], 1)
    ensures TakesText(Prepare(m, false)) ==> Prepare(m, false)["content"] == m["content"]
  {}

  lemma SentUser(m: Message, first: bool, sent: Message)
    requires SentAs(m, first, sent)
    ensures TakesText(sent) <==> UserText([m, m], if first then 0 else 1)
    ensures TakesText(sent) ==> sent["content"] == m["content"]
  {}

  /** The last turn so far is user text when its last message is. */
  lemma TurnTakes(ms: seq<Message>, from: nat, sent: Message)
    requires IsTurn(ms, from, |ms|, sent) && UserText(ms, |ms| - 1)
    ensures TakesText(sent) && sent["content"] == Text(JoinedText(ms, from, |ms|))
  {
    if |ms| == from + 1 {
      SentUser(ms[from], from == 0, sent);
    }
  }

  lemma TurnGrows(ms: seq<Message>, m: Message, from: nat, sent: Message)
    requires IsTurn(ms, from, |ms|, sent)
    requires UserText(ms + [m], |ms| - 1) && UserText(ms + [m], |ms|)
    ensures IsTurn(ms + [m], from, |ms| + 1, Merge(sent, Prepare(m, false)))
  {
    var all, p := ms + [m], Prepare(m, false);
    UserTextsStay(ms, m);
    TurnTakes(ms, from, sent);
    PreparedUser(m);
    assert all[|ms|] == m && TakesText(p);
    JoinedStays(ms, m, from, |ms|);
    assert all[from] == ms[from];
    hide Prepare;
    assert JoinedText(all, from, |ms| + 1) == JoinedText(ms, from, |ms|) + SEPARATOR + StringAt(m, "content");
    hide JoinedText;
    assert forall i | from <= i < |all| :: UserText(all, i);
    hide UserText;
  }

  lemma TurnOpens(ms: seq<Message>, m: Message)
    ensures IsTurn(ms + [m], |ms|, |ms| + 1, Prepare(m, ms == []))
  {
    assert (ms + [m])[|ms|] == m;
    PreparedIsSent(m, ms == []);
  }

  lemma StartsSnoc(ms: seq<Message>, m: Message)
    ensures |Starts(ms)| == |ms|
    ensures var all := ms + [m];
            Starts(all) == Starts(ms) + [ms == [] || !UserText(all, |ms| - 1) || !UserText(all, |ms|)]
  {
    var all := ms + [m];
    UserTextsStay(ms, m);
    hide UserText;
    forall i | 0 <= i < |ms| ensures Starts(all)[i] == Starts(ms)[i] {
      if i > 0 {
        assert UserText(all, i - 1) == UserText(ms, i - 1);
      }
    }
  }

  /** The loop's turn of one more message, on what the messages before were sent as. */
  lemma TurnsSnoc(ms: seq<Message>, m: Message, starts: seq<nat>, out: seq<Message>)
    requires AreTurns(ms, starts, out) && (ms == [] <==> starts == [])
    ensures var all := ms + [m];
            var opens := ms == [] || !UserText(all, |ms| - 1) || !UserText(all, |ms|);
            AreTurns(all, if opens then starts + [|ms|] else starts, Push(out, Prepare(m, ms == [])))
  {
    hide IsTurn, Mergeable, Merge, Prepare, UserText;
    var all := ms + [m];
    var opens := ms == [] || !UserText(all, |ms| - 1) || !UserText(all, |ms|);
    var after, sent := if opens then starts + [|ms|] else starts, Push(out, Prepare(m, ms == []));
    TurnOpens(ms, m);
    if ms != [] {
      var n := |starts| - 1;
      assert IsTurn(ms, starts[n], EndOf(starts, n, |ms|), out[n]);
      JoinsIff(ms, m, starts[n], out[n]);
      if !opens {
        TurnGrows(ms, m, starts[n], out[n]);
      }
    }
    assert |sent| == |after|;
    forall j | 0 <= j < |after| ensures IsTurn(all, after[j], EndOf(after, j, |all|), sent[j]) {
      if j < |starts| && (opens || j + 1 < |starts|) {
        TurnStays(ms, m, starts[j], EndOf(starts, j, |ms|), out[j]);
      }
    }
  }

  lemma NormalizedTurnsSnoc(ms: seq<Message>, m: Message)
    requires AreTurns(ms, Places(Starts(ms)), Normalized(ms)) && (ms == [] <==> Places(Starts(ms)) == [])
    ensures var all := ms + [m];
            AreTurns(all, Places(Starts(all)), Normalized(all)) && Places(Starts(all)) != []
  {
    hide *;
    NormalizedSnoc(ms, m);
    StartsSnoc(ms, m);
    TurnsSnoc(ms, m, Places(Starts(ms)), Normalized(ms));
    PlacesSnoc(Starts(ms), ms == [] || !UserText(ms + [m], |ms| - 1) || !UserText(ms + [m], |ms|));
  }

  /** What is sent, from the messages' own fields: one turn from each message that starts one to
      the next that does. */
  lemma {:induction false} NormalizedAreTurns(ms: seq<Message>)
    ensures AreTurns(ms, Places(Starts(ms)), Normalized(ms)) && (ms == [] <==> Places(Starts(ms)) == [])
  {
    if ms == [] {
      hide IsTurn;
      assert Starts(ms) == [] && Normalized(ms) == [];
    } else {
      hide *;
      var init, m := ms[..|ms| - 1], ms[|ms| - 1];
      NormalizedAreTurns(init);
      NormalizedTurnsSnoc(init, m);
      assert ms == init + [m];
    }
  }
}
