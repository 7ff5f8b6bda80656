/**
  The data part of the v6 migration (backend/models/db-manager.cpp, applySchemaV6): legacy rows
  removed, and a turn id given to every message that has none.

  The messages table is a map from id to row; no turn id, NULL or empty, is "". The order in
  which a query by creation time returns rows made at the same time is an input. The writes
  themselves do not fail.
 */
module SchemaV6 {

  datatype Message = Message(conversation: string, role: string, content: string, finishReason: string,
                             createdAt: int, turnId: string)

  type Table = map<string, Message>

  // ------------------------------------------------------------------ rows that go

  predicate OnlySpaces(text: string) {
    forall i | 0 <= i < |text| :: text[i] == ' '
  }

  /** A leftover of how tool calls used to be kept: a tool row, or an empty assistant row that
      announced calls of which none is recorded. */
  predicate Legacy(m: Message, hasToolCalls: bool) {
    m.role == "tool"
    || (m.role == "assistant" && OnlySpaces(m.content) && m.finishReason == "tool_calls" && !hasToolCalls)
  }

  /** The two DELETE statements. */
  function Cleaned(t: Table, withToolCalls: set<string>): Table {
    map id | id in t && !Legacy(t[id], id in withToolCalls) :: t[id]
  }

  // ------------------------------------------------------------------ turns

  predicate IsSelected(t: Table, conversation: string, id: string) {
    id in t && t[id].conversation == conversation && t[id].turnId == ""
  }

  /** What the query of a conversation returns: its messages without a turn id, each once, by
      creation time. */
  ghost predicate IsOrder(t: Table, conversation: string, order: seq<string>) {
    && (forall id :: id in order <==> IsSelected(t, conversation, id))
    && Distinct(order)
    && (forall i, j | 0 <= i < j < |order| && order[i] in t && order[j] in t ::
          t[order[i]].createdAt <= t[order[j]].createdAt)
  }

  predicate InTable(t: Table, order: seq<string>) {
    forall i | 0 <= i < |order| :: order[i] in t
  }

  /** The place of the message that opens the turn of the message at place `i`: the user
      message at or before it, or the first message of all. */
  function OpenerOf(t: Table, order: seq<string>, i: nat): (u: nat)
    requires i < |order| && InTable(t, order)
    ensures u <= i
  {
    if i == 0 || t[order[i]].role == "user" then i else OpenerOf(t, order, i - 1)
  }

  /** The opener is the latest user message at or before, or the first message when there is
      none. */
  lemma {:induction false} OpenerIsLatestUser(t: Table, order: seq<string>, i: nat)
    requires i < |order| && InTable(t, order)
    ensures var u := OpenerOf(t, order, i);
            && (t[order[u]].role == "user" || u == 0)
            && forall j | u < j <= i :: t[order[j]].role != "user"
  {
    if i > 0 && t[order[i]].role != "user" {
      OpenerIsLatestUser(t, order, i - 1);
    }
  }

  function Filled(t: Table, order: seq<string>): Table
    requires InTable(t, order)
    ensures Filled(t, order).Keys == t.Keys
  {
    if order == [] then t else
    var i := |order| - 1;
    Filled(t, order[..i])[order[i] := t[order[i]].(turnId := order[OpenerOf(t, order, i)])]
  }

  /** All conversations, one after the other. */
  function FilledAll(t: Table, orders: seq<seq<string>>): Table
    requires forall c | 0 <= c < |orders| :: InTable(t, orders[c])
    ensures FilledAll(t, orders).Keys == t.Keys
  {
    if orders == [] then t else
    var before, last := FilledAll(t, orders[..|orders| - 1]), orders[|orders| - 1];
    assert InTable(t, last) && forall i | 0 <= i < |last| :: last[i] in t.Keys && last[i] in before;
    Filled(before, last)
  }

  class Messages {
    var rows: Table

    constructor (rows: Table)
      ensures this.rows == rows
    {
      this.rows := rows;
    }

    method DeleteLegacy(withToolCalls: set<string>)
      modifies this
      ensures rows == Cleaned(old(rows), withToolCalls)
    {
      rows := map id | id in rows && rows[id].role != "tool" :: rows[id];
      rows := map id | id in rows && !(rows[id].role == "assistant" && OnlySpaces(rows[id].content)
                                       && rows[id].finishReason == "tool_calls" && id !in withToolCalls) :: rows[id];
    }

    /** One conversation's rows, in the order its query returned them. */
    method BackfillConversation(order: seq<string>)
      requires InTable(rows, order) && "" !in order
      requires Distinct(order)
      modifies this
      ensures rows == Filled(old(rows), order)
    {
      hide Filled, OpenerOf, Distinct;
      ghost var t := rows;
      var currentTurn := "";
      NothingFilled(t);
      for i := 0 to |order|
        invariant rows == Filled(t, order[..i])
        invariant i == 0 ==> currentTurn == ""
        invariant i > 0 ==> currentTurn == order[OpenerOf(t, order, i - 1)]
      {
        NotBefore(order, i);
        FilledFrame(t, order[..i], order[i]);
        FilledStep(t, order, i);
        OpenerStep(t, order, i);
        var id := order[i];
        var role := rows[id].role;
        if role == "user" {
          currentTurn := id;
        } else if currentTurn == "" {
          currentTurn := id;
        }
        rows := rows[id := rows[id].(turnId := currentTurn)];
      }
      assert order[..|order|] == order;
    }

    method Backfill(orders: seq<seq<string>>)
      requires forall c | 0 <= c < |orders| :: InTable(rows, orders[c]) && "" !in orders[c]
      requires forall c | 0 <= c < |orders| :: Distinct(orders[c])
      modifies this
      ensures rows == FilledAll(old(rows), orders)
    {
      for c := 0 to |orders|
        invariant rows == FilledAll(old(rows), orders[..c]) && rows.Keys == old(rows).Keys
      {
        assert orders[..c + 1][..c] == orders[..c];
        BackfillConversation(orders[c]);
      }
      assert orders[..|orders|] == orders;
    }
  }

  lemma {:induction false} FilledFrame(t: Table, order: seq<string>, id: string)
    requires InTable(t, order) && id !in order && id in t
    ensures Filled(t, order)[id] == t[id]
  {
    if order != [] {
      FilledFrame(t, order[..|order| - 1], id);
    }
  }

  lemma NothingFilled(t: Table)
    ensures Filled(t, []) == t
  {}

  predicate Distinct(order: seq<string>) {
    forall i, j | 0 <= i < j < |order| :: order[i] != order[j]
  }

  lemma NotBefore(order: seq<string>, i: nat)
    requires i < |order| && Distinct(order)
    ensures order[i] !in order[..i]
  {}

  /** One update gives the row its opener's id. */
  lemma FilledStep(t: Table, order: seq<string>, i: nat)
    requires InTable(t, order) && i < |order|
    ensures Filled(t, order[..i + 1])
            == Filled(t, order[..i])[order[i] := t[order[i]].(turnId := order[OpenerOf(t, order, i)])]
  {
    hide Filled;
    var a := order[..i + 1];
    assert a[..i] == order[..i] && a[i] == order[i] && |a| - 1 == i;
    LastFilled(t, a);
    OpenerShared(t, a, order, i);
  }

  lemma OpenerStep(t: Table, order: seq<string>, i: nat)
    requires InTable(t, order) && i < |order|
    ensures OpenerOf(t, order, i) == if i == 0 || t[order[i]].role == "user" then i else OpenerOf(t, order, i - 1)
  {}

  lemma {:induction false} OpenerShared(t: Table, a: seq<string>, b: seq<string>, i: nat)
    requires a <= b && i < |a| && InTable(t, a) && InTable(t, b)
    ensures OpenerOf(t, a, i) == OpenerOf(t, b, i)
  {
    if i > 0 && t[b[i]].role != "user" {
      OpenerShared(t, a, b, i - 1);
    }
  }

  /** One conversation: every selected message gets its opener's id and nothing else of it
      changes. */
  lemma {:induction false} FilledAt(t: Table, order: seq<string>, i: nat)
    requires InTable(t, order) && i < |order|
    requires Distinct(order)
    ensures Filled(t, order)[order[i]] == t[order[i]].(turnId := order[OpenerOf(t, order, i)])
  {
    var last := |order| - 1;
    LastFilled(t, order);
    if i < last {
      hide Filled, OpenerOf;
      FilledAt(t, order[..last], i);
      OpenerShared(t, order[..last], order, i);
      assert order[..last][i] == order[i] && order[i] != order[last];
    }
  }

  lemma LastFilled(t: Table, order: seq<string>)
    requires InTable(t, order) && order != []
    ensures var last := |order| - 1;
            Filled(t, order)
            == Filled(t, order[..last])[order[last] := t[order[last]].(turnId := order[OpenerOf(t, order, last)])]
  {}

  // ------------------------------------------------------------------ the whole backfill

  /** The queries of a run of conversations, each as it would be before the backfill. */
  ghost predicate AreOrders(t: Table, conversations: seq<string>, orders: seq<seq<string>>) {
    && |conversations| == |orders|
    && (forall c, d | 0 <= c < d < |conversations| :: conversations[c] != conversations[d])
    && (forall c | 0 <= c < |orders| :: InTable(t, orders[c]) && IsOrder(t, conversations[c], orders[c]))
  }

  lemma OrdersApart(t: Table, conversations: seq<string>, orders: seq<seq<string>>, c: nat, id: string)
    requires AreOrders(t, conversations, orders) && c < |orders| && id in orders[c]
    ensures forall d | 0 <= d < |orders| && d != c :: id !in orders[d]
  {
    assert IsSelected(t, conversations[c], id);
    forall d | 0 <= d < |orders| && d != c ensures id !in orders[d] {
      assert conversations[d] != conversations[c];
      assert !IsSelected(t, conversations[d], id) && IsOrder(t, conversations[d], orders[d]);
    }
  }

  lemma {:induction false} AllFrame(t: Table, orders: seq<seq<string>>, id: string)
    requires forall c | 0 <= c < |orders| :: InTable(t, orders[c]) && id !in orders[c]
    requires id in t
    ensures FilledAll(t, orders)[id] == t[id]
  {
    if orders != [] {
      AllFrame(t, orders[..|orders| - 1], id);
      FilledFrame(FilledAll(t, orders[..|orders| - 1]), orders[|orders| - 1], id);
    }
  }

  lemma {:induction false} SameOpener(t: Table, s: Table, order: seq<string>, i: nat)
    requires InTable(t, order) && InTable(s, order) && i < |order|
    requires forall j | 0 <= j < |order| :: s[order[j]] == t[order[j]]
    ensures OpenerOf(s, order, i) == OpenerOf(t, order, i)
  {
    if i > 0 && t[order[i]].role != "user" {
      SameOpener(t, s, order, i - 1);
    }
  }

  /** After the backfill every message that had no turn id has the id of the latest user
      message at or before it among those of its conversation, or of the first of them. */
  lemma {:induction false} EveryMessageGetsItsTurn(t: Table, conversations: seq<string>,
                                                   orders: seq<seq<string>>, c: nat, i: nat)
    requires AreOrders(t, conversations, orders) && c < |orders| && i < |orders[c]|
    ensures FilledAll(t, orders)[orders[c][i]] == t[orders[c][i]].(turnId := orders[c][OpenerOf(t, orders[c], i)])
  {
    var init := orders[..|orders| - 1];
    var before, last := FilledAll(t, init), orders[|orders| - 1];
    OrdersApart(t, conversations, orders, c, orders[c][i]);
    assert AreOrders(t, conversations[..|orders| - 1], init);
    if c < |init| {
      EveryMessageGetsItsTurn(t, conversations[..|orders| - 1], init, c, i);
      hide FilledAll;
      FilledFrame(before, last, orders[c][i]);
      LastFill(t, orders);
    } else {
      forall j | 0 <= j < |last| ensures before[last[j]] == t[last[j]] {
        OrdersApart(t, conversations, orders, c, last[j]);
        AllFrame(t, init, last[j]);
      }
      assert IsOrder(t, conversations[c], last);
      hide FilledAll;
      SameOpener(t, before, last, i);
      FilledAt(before, last, i);
      LastFill(t, orders);
    }
  }

  lemma LastFill(t: Table, orders: seq<seq<string>>)
    requires orders != [] && forall c | 0 <= c < |orders| :: InTable(t, orders[c])
    ensures FilledAll(t, orders) == Filled(FilledAll(t, orders[..|orders| - 1]), orders[|orders| - 1])
  {}

  /** Messages that already had a turn id, and those of other conversations, are not touched. */
  lemma OthersUntouched(t: Table, conversations: seq<string>, orders: seq<seq<string>>, id: string)
    requires AreOrders(t, conversations, orders) && id in t
    requires forall c | 0 <= c < |conversations| :: !IsSelected(t, conversations[c], id)
    ensures FilledAll(t, orders)[id] == t[id]
  {
    AllFrame(t, orders, id);
  }

  /** In terms of creation times: the message whose id becomes the turn id was made no later,
      and no user message was made strictly in between. */
  lemma TurnByTime(t: Table, conversation: string, order: seq<string>, i: nat, v: nat)
    requires InTable(t, order) && IsOrder(t, conversation, order) && i < |order| && v < |order|
    ensures var u := OpenerOf(t, order, i);
            && t[order[u]].createdAt <= t[order[i]].createdAt
            && (t[order[v]].role == "user" ==>
                  !(t[order[u]].createdAt < t[order[v]].createdAt < t[order[i]].createdAt))
  {
    OpenerIsLatestUser(t, order, i);
  }

  /** No message of the conversations is left without a turn id, so a second backfill finds
      nothing to do. */
  lemma NothingLeft(t: Table, conversations: seq<string>, orders: seq<seq<string>>, c: nat, id: string)
    requires AreOrders(t, conversations, orders) && c < |conversations|
    requires forall d | 0 <= d < |orders| :: "" !in orders[d]
    ensures !IsSelected(FilledAll(t, orders), conversations[c], id)
  {
    var end := FilledAll(t, orders);
    if id in t {
      if d :| 0 <= d < |orders| && id in orders[d] {
        var i :| 0 <= i < |orders[d]| && orders[d][i] == id;
        EveryMessageGetsItsTurn(t, conversations, orders, d, i);
        assert orders[d][OpenerOf(t, orders[d], i)] in orders[d];
      } else {
        assert !IsSelected(t, conversations[c], id);
        forall d | 0 <= d < |conversations| ensures !IsSelected(t, conversations[d], id) {
          assert id !in orders[d];
        }
        OthersUntouched(t, conversations, orders, id);
      }
    }
  }

  /** The whole data migration: exactly the tool rows are gone, and the assistant rows with
      nothing or only spaces in them that finished for tool calls of which none is recorded; and
      each row that is left differs from what it was in its turn id at most. */
  lemma NothingElseChanges(t: Table, withToolCalls: set<string>, conversations: seq<string>,
                           orders: seq<seq<string>>, id: string)
    requires AreOrders(Cleaned(t, withToolCalls), conversations, orders) && id in t
    ensures var end := FilledAll(Cleaned(t, withToolCalls), orders);
            && (id in end <==>
                && t[id].role != "tool"
                && (t[id].role == "assistant" && t[id].finishReason == "tool_calls" && id !in withToolCalls ==>
                      exists i | 0 <= i < |t[id].content| :: t[id].content[i] != ' '))
            && (id in end ==> end[id] == t[id].(turnId := end[id].turnId))
  {
    var clean := Cleaned(t, withToolCalls);
    if id in clean {
      if d :| 0 <= d < |orders| && id in orders[d] {
        var i :| 0 <= i < |orders[d]| && orders[d][i] == id;
        EveryMessageGetsItsTurn(clean, conversations, orders, d, i);
      } else {
        AllFrame(clean, orders, id);
      }
    }
  }
}
