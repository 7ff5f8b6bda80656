/**
  The Anthropic provider's memory of finished tool-use turns (backend/api/anthropic-provider.cpp):
  the key of a turn, the bounded cache and its first-in first-out eviction, and the replay
  of a turn for any order of its tool-use ids.
 */
module ToolTurns {
  import opened BoundedCache
  import opened Common

  /** The content blocks of a message other than tool results. A tool's input is the text of
      its JSON object. */
  datatype Block =
    | Thinking(text: string, signature: string)
    | RedactedThinking(data: string)
    | Text(text: string)
    | ToolUse(id: string, name: string, input: string)
    | Image(mediaType: string, base64: string)

  const MAX_REMEMBERED := 64

  // ------------------------------------------------------------------ sorting

  /** Strings in lexicographic order of their code units. */
  predicate Leq(a: string, b: string) {
    a == "" || (b != "" && (a[0] < b[0] || (a[0] == b[0] && Leq(a[1..], b[1..]))))
  }

  lemma {:induction false} LeqTotal(a: string, b: string)
    ensures Leq(a, b) || Leq(b, a)
  {
    if a != "" && b != "" && a[0] == b[0] {
      LeqTotal(a[1..], b[1..]);
    }
  }

  lemma {:induction false} LeqAntisymmetric(a: string, b: string)
    requires Leq(a, b) && Leq(b, a)
    ensures a == b
  {
    if a != "" {
      LeqAntisymmetric(a[1..], b[1..]);
      assert a == [a[0]] + a[1..] && b == [b[0]] + b[1..];
    }
  }

  lemma {:induction false} LeqTransitive(a: string, b: string, c: string)
    requires Leq(a, b) && Leq(b, c)
    ensures Leq(a, c)
  {
    if a != "" && a[0] == b[0] == c[0] {
      LeqTransitive(a[1..], b[1..], c[1..]);
    }
  }

  predicate Sorted(s: seq<string>) {
    forall i, j | 0 <= i < j < |s| :: Leq(s[i], s[j])
  }

  function Insert(x: string, s: seq<string>): seq<string> {
    if s == [] then [x]
    else if Leq(x, s[0]) then [x] + s
    else [s[0]] + Insert(x, s[1..])
  }

  /** QStringList::sort. */
  function Sort(s: seq<string>): seq<string> {
    if s == [] then [] else Insert(s[0], Sort(s[1..]))
  }

  lemma {:induction false} InsertPermutes(x: string, s: seq<string>)
    ensures multiset(Insert(x, s)) == multiset([x] + s)
  {
    if s != [] {
      hide Leq;
      InsertPermutes(x, s[1..]);
      assert s == [s[0]] + s[1..];
    }
  }

  lemma SortedCons(x: string, s: seq<string>)
    requires Sorted(s) && forall y | y in s :: Leq(x, y)
    ensures Sorted([x] + s)
  {
    hide Leq;
  }

  lemma {:induction false} InsertSorts(x: string, s: seq<string>)
    requires Sorted(s)
    ensures Sorted(Insert(x, s))
  {
    if s != [] {
      LeqTotal(x, s[0]);
      if Leq(x, s[0]) {
        forall y | y in s ensures Leq(x, y) {
          LeqReflexive(s[0]);
          LeqTransitive(x, s[0], y);
        }
        SortedCons(x, s);
      } else {
        InsertSorts(x, s[1..]);
        InsertPermutes(x, s[1..]);
        var rest := Insert(x, s[1..]);
        hide Leq;
        forall y | y in rest ensures Leq(s[0], y) {
          assert y in multiset([x] + s[1..]);
          assert y == x || y in s[1..];
        }
        SortedCons(s[0], rest);
      }
    }
  }

  lemma {:induction false} SortSorts(s: seq<string>)
    ensures Sorted(Sort(s)) && multiset(Sort(s)) == multiset(s)
  {
    if s != [] {
      SortSorts(s[1..]);
      InsertSorts(s[0], Sort(s[1..]));
      InsertPermutes(s[0], Sort(s[1..]));
      assert s == [s[0]] + s[1..];
    }
  }

  lemma SortedHead(a: seq<string>, b: seq<string>)
    requires Sorted(a) && Sorted(b) && multiset(a) == multiset(b) && a != []
    ensures b != [] && a[0] == b[0]
  {
    assert a[0] in multiset(b);
    var i :| 0 <= i < |b| && b[i] == a[0];
    assert b[0] in multiset(a);
    var j :| 0 <= j < |a| && a[j] == b[0];
    LeqReflexive(a[0]);
    LeqReflexive(b[0]);
    assert Leq(a[0], a[j]) && Leq(b[0], b[i]);
    LeqAntisymmetric(a[0], b[0]);
  }

  lemma MultisetTail(a: seq<string>)
    requires a != []
    ensures multiset(a[1..]) == multiset(a) - multiset([a[0]])
  {
    assert a == [a[0]] + a[1..];
  }

  /** Two sorted arrangements of the same strings are the same list. */
  lemma {:induction false} SortedUnique(a: seq<string>, b: seq<string>)
    requires Sorted(a) && Sorted(b) && multiset(a) == multiset(b)
    ensures a == b
  {
    if a == [] {
      assert |multiset(b)| == 0;
    } else {
      SortedHead(a, b);
      MultisetTail(a);
      MultisetTail(b);
      SortedUnique(a[1..], b[1..]);
      assert a == [a[0]] + a[1..] && b == [b[0]] + b[1..];
    }
  }

  lemma {:induction false} LeqReflexive(a: string)
    ensures Leq(a, a)
  {
    if a != "" {
      LeqReflexive(a[1..]);
    }
  }

  // ------------------------------------------------------------------ the key of a turn

  function Join(ids: seq<string>): string {
    if ids == [] then ""
    else if |ids| == 1 then ids[0]
    else ids[0] + "," + Join(ids[1..])
  }

  function NonEmpty(ids: seq<string>): seq<string> {
    if ids == [] then [] else
    NonEmpty(ids[..|ids| - 1]) + if ids[|ids| - 1] != "" then [ids[|ids| - 1]] else []
  }

  function Key(ids: seq<string>): string {
    Join(Sort(NonEmpty(ids)))
  }

  method ToolTurnKey(toolCallIds: seq<string>) returns (key: string)
    ensures key == Key(toolCallIds)
  {
    var ids: seq<string> := [];
    for i := 0 to |toolCallIds|
      invariant ids == NonEmpty(toolCallIds[..i])
    {
      assert toolCallIds[..i + 1][..i] == toolCallIds[..i];
      if toolCallIds[i] != "" {
        ids := ids + [toolCallIds[i]];
      }
    }
    assert toolCallIds[..|toolCallIds|] == toolCallIds;
    key := Join(Sort(ids));
  }

  predicate CommaFree(ids: seq<string>) {
    forall i | 0 <= i < |ids| :: ',' !in ids[i]
  }

  lemma {:induction false} NonEmptyKeeps(ids: seq<string>)
    ensures forall i | 0 <= i < |NonEmpty(ids)| :: NonEmpty(ids)[i] != "" && NonEmpty(ids)[i] in ids
  {
    if ids != [] {
      NonEmptyKeeps(ids[..|ids| - 1]);
    }
  }

  lemma CutAtComma(p: string, x: string, q: string, y: string)
    requires ',' !in p && ',' !in q && p + "," + x == q + "," + y
    ensures p == q && x == y
  {
    var l, r := p + "," + x, q + "," + y;
    assert l[|p|] == ',' && r[|q|] == ',';
    assert forall i | 0 <= i < |q| :: r[i] == q[i] && q[i] in q;
    assert |q| <= |p|;
    assert forall i | 0 <= i < |p| :: l[i] == p[i] && p[i] in p;
    assert |p| <= |q|;
    assert p == l[..|p|] && q == r[..|q|];
    assert x == l[|p| + 1..] && y == r[|q| + 1..];
  }

  lemma CommaInJoin(ids: seq<string>)
    requires CommaFree(ids)
    ensures ',' in Join(ids) <==> |ids| > 1
  {
    if |ids| > 1 {
      assert Join(ids)[|ids[0]|] == ',';
    }
  }

  lemma {:induction false} JoinInjective(a: seq<string>, b: seq<string>)
    requires CommaFree(a) && CommaFree(b) && "" !in a && "" !in b
    requires Join(a) == Join(b)
    ensures a == b
  {
    CommaInJoin(a);
    CommaInJoin(b);
    if |a| > 1 {
      CutAtComma(a[0], Join(a[1..]), b[0], Join(b[1..]));
      JoinInjective(a[1..], b[1..]);
      assert a == [a[0]] + a[1..] && b == [b[0]] + b[1..];
    }
  }

  /** The key does not depend on the order of the ids, nor on empty ids. */
  lemma {:induction false} KeyIgnoresOrder(a: seq<string>, b: seq<string>)
    requires multiset(NonEmpty(a)) == multiset(NonEmpty(b))
    ensures Key(a) == Key(b)
  {
    hide Sorted;
    SortSorts(NonEmpty(a));
    SortSorts(NonEmpty(b));
    SortedUnique(Sort(NonEmpty(a)), Sort(NonEmpty(b)));
  }

  /** Over comma-free ids, equal keys are equal multisets of non-empty ids. */
  lemma KeyIdentifies(a: seq<string>, b: seq<string>)
    requires CommaFree(a) && CommaFree(b)
    ensures Key(a) == Key(b) <==> multiset(NonEmpty(a)) == multiset(NonEmpty(b))
  {
    if multiset(NonEmpty(a)) == multiset(NonEmpty(b)) {
      KeyIgnoresOrder(a, b);
    } else {
      SortKeepsCommaFree(a);
      SortKeepsCommaFree(b);
      if Key(a) == Key(b) {
        JoinInjective(Sort(NonEmpty(a)), Sort(NonEmpty(b)));
      }
    }
  }

  lemma SortKeepsCommaFree(ids: seq<string>)
    requires CommaFree(ids)
    ensures CommaFree(Sort(NonEmpty(ids))) && "" !in Sort(NonEmpty(ids))
    ensures multiset(Sort(NonEmpty(ids))) == multiset(NonEmpty(ids))
  {
    var kept := NonEmpty(ids);
    NonEmptyKeeps(ids);
    SortSorts(kept);
    forall i | 0 <= i < |Sort(kept)| ensures Sort(kept)[i] in kept {
      assert Sort(kept)[i] in multiset(kept);
    }
    assert "" !in kept;
    assert "" !in multiset(kept);
  }

  /** A comma inside an id makes turns collide: the two ids of the one turn are the one id
      of the other. */
  lemma CommaCollides(x: string, y: string)
    requires x != "" && y != "" && Leq(x, y)
    ensures Key([x + "," + y]) == Key([x, y])
    ensures multiset(NonEmpty([x + "," + y])) != multiset(NonEmpty([x, y]))
  {
    NonEmptyOne(x + "," + y);
    NonEmptyTwo(x, y);
    assert Join([x, y]) == x + "," + y by {
      assert [x, y][1..] == [y];
    }
    assert |multiset([x + "," + y])| == 1 && |multiset([x, y])| == 2;
  }

  lemma NonEmptyOne(x: string)
    requires x != ""
    ensures NonEmpty([x]) == [x] == Sort([x])
  {
    assert [x][..0] == [];
  }

  lemma NonEmptyTwo(x: string, y: string)
    requires x != "" && y != "" && Leq(x, y)
    ensures NonEmpty([x, y]) == [x, y] == Sort([x, y])
  {
    NonEmptyOne(x);
    NonEmptyOne(y);
    assert [x, y][..1] == [x] && [x, y][1..] == [y];
  }

  function Prepend(c: char, parts: seq<string>): seq<string>
    requires parts != []
  {
    [[c] + parts[0]] + parts[1..]
  }

  /** A text cut at its commas. */
  function Split(s: string): (parts: seq<string>)
    ensures parts != []
  {
    if s == "" then [""]
    else if s[0] == ',' then [""] + Split(s[1..])
    else Prepend(s[0], Split(s[1..]))
  }

  /** The ids cut at their commas, one list. */
  function Parts(ids: seq<string>): seq<string> {
    if ids == [] then [] else Split(ids[0]) + Parts(ids[1..])
  }

  lemma JoinCons(x: string, rest: seq<string>)
    requires rest != []
    ensures Join([x] + rest) == x + ("," + Join(rest))
  {
    assert ([x] + rest)[1..] == rest;
    ConcatAssoc(x, ",", Join(rest));
  }

  lemma JoinPrepend(c: char, parts: seq<string>)
    requires parts != []
    ensures Join(Prepend(c, parts)) == [c] + Join(parts)
  {
    var x, rest := parts[0], parts[1..];
    assert parts == [x] + rest;
    hide Join;
    if rest == [] {
      JoinOne(x);
      JoinOne([c] + x);
      assert [[c] + x] + rest == [[c] + x] && [x] + rest == [x];
    } else {
      JoinCons(x, rest);
      JoinCons([c] + x, rest);
      ConcatAssoc([c], x, "," + Join(rest));
    }
  }

  lemma JoinOne(x: string)
    ensures Join([x]) == x
  {}

  lemma {:induction false} JoinSplit(s: string)
    ensures Join(Split(s)) == s
  {
    if s != "" {
      JoinSplit(s[1..]);
      assert s == [s[0]] + s[1..];
      hide Join;
      JoinCons("", Split(s[1..]));
      JoinPrepend(s[0], Split(s[1..]));
    }
  }

  lemma PrependAppend(c: char, a: seq<string>, b: seq<string>)
    requires a != []
    ensures Prepend(c, a) + b == Prepend(c, a + b)
  {
    assert (a + b)[0] == a[0] && (a + b)[1..] == a[1..] + b;
    ConcatAssoc([[c] + a[0]], a[1..], b);
  }

  lemma {:induction false} SplitAtComma(a: string, b: string)
    ensures Split(a + ("," + b)) == Split(a) + Split(b)
  {
    var t := a + ("," + b);
    if a == "" {
      assert t == "," + b && t[0] == ',' && t[1..] == b;
    } else {
      assert t[0] == a[0] && t[1..] == a[1..] + ("," + b);
      hide Prepend;
      SplitAtComma(a[1..], b);
      PrependAppend(a[0], Split(a[1..]), Split(b));
      ConcatAssoc([""], Split(a[1..]), Split(b));
    }
  }

  lemma {:induction false} SplitJoin(ids: seq<string>)
    requires ids != []
    ensures Split(Join(ids)) == Parts(ids)
  {
    if |ids| == 1 {
      assert Parts(ids[1..]) == [];
    } else {
      hide Split;
      SplitJoin(ids[1..]);
      SplitAtComma(ids[0], Join(ids[1..]));
      JoinCons(ids[0], ids[1..]);
      assert [ids[0]] + ids[1..] == ids;
    }
  }

  /** Joined ids determine their parts, and their parts the joined ids. */
  lemma JoinedAlikeIff(a: seq<string>, b: seq<string>)
    requires "" !in a && "" !in b
    ensures Join(a) == Join(b) <==> Parts(a) == Parts(b)
  {
    hide Join, Split, Parts;
    JoinEmptyIff(a);
    JoinEmptyIff(b);
    if a != [] && b != [] {
      SplitJoin(a);
      SplitJoin(b);
      JoinSplit(Join(a));
      JoinSplit(Join(b));
    }
  }

  lemma JoinEmptyIff(ids: seq<string>)
    requires "" !in ids
    ensures (Join(ids) == "" <==> ids == []) && (Parts(ids) == [] <==> ids == [])
  {
    if ids != [] {
      assert ids[0] != "" && |Join(ids)| >= |ids[0]|;
    }
  }

  /** For any ids: keys are equal if and only if the sorted non-empty ids, each cut at its
      commas, read alike. */
  lemma KeysEqualIff(a: seq<string>, b: seq<string>)
    ensures Key(a) == Key(b) <==> Parts(Sort(NonEmpty(a))) == Parts(Sort(NonEmpty(b)))
  {
    hide Join, Parts, Sort;
    SortKeepsNonEmpty(a);
    SortKeepsNonEmpty(b);
    JoinedAlikeIff(Sort(NonEmpty(a)), Sort(NonEmpty(b)));
  }

  lemma SortKeepsNonEmpty(ids: seq<string>)
    ensures "" !in Sort(NonEmpty(ids))
  {
    hide Sort, NonEmpty;
    var kept := NonEmpty(ids);
    NonEmptyKeeps(ids);
    SortSorts(kept);
    assert "" !in kept;
    assert "" !in multiset(Sort(kept));
  }

  // ------------------------------------------------------------------ the cache

  function UseIds(blocks: seq<Block>): seq<string> {
    if blocks == [] then [] else
    UseIds(blocks[..|blocks| - 1])
    + if blocks[|blocks| - 1].ToolUse? then [blocks[|blocks| - 1].id] else []
  }

  function TurnKey(blocks: seq<Block>): string {
    Key(UseIds(blocks))
  }

  /** A finished turn that names a tool use goes in under its key. */
  function Remember(c: Cache<seq<Block>>, blocks: seq<Block>): Cache<seq<Block>> {
    if TurnKey(blocks) == "" then c else Put(MAX_REMEMBERED, c, Stored(TurnKey(blocks), blocks))
  }

  function RememberAll(c: Cache<seq<Block>>, turns: seq<seq<Block>>): Cache<seq<Block>> {
    if turns == [] then c else Remember(RememberAll(c, turns[..|turns| - 1]), turns[|turns| - 1])
  }

  lemma RememberOne(c: Cache<seq<Block>>, blocks: seq<Block>)
    ensures RememberAll(c, [blocks]) == Remember(c, blocks)
  {
    hide Remember;
    assert [blocks][..0] == [];
  }

  lemma {:induction false} RememberAppend(c: Cache<seq<Block>>, a: seq<seq<Block>>, b: seq<seq<Block>>)
    ensures RememberAll(RememberAll(c, a), b) == RememberAll(c, a + b)
  {
    hide Remember;
    if b == [] {
      assert a + b == a;
    } else {
      RememberAppend(c, a, b[..|b| - 1]);
      assert (a + b)[..|a + b| - 1] == a + b[..|b| - 1];
    }
  }

  /** The turns of a run that are stored, under their keys. */
  function Keyed(turns: seq<seq<Block>>): seq<Stored<seq<Block>>> {
    if turns == [] then [] else
    var last := turns[|turns| - 1];
    Keyed(turns[..|turns| - 1]) + if TurnKey(last) != "" then [Stored(TurnKey(last), last)] else []
  }

  lemma {:induction false} RememberedIsPut(c: Cache<seq<Block>>, turns: seq<seq<Block>>)
    ensures RememberAll(c, turns) == PutAll(MAX_REMEMBERED, c, Keyed(turns))
  {
    if turns != [] {
      hide Put, TurnKey;
      var init, last := turns[..|turns| - 1], turns[|turns| - 1];
      RememberedIsPut(c, init);
      if TurnKey(last) != "" {
        assert Keyed(turns)[..|Keyed(turns)| - 1] == Keyed(init);
      } else {
        assert Keyed(init) + [] == Keyed(init);
      }
    }
  }

  /** Every entry of the cache is a turn stored under its own, non-empty key. */
  ghost predicate WellKeyed(c: Cache<seq<Block>>) {
    && Ok(MAX_REMEMBERED, c)
    && forall k | k in c.entries :: k != "" && k == TurnKey(c.entries[k])
  }

  lemma RememberStep(c: Cache<seq<Block>>, blocks: seq<Block>)
    requires WellKeyed(c)
    ensures WellKeyed(Remember(c, blocks))
  {
    hide Put, TurnKey, Ok;
    if TurnKey(blocks) != "" {
      PutStep(MAX_REMEMBERED, c, Stored(TurnKey(blocks), blocks));
    }
  }

  lemma {:induction false} KeyedKeys(turns: seq<seq<Block>>, k: string)
    requires forall i | 0 <= i < |turns| :: TurnKey(turns[i]) != k
    ensures forall i | 0 <= i < |Keyed(turns)| :: Keyed(turns)[i].key != k
  {
    if turns != [] {
      hide TurnKey;
      KeyedKeys(turns[..|turns| - 1], k);
    }
  }

  /** While a turn is cached and no later turn took its key, any order of its tool-use ids
      finds exactly its blocks. */
  lemma {:induction false} ReplayedUnchanged(c: Cache<seq<Block>>, blocks: seq<Block>, later: seq<seq<Block>>,
                                             ids: seq<string>)
    requires WellKeyed(c)
    requires multiset(NonEmpty(ids)) == multiset(NonEmpty(UseIds(blocks)))
    requires forall i | 0 <= i < |later| :: TurnKey(later[i]) != TurnKey(blocks)
    ensures var d := RememberAll(Remember(c, blocks), later);
            Key(ids) in d.entries ==> d.entries[Key(ids)] == blocks
  {
    KeyIgnoresOrder(ids, UseIds(blocks));
    assert Key(ids) == TurnKey(blocks);
    hide TurnKey, Put, Key, Ok, NonEmpty;
    var before := Remember(c, blocks);
    RememberStep(c, blocks);
    RememberedIsPut(before, later);
    KeyedKeys(later, TurnKey(blocks));
    if TurnKey(blocks) != "" {
      ServedUnchanged(MAX_REMEMBERED, c, Stored(TurnKey(blocks), blocks), Keyed(later));
    } else {
      FirstInFirstOut(MAX_REMEMBERED, c, Keyed(later));
      if "" in RememberAll(before, later).entries {
        LastUnderUntouched(c, Keyed(later), "");
      }
    }
  }

  // ------------------------------------------------------------------ what is kept, and that it is

  function Named(ids: seq<string>): seq<bool> {
    seq(|ids|, i requires 0 <= i < |ids| => ids[i] != "")
  }

  /** The ids that make up a key are those that are not empty, in order. */
  lemma {:induction false} NonEmptyArePicked(ids: seq<string>)
    ensures ArePicked(ids, Named(ids), NonEmpty(ids))
  {
    if ids != [] {
      var init, last := ids[..|ids| - 1], ids[|ids| - 1];
      NonEmptyArePicked(init);
      assert ids == init + [last] && Named(ids) == Named(init) + [last != ""];
      hide ArePicked;
      PickedSnoc(init, Named(init), NonEmpty(init), last, last != "");
    }
  }

  lemma {:induction false} NonEmptyCounts(ids: seq<string>)
    ensures multiset(NonEmpty(ids)) == multiset(ids)["" := 0]
  {
    if ids != [] {
      NonEmptyCounts(ids[..|ids| - 1]);
      assert ids == ids[..|ids| - 1] + [ids[|ids| - 1]];
    }
  }

  lemma KeyIsThere(ids: seq<string>)
    requires exists i | 0 <= i < |ids| :: ids[i] != ""
    ensures Key(ids) != ""
  {
    var i :| 0 <= i < |ids| && ids[i] != "";
    NonEmptyCounts(ids);
    assert ids[i] in multiset(ids);
    assert ids[i] in multiset(NonEmpty(ids));
    SortSorts(NonEmpty(ids));
    assert Sort(NonEmpty(ids)) != [];
    SortKeepsNonEmpty(ids);
    JoinEmptyIff(Sort(NonEmpty(ids)));
  }

  /** A turn with a tool use that has an id is there once it is remembered, for any order of
      its ids. */
  lemma RememberedIsThere(c: Cache<seq<Block>>, blocks: seq<Block>, ids: seq<string>)
    requires WellKeyed(c) && multiset(ids) == multiset(UseIds(blocks))
    requires exists i | 0 <= i < |ids| :: ids[i] != ""
    ensures var d := Remember(c, blocks); Key(ids) in d.entries && d.entries[Key(ids)] == blocks
  {
    NonEmptyCounts(ids);
    NonEmptyCounts(UseIds(blocks));
    KeyIgnoresOrder(ids, UseIds(blocks));
    KeyIsThere(ids);
    assert Key(ids) == TurnKey(blocks);
    hide Key, NonEmpty, TurnKey, Put, Ok;
    PutIs(MAX_REMEMBERED, c, Stored(TurnKey(blocks), blocks));
  }
}
