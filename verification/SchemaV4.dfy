/**
  The data part of the v4 migration (backend/models/db-manager.cpp, applySchemaV4): member
  lists kept as JSON become rows of a membership table, each under an alias of its own.

  The two loops of the source differ in the table they fill and in whether the first member
  becomes coordinator; `elect` says which. An entry list is what the stored JSON parses to.
  Filling a name and a number into "%1 %2" is QStringArg.Numbered, in the locale at hand.
 */
module SchemaV4 {
  import opened Common
  import opened QStringArg

  datatype Member = Member(container: string, agentId: string, alias: string, isCoordinator: bool)

  /** A folder or a conversation, with the entries of its member list. */
  datatype Container = Container(id: string, entries: seq<string>)

  // ------------------------------------------------------------------ the alias search

  /** The first number from `n` on whose alias is free. */
  function FirstFree(locale: Locale, used: set<string>, name: string, n: nat): nat
    decreases |used|
  {
    if Numbered(locale, name, n) !in used then n else FirstFree(locale, used - {Numbered(locale, name, n)}, name, n + 1)
  }

  function AliasFor(locale: Locale, used: set<string>, name: string): string {
    if name !in used then name else Numbered(locale, name, FirstFree(locale, used, name, 2))
  }

  lemma {:induction false} FirstFreeIsFirst(locale: Locale, used: set<string>, name: string, n: nat)
    ensures var f := FirstFree(locale, used, name, n);
            f >= n && Numbered(locale, name, f) !in used && forall i | n <= i < f :: Numbered(locale, name, i) in used
    decreases |used|
  {
    hide Numbered;
    if Numbered(locale, name, n) in used {
      NumberedInjective(locale, name);
      FirstFreeIsFirst(locale, used - {Numbered(locale, name, n)}, name, n + 1);
    }
  }

  /** The alias found is free: the name itself, or else the name with the first free number
      from 2 on. */
  lemma AliasIsFree(locale: Locale, used: set<string>, name: string)
    ensures AliasFor(locale, used, name) !in used
    ensures name !in used ==> AliasFor(locale, used, name) == name
    ensures name in used ==>
              exists n | n >= 2 ::
                IsFirstFree(locale, used, name, n) && AliasFor(locale, used, name) == Numbered(locale, name, n)
  {
    hide Numbered;
    if name in used {
      FirstFreeIsFirst(locale, used, name, 2);
      assert IsFirstFree(locale, used, name, FirstFree(locale, used, name, 2));
    }
  }

  ghost predicate IsFirstFree(locale: Locale, used: set<string>, name: string, n: nat) {
    Numbered(locale, name, n) !in used && forall i | 2 <= i < n :: Numbered(locale, name, i) in used
  }

  // ------------------------------------------------------------------ the rows

  function Aliases(rows: seq<Member>): set<string> {
    set i | 0 <= i < |rows| :: rows[i].alias
  }

  predicate Resolvable(names: map<string, string>, entry: string) {
    entry != "" && entry in names
  }

  /** The rows of one member list, in order. */
  function RowsOf(locale: Locale, names: map<string, string>, container: string, entries: seq<string>,
                  elect: bool): seq<Member>
  {
    if entries == [] then [] else
    var before := RowsOf(locale, names, container, entries[..|entries| - 1], elect);
    var entry := entries[|entries| - 1];
    if !Resolvable(names, entry) then before
    else before + [Member(container, entry, AliasFor(locale, Aliases(before), names[entry]), elect && before == [])]
  }

  /** A row is ignored when the table has its primary key. */
  predicate HasKey(table: seq<Member>, container: string, alias: string) {
    exists i | 0 <= i < |table| :: table[i].container == container && table[i].alias == alias
  }

  function InsertOrIgnore(table: seq<Member>, row: Member): seq<Member> {
    if HasKey(table, row.container, row.alias) then table else table + [row]
  }

  function InsertAll(table: seq<Member>, rows: seq<Member>): seq<Member> {
    if rows == [] then table else InsertOrIgnore(InsertAll(table, rows[..|rows| - 1]), rows[|rows| - 1])
  }

  function Migrated(locale: Locale, names: map<string, string>, table: seq<Member>, containers: seq<Container>,
                    elect: bool): seq<Member>
  {
    if containers == [] then table else
    var last := containers[|containers| - 1];
    InsertAll(Migrated(locale, names, table, containers[..|containers| - 1], elect),
              RowsOf(locale, names, last.id, last.entries, elect))
  }

  class MemberTable {
    const locale: Locale
    var rows: seq<Member>

    constructor (locale: Locale, rows: seq<Member>)
      ensures this.locale == locale && this.rows == rows
    {
      this.locale, this.rows := locale, rows;
    }

    /** The search ends: each alias tried and taken is another one of the aliases in use. */
    method FindAlias(usedAliases: set<string>, name: string) returns (alias: string)
      ensures alias == AliasFor(locale, usedAliases, name)
    {
      hide Numbered;
      NumberedInjective(locale, name);
      var candidate := name;
      var suffix := 2;
      ghost var left := usedAliases;
      while candidate in usedAliases
        invariant suffix >= 2 && left <= usedAliases
        invariant suffix == 2 ==> candidate == name && left == usedAliases
        invariant suffix > 2 ==> name in usedAliases && candidate == Numbered(locale, name, suffix - 1)
        invariant suffix > 2 ==> FirstFree(locale, usedAliases, name, 2) == FirstFree(locale, left, name, suffix - 1)
        invariant forall i: nat | i >= suffix - 1 ::
                    Numbered(locale, name, i) in usedAliases ==> Numbered(locale, name, i) in left
        decreases |left|, 4 - suffix
      {
        if suffix > 2 {
          left := left - {candidate};
        }
        candidate := Numbered(locale, name, suffix);
        suffix := suffix + 1;
      }
      alias := candidate;
    }

    method MigrateContainer(names: map<string, string>, c: Container, elect: bool)
      modifies this`rows
      ensures rows == InsertAll(old(rows), RowsOf(locale, names, c.id, c.entries, elect))
    {
      hide *;
      var usedAliases: set<string> := {};
      var firstMember := true;
      ghost var made: seq<Member> := [];
      NothingYet(locale, names, rows, c.id, elect);
      for i := 0 to |c.entries|
        invariant made == RowsOf(locale, names, c.id, c.entries[..i], elect)
        invariant rows == InsertAll(old(rows), made)
        invariant usedAliases == Aliases(made) && (firstMember <==> made == [])
      {
        RowsStep(locale, names, c.id, c.entries, elect, i);
        var agentId := c.entries[i];
        if agentId == "" || agentId !in names {
          continue;
        }
        var alias := FindAlias(usedAliases, names[agentId]);
        usedAliases := usedAliases + {alias};
        var row := Member(c.id, agentId, alias, elect && firstMember);
        AliasesSnoc(made, row);
        InsertAllSnoc(old(rows), made, row);
        rows := InsertOrIgnore(rows, row);
        made := made + [row];
        firstMember := false;
      }
      assert c.entries[..|c.entries|] == c.entries;
    }

    method Migrate(names: map<string, string>, containers: seq<Container>, elect: bool)
      modifies this`rows
      ensures rows == Migrated(locale, names, old(rows), containers, elect)
    {
      hide InsertAll, RowsOf;
      for i := 0 to |containers|
        invariant rows == Migrated(locale, names, old(rows), containers[..i], elect)
      {
        assert containers[..i + 1][..i] == containers[..i];
        MigrateContainer(names, containers[i], elect);
      }
      assert containers[..|containers|] == containers;
    }
  }

  lemma NothingYet(locale: Locale, names: map<string, string>, table: seq<Member>, container: string, elect: bool)
    ensures RowsOf(locale, names, container, [], elect) == []
    ensures Aliases([]) == {} && InsertAll(table, []) == table
  {}

  /** What one more entry adds to the rows. */
  lemma RowsStep(locale: Locale, names: map<string, string>, container: string, entries: seq<string>,
                 elect: bool, i: nat)
    requires i < |entries|
    ensures var before := RowsOf(locale, names, container, entries[..i], elect);
            var entry, alone := entries[i], elect && before == [];
            RowsOf(locale, names, container, entries[..i + 1], elect)
            == if entry == "" || entry !in names then before else
               before + [Member(container, entry, AliasFor(locale, Aliases(before), names[entry]), alone)]
  {
    hide AliasFor, Aliases;
    assert entries[..i + 1][..i] == entries[..i];
  }

  lemma InsertAllSnoc(table: seq<Member>, rows: seq<Member>, row: Member)
    ensures InsertAll(table, rows + [row]) == InsertOrIgnore(InsertAll(table, rows), row)
  {
    hide InsertOrIgnore;
    assert (rows + [row])[..|rows|] == rows;
  }

  lemma AliasesSnoc(rows: seq<Member>, row: Member)
    ensures Aliases(rows + [row]) == Aliases(rows) + {row.alias}
  {
    var more := rows + [row];
    assert more[|rows|] == row;
    assert forall i | 0 <= i < |rows| :: more[i] == rows[i];
    forall alias | alias in Aliases(rows) ensures alias in Aliases(more) {
      var i :| 0 <= i < |rows| && rows[i].alias == alias;
      assert more[i].alias == alias;
    }
  }

  // ------------------------------------------------------------------ what the rows are

  predicate DistinctAliases(rows: seq<Member>) {
    forall i, j | 0 <= i < j < |rows| :: rows[i].alias != rows[j].alias
  }

  function ResolvableOf(names: map<string, string>, entries: seq<string>): seq<string> {
    if entries == [] then [] else
    ResolvableOf(names, entries[..|entries| - 1])
    + if Resolvable(names, entries[|entries| - 1]) then [entries[|entries| - 1]] else []
  }

  /** One row per resolvable entry, in order, under pairwise distinct aliases; the first of
      them, and no other, is coordinator where one is elected. */
  lemma {:induction false} OneRowPerEntry(locale: Locale, names: map<string, string>, container: string,
                                          entries: seq<string>, elect: bool)
    ensures var rows := RowsOf(locale, names, container, entries, elect);
            && DistinctAliases(rows)
            && |rows| == |ResolvableOf(names, entries)|
            && (rows == [] <==> ResolvableOf(names, entries) == [])
            && (forall i | 0 <= i < |rows| ::
                  && rows[i].container == container
                  && rows[i].agentId == ResolvableOf(names, entries)[i]
                  && (rows[i].isCoordinator <==> elect && i == 0))
  {
    if entries != [] {
      hide AliasFor, Aliases, DistinctAliases;
      var init, entry := entries[..|entries| - 1], entries[|entries| - 1];
      OneRowPerEntry(locale, names, container, init, elect);
      var before := RowsOf(locale, names, container, init, elect);
      if Resolvable(names, entry) {
        AliasIsFree(locale, Aliases(before), names[entry]);
        var row := Member(container, entry, AliasFor(locale, Aliases(before), names[entry]), elect && before == []);
        DistinctSnoc(before, row);
      }
    }
  }

  lemma DistinctSnoc(rows: seq<Member>, row: Member)
    requires DistinctAliases(rows) && row.alias !in Aliases(rows)
    ensures DistinctAliases(rows + [row])
  {
    assert forall i | 0 <= i < |rows| :: rows[i].alias in Aliases(rows);
  }

  predicate NoneOf(table: seq<Member>, container: string) {
    forall i | 0 <= i < |table| :: table[i].container != container
  }

  predicate AllOf(rows: seq<Member>, container: string) {
    forall i | 0 <= i < |rows| :: rows[i].container == container
  }

  /** No row with an alias of its own is ignored by a table without rows of its container. */
  lemma {:induction false} NothingIgnored(table: seq<Member>, rows: seq<Member>, container: string)
    requires NoneOf(table, container) && AllOf(rows, container) && DistinctAliases(rows)
    ensures InsertAll(table, rows) == table + rows
  {
    if rows == [] {
      assert table + rows == table;
    } else {
      var init, last := rows[..|rows| - 1], rows[|rows| - 1];
      NothingIgnored(table, init, container);
      NotYetThere(table, rows, container);
      assert table + rows == (table + init) + [last];
    }
  }

  lemma NotYetThere(table: seq<Member>, rows: seq<Member>, container: string)
    requires NoneOf(table, container) && AllOf(rows, container) && DistinctAliases(rows) && rows != []
    ensures !HasKey(table + rows[..|rows| - 1], rows[|rows| - 1].container, rows[|rows| - 1].alias)
  {
    var all, last := table + rows[..|rows| - 1], rows[|rows| - 1];
    forall i | 0 <= i < |all| ensures !(all[i].container == last.container && all[i].alias == last.alias) {
      if i < |table| {
        assert all[i] == table[i];
      } else {
        assert all[i] == rows[i - |table|];
      }
    }
  }

  predicate DistinctIds(containers: seq<Container>) {
    forall i, j | 0 <= i < j < |containers| :: containers[i].id != containers[j].id
  }

  /** The rows of all containers, one list after the other. */
  function AllRows(locale: Locale, names: map<string, string>, containers: seq<Container>, elect: bool): seq<Member> {
    if containers == [] then [] else
    AllRows(locale, names, containers[..|containers| - 1], elect)
    + RowsOf(locale, names, containers[|containers| - 1].id, containers[|containers| - 1].entries, elect)
  }

  lemma {:induction false} RowsElsewhere(locale: Locale, names: map<string, string>, containers: seq<Container>,
                                         elect: bool, id: string)
    requires forall i | 0 <= i < |containers| :: containers[i].id != id
    ensures NoneOf(AllRows(locale, names, containers, elect), id)
  {
    if containers != [] {
      hide RowsOf;
      RowsElsewhere(locale, names, containers[..|containers| - 1], elect, id);
      OneRowPerEntry(locale, names, containers[|containers| - 1].id, containers[|containers| - 1].entries, elect);
    }
  }

  /** From an empty membership table no insert is ignored: the table is the rows of all
      containers. */
  lemma {:induction false} EveryRowIsInserted(locale: Locale, names: map<string, string>,
                                              containers: seq<Container>, elect: bool)
    requires DistinctIds(containers)
    ensures Migrated(locale, names, [], containers, elect) == AllRows(locale, names, containers, elect)
  {
    if containers != [] {
      hide RowsOf, InsertAll, NoneOf;
      var init, last := containers[..|containers| - 1], containers[|containers| - 1];
      EveryRowIsInserted(locale, names, init, elect);
      RowsElsewhere(locale, names, init, elect, last.id);
      OneRowPerEntry(locale, names, last.id, last.entries, elect);
      NothingIgnored(AllRows(locale, names, init, elect), RowsOf(locale, names, last.id, last.entries, elect), last.id);
    }
  }

  function Coordinators(rows: seq<Member>, container: string): nat {
    if rows == [] then 0 else
    Coordinators(rows[..|rows| - 1], container)
    + if rows[|rows| - 1].container == container && rows[|rows| - 1].isCoordinator then 1 else 0
  }

  lemma {:induction false} CoordinatorsAppend(a: seq<Member>, b: seq<Member>, container: string)
    ensures Coordinators(a + b, container) == Coordinators(a, container) + Coordinators(b, container)
  {
    if b == [] {
      assert a + b == a;
    } else {
      CoordinatorsAppend(a, b[..|b| - 1], container);
      assert (a + b)[..|a + b| - 1] == a + b[..|b| - 1];
    }
  }

  lemma {:induction false} OnlyTheFirst(rows: seq<Member>, container: string)
    requires AllOf(rows, container) && forall i | 0 <= i < |rows| :: rows[i].isCoordinator <==> i == 0
    ensures Coordinators(rows, container) == if rows == [] then 0 else 1
  {
    if rows != [] {
      OnlyTheFirst(rows[..|rows| - 1], container);
    }
  }

  lemma {:induction false} NoCoordinatorElsewhere(rows: seq<Member>, container: string)
    requires NoneOf(rows, container)
    ensures Coordinators(rows, container) == 0
  {
    if rows != [] {
      NoCoordinatorElsewhere(rows[..|rows| - 1], container);
    }
  }

  /** Every migrated group with a resolvable member has exactly one coordinator, and a group
      with none has no coordinator. */
  lemma {:induction false} OneCoordinatorPerGroup(locale: Locale, names: map<string, string>,
                                                  containers: seq<Container>, k: nat)
    requires DistinctIds(containers) && k < |containers|
    ensures Coordinators(Migrated(locale, names, [], containers, true), containers[k].id)
            == if ResolvableOf(names, containers[k].entries) == [] then 0 else 1
  {
    hide RowsOf, NoneOf, Coordinators, ResolvableOf;
    var init, last := containers[..|containers| - 1], containers[|containers| - 1];
    EveryRowIsInserted(locale, names, containers, true);
    EveryRowIsInserted(locale, names, init, true);
    var rows := RowsOf(locale, names, last.id, last.entries, true);
    OneRowPerEntry(locale, names, last.id, last.entries, true);
    CoordinatorsAppend(AllRows(locale, names, init, true), rows, containers[k].id);
    if k < |init| {
      OneCoordinatorPerGroup(locale, names, init, k);
      ElsewhereRows(rows, last.id, containers[k].id);
      NoCoordinatorElsewhere(rows, containers[k].id);
    } else {
      RowsElsewhere(locale, names, init, true, last.id);
      NoCoordinatorElsewhere(AllRows(locale, names, init, true), last.id);
      OnlyTheFirst(rows, last.id);
    }
  }

  lemma ElsewhereRows(rows: seq<Member>, container: string, other: string)
    requires AllOf(rows, container) && other != container
    ensures NoneOf(rows, other)
  {}

  // ------------------------------------------------------------------ each row, field by field

  /** An earlier row of the list has this alias. */
  ghost predicate Taken(rows: seq<Member>, i: nat, alias: string)
    requires i <= |rows|
  {
    exists j | 0 <= j < i :: rows[j].alias == alias
  }

  /** The alias of a row: the agent's name, or else the name with the first number from 2 on
      that gives an alias no earlier row has. */
  ghost predicate IsGiven(locale: Locale, name: string, rows: seq<Member>, i: nat)
    requires i < |rows|
  {
    if !Taken(rows, i, name) then rows[i].alias == name
    else exists n: nat ::
      n >= 2 && rows[i].alias == Numbered(locale, name, n) && IsFirstUntaken(locale, name, rows, i, n)
  }

  ghost predicate IsFirstUntaken(locale: Locale, name: string, rows: seq<Member>, i: nat, n: nat)
    requires i <= |rows|
  {
    && !Taken(rows, i, Numbered(locale, name, n))
    && forall m: nat | 2 <= m < n :: Taken(rows, i, Numbered(locale, name, m))
  }

  function Resolving(names: map<string, string>, entries: seq<string>): seq<bool> {
    seq(|entries|, i requires 0 <= i < |entries| => entries[i] != "" && entries[i] in names)
  }

  ghost predicate IsRow(locale: Locale, names: map<string, string>, container: string, entry: string, elect: bool,
                        rows: seq<Member>, i: nat)
    requires i < |rows|
  {
    && rows[i].container == container && rows[i].agentId == entry
    && (rows[i].isCoordinator <==> elect && i == 0)
    && entry in names && IsGiven(locale, names[entry], rows, i)
  }

  /** Rows that are one for one the entries at the places `at`. */
  ghost predicate AreRows(locale: Locale, names: map<string, string>, container: string, entries: seq<string>,
                          elect: bool, at: seq<nat>, rows: seq<Member>)
  {
    && |rows| == |at|
    && forall i | 0 <= i < |at| ::
         at[i] < |entries| && IsRow(locale, names, container, entries[at[i]], elect, rows, i)
  }

  lemma TakenStays(rows: seq<Member>, more: Member, i: nat, alias: string)
    requires i <= |rows|
    ensures Taken(rows + [more], i, alias) <==> Taken(rows, i, alias)
  {
    assert forall j | 0 <= j < i :: (rows + [more])[j] == rows[j];
  }

  lemma TakenIsUsed(rows: seq<Member>, alias: string)
    ensures Taken(rows, |rows|, alias) <==> alias in Aliases(rows)
  {}

  lemma GivenStays(locale: Locale, name: string, rows: seq<Member>, more: Member, i: nat)
    requires i < |rows| && IsGiven(locale, name, rows, i)
    ensures IsGiven(locale, name, rows + [more], i)
  {
    hide Numbered;
    TakenStays(rows, more, i, name);
    assert (rows + [more])[i] == rows[i];
    if Taken(rows, i, name) {
      var n: nat :| n >= 2 && rows[i].alias == Numbered(locale, name, n) && IsFirstUntaken(locale, name, rows, i, n);
      forall m: nat ensures Taken(rows + [more], i, Numbered(locale, name, m)) <==>
                            Taken(rows, i, Numbered(locale, name, m))
      {
        TakenStays(rows, more, i, Numbered(locale, name, m));
      }
      hide Taken;
      assert IsFirstUntaken(locale, name, rows + [more], i, n);
    }
  }

  lemma LastIsGiven(locale: Locale, name: string, rows: seq<Member>, row: Member)
    requires row.alias == AliasFor(locale, Aliases(rows), name)
    ensures IsGiven(locale, name, rows + [row], |rows|)
  {
    hide Numbered, AliasFor;
    var all := rows + [row];
    AliasIsFree(locale, Aliases(rows), name);
    TakenStays(rows, row, |rows|, name);
    TakenIsUsed(rows, name);
    assert all[|rows|] == row;
    if name in Aliases(rows) {
      var n: nat :| n >= 2 && IsFirstFree(locale, Aliases(rows), name, n) && row.alias == Numbered(locale, name, n);
      forall m: nat ensures Taken(all, |rows|, Numbered(locale, name, m)) <==>
                            Numbered(locale, name, m) in Aliases(rows)
      {
        TakenStays(rows, row, |rows|, Numbered(locale, name, m));
        TakenIsUsed(rows, Numbered(locale, name, m));
      }
      hide Taken, Aliases;
      assert IsFirstUntaken(locale, name, all, |rows|, n);
    }
  }

  lemma RowsSnoc(locale: Locale, names: map<string, string>, container: string, entries: seq<string>, elect: bool,
                 at: seq<nat>, rows: seq<Member>, entry: string, row: Member)
    requires AreRows(locale, names, container, entries, elect, at, rows)
    requires entry in names && row.alias == AliasFor(locale, Aliases(rows), names[entry])
    requires row.container == container && row.agentId == entry && (row.isCoordinator <==> elect && rows == [])
    ensures AreRows(locale, names, container, entries + [entry], elect, at + [|entries|], rows + [row])
  {
    hide AliasFor, Aliases, IsGiven;
    var next, all, list := at + [|entries|], rows + [row], entries + [entry];
    LastIsGiven(locale, names[entry], rows, row);
    forall i | 0 <= i < |next|
      ensures next[i] < |list| && IsRow(locale, names, container, list[next[i]], elect, all, i)
    {
      if i < |at| {
        assert next[i] == at[i] && list[at[i]] == entries[at[i]] && all[i] == rows[i];
        GivenStays(locale, names[entries[at[i]]], rows, row, i);
      } else {
        assert next[i] == |entries| && list[|entries|] == entry && all[i] == row;
      }
    }
  }

  lemma RowsStay(locale: Locale, names: map<string, string>, container: string, entries: seq<string>, elect: bool,
                 at: seq<nat>, rows: seq<Member>, entry: string)
    requires AreRows(locale, names, container, entries, elect, at, rows)
    ensures AreRows(locale, names, container, entries + [entry], elect, at, rows)
  {
    hide IsRow;
    assert forall i | 0 <= i < |at| :: (entries + [entry])[at[i]] == entries[at[i]];
  }

  /** The rows of a member list are one for one its entries that resolve to an agent, each with
      its own agent and the alias that agent's name gives it. */
  lemma {:induction false} RowsAreGiven(locale: Locale, names: map<string, string>, container: string,
                                        entries: seq<string>, elect: bool)
    ensures AreRows(locale, names, container, entries, elect, Places(Resolving(names, entries)),
                    RowsOf(locale, names, container, entries, elect))
  {
    if entries == [] {
      hide IsRow;
      assert Resolving(names, entries) == [];
    } else {
      var init, entry := entries[..|entries| - 1], entries[|entries| - 1];
      RowsAreGiven(locale, names, container, init, elect);
      var rows := RowsOf(locale, names, container, init, elect);
      assert entries == init + [entry];
      assert Resolving(names, entries) == Resolving(names, init) + [Resolvable(names, entry)];
      hide AreRows, AliasFor, Aliases, Places, Resolving;
      PlacesSnoc(Resolving(names, init), Resolvable(names, entry));
      assert |Resolving(names, init)| == |init|;
      if Resolvable(names, entry) {
        var row := Member(container, entry, AliasFor(locale, Aliases(rows), names[entry]), elect && rows == []);
        RowsSnoc(locale, names, container, init, elect, Places(Resolving(names, init)), rows, entry, row);
      } else {
        RowsStay(locale, names, container, init, elect, Places(Resolving(names, init)), rows, entry);
      }
    }
  }

  function RowsByContainer(locale: Locale, names: map<string, string>, containers: seq<Container>, elect: bool):
    seq<seq<Member>>
  {
    seq(|containers|, i requires 0 <= i < |containers| =>
      RowsOf(locale, names, containers[i].id, containers[i].entries, elect))
  }

  lemma {:induction false} AllRowsAre(locale: Locale, names: map<string, string>, containers: seq<Container>,
                                      elect: bool)
    ensures AllRows(locale, names, containers, elect) == Flatten(RowsByContainer(locale, names, containers, elect))
  {
    if containers != [] {
      hide RowsOf, Flatten;
      var init, last := containers[..|containers| - 1], containers[|containers| - 1];
      AllRowsAre(locale, names, init, elect);
      var rows := RowsOf(locale, names, last.id, last.entries, elect);
      assert RowsByContainer(locale, names, containers, elect) == RowsByContainer(locale, names, init, elect) + [rows];
      FlattenAppend(RowsByContainer(locale, names, init, elect), [rows]);
      FlattenOne(rows);
    } else {
      assert RowsByContainer(locale, names, containers, elect) == [];
    }
  }

  /** From an empty membership table the migrated table is the rows of all containers, one list
      after the other, none left out. */
  lemma MigratedAre(locale: Locale, names: map<string, string>, containers: seq<Container>, elect: bool)
    requires DistinctIds(containers)
    ensures Migrated(locale, names, [], containers, elect)
            == Flatten(RowsByContainer(locale, names, containers, elect))
  {
    hide *;
    EveryRowIsInserted(locale, names, containers, elect);
    AllRowsAre(locale, names, containers, elect);
  }
}
