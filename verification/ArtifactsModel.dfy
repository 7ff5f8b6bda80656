/**
  The artifacts list (backend/models/artifacts-model.cpp): rows from a conversation's messages
  and from a capped walk of the shared workspace, each file once.

  The file system is a fixed snapshot: `files` lists a directory's readable entries. Making a
  path canonical is an oracle, `resolve`, of the workspace directory and the path. The "path"
  of a tool result's JSON is an oracle, `resultPath`, empty when there is none.
 */
module ArtifactsModel {
  import opened Common

  datatype FileInfo = FileInfo(name: string, path: string, isDir: bool)

  datatype Message = Message(id: string, role: string, content: string, finishReason: string,
                             memberAlias: string, metadata: map<string, string>)

  datatype Row = Row(sourceMsgId: string, path: string, fileName: string, toolName: string, planId: string,
                     stepId: string, stepTitle: string, planGoal: string, submittedBy: string)

  const MAX_FILES := 2000
  const MAX_DIRS := 4000

  /** Dependency, build and version-control directories that are not walked. */
  const SKIP_DIRS: set<string> := {
    "node_modules", ".git", ".svn", ".hg", ".venv", "venv", "env", "__pycache__", ".mypy_cache", ".pytest_cache",
    "dist", "build", ".next", ".nuxt", "target", ".cache", "vendor", ".gradle", ".idea", ".vscode", "coverage",
    ".tox", ".verzeta" }

  type Files = string -> seq<FileInfo>

  type KeyFn = string -> string

  /** Two paths with the same key are the same file; no path has no key. */
  function PathKey(resolve: (string, string) -> string, workspaceDir: string): KeyFn {
    path => if path == "" then "" else resolve(workspaceDir, path)
  }

  // ------------------------------------------------------------------ rows of messages

  function Field(m: Message, name: string): string {
    if name in m.metadata then m.metadata[name] else ""
  }

  /** QFileInfo::fileName. */
  function FileName(path: string): string {
    if path == "" || path[|path| - 1] == '/' then "" else FileName(path[..|path| - 1]) + [path[|path| - 1]]
  }

  function FileRow(sourceMsgId: string, path: string, fileName: string, toolName: string): Row {
    Row(sourceMsgId, path, fileName, toolName, "", "", "", "", "")
  }

  /** The rows a message produces: a tool result that names a path, an image filed into the
      workspace, or a submitted plan result, which has no path. */
  function ExtractFromMessage(resultPath: string -> string, m: Message): (rows: seq<Row>)
    ensures |rows| <= 1 && forall i | 0 <= i < |rows| :: rows[i].sourceMsgId == m.id
  {
    if m.role == "tool" && m.content != "" then
      var path := resultPath(m.content);
      if path != "" then [FileRow(m.id, path, FileName(path), Field(m, "tool_name"))] else []
    else if m.role == "assistant" && Field(m, "produced_by") == "image_service" then
      var path := Field(m, "workspace_path");
      if path != "" then [FileRow(m.id, path, FileName(path), "generate_image")] else []
    else if m.role == "assistant" && m.finishReason == "artifact" then
      [Row(m.id, "", Field(m, "summary"), "submit_result", Field(m, "plan_id"), Field(m, "step_id"),
           Field(m, "step_title"), Field(m, "plan_goal"), m.memberAlias)]
    else []
  }

  function ExtractAll(resultPath: string -> string, all: seq<Message>): seq<Row> {
    if all == [] then [] else
    ExtractAll(resultPath, all[..|all| - 1]) + ExtractFromMessage(resultPath, all[|all| - 1])
  }

  predicate Listed(k: KeyFn, rows: seq<Row>, key: string) {
    exists i | 0 <= i < |rows| :: k(rows[i].path) == key
  }

  /** A row goes in when it has no key or its key is not listed. */
  function Add(k: KeyFn, rows: seq<Row>, r: Row): seq<Row> {
    if k(r.path) != "" && Listed(k, rows, k(r.path)) then rows else rows + [r]
  }

  function AddAll(k: KeyFn, rows: seq<Row>, more: seq<Row>): seq<Row> {
    if more == [] then rows else Add(k, AddAll(k, rows, more[..|more| - 1]), more[|more| - 1])
  }

  // ------------------------------------------------------------------ the walk of the workspace

  predicate Hidden(e: FileInfo) {
    e.name != "" && e.name[0] == '.'
  }

  /** A directory the walk goes into, and a file it lists. */
  predicate Walkable(e: FileInfo) {
    e.isDir && !Hidden(e) && e.name !in SKIP_DIRS
  }

  predicate Visible(e: FileInfo) {
    !e.isDir && !Hidden(e)
  }

  datatype Scan = Scan(seen: set<string>, rows: seq<Row>, added: nat, queue: seq<string>, visited: nat, capped: bool)

  function ScanEntry(k: KeyFn, st: Scan, e: FileInfo): Scan {
    if e.isDir then (if Walkable(e) then st.(queue := st.queue + [e.path]) else st)
    else if Hidden(e) then st
    else if st.added >= MAX_FILES then st.(capped := true)
    else if k(e.path) in st.seen then st
    else st.(seen := st.seen + {k(e.path)}, rows := st.rows + [FileRow("", e.path, e.name, "")], added := st.added + 1)
  }

  /** The entries of one directory, up to the one that meets the cap. */
  function ScanDir(k: KeyFn, st: Scan, entries: seq<FileInfo>): Scan {
    if entries == [] then st else
    var before := ScanDir(k, st, entries[..|entries| - 1]);
    if before.capped then before else ScanEntry(k, before, entries[|entries| - 1])
  }

  predicate Done(st: Scan) {
    st.queue == [] || st.added >= MAX_FILES || st.visited >= MAX_DIRS
  }

  function NextDir(files: Files, k: KeyFn, st: Scan): Scan
    requires !Done(st)
  {
    ScanDir(k, st.(queue := st.queue[1..], visited := st.visited + 1), files(st.queue[0]))
  }

  function Walk(files: Files, k: KeyFn, st: Scan): Scan
    decreases MAX_DIRS - st.visited
  {
    if Done(st) then st else
    ScanKeeps(k, st.(queue := st.queue[1..], visited := st.visited + 1), files(st.queue[0]));
    Walk(files, k, NextDir(files, k, st))
  }

  /** The non-empty keys of the rows. */
  ghost function KeysOf(k: KeyFn, rows: seq<Row>): set<string> {
    set i | 0 <= i < |rows| && k(rows[i].path) != "" :: k(rows[i].path)
  }

  ghost function StartOf(k: KeyFn, root: string, rows: seq<Row>): Scan {
    Scan(KeysOf(k, rows), rows, 0, [root], 0, false)
  }

  /** All rows: those of the messages, then the workspace's other files. */
  ghost function Reloaded(files: Files, k: KeyFn, resultPath: string -> string, workspaceDir: string,
                          all: seq<Message>): seq<Row>
  {
    var rows := AddAll(k, [], ExtractAll(resultPath, all));
    if workspaceDir == "" then rows else Walk(files, k, StartOf(k, workspaceDir, rows)).rows
  }

  /** The rows left when a message's are removed. */
  function Without(rows: seq<Row>, msgId: string): seq<Row> {
    if rows == [] then [] else
    (if rows[0].sourceMsgId != msgId then [rows[0]] else []) + Without(rows[1..], msgId)
  }

  class ArtifactsModel {
    const files: Files
    const resolve: (string, string) -> string
    const resultPath: string -> string
    var activeConvId: string
    var workspaceDir: string
    var rows: seq<Row>

    constructor (files: Files, resolve: (string, string) -> string, resultPath: string -> string)
      ensures this.files == files && this.resolve == resolve && this.resultPath == resultPath
      ensures activeConvId == "" && workspaceDir == "" && rows == []
    {
      this.files, this.resolve, this.resultPath := files, resolve, resultPath;
      activeConvId, workspaceDir, rows := "", "", [];
    }

    function Key(): KeyFn
      reads this`workspaceDir
    {
      PathKey(resolve, workspaceDir)
    }

    /** The rows of the messages, each file once; `seen` holds the keys listed. */
    method ListMessages(all: seq<Message>) returns (seen: set<string>)
      modifies this`rows
      ensures rows == AddAll(Key(), [], ExtractAll(resultPath, all)) && seen == KeysOf(Key(), rows)
    {
      hide ExtractFromMessage, AddAll, KeysOf;
      rows, seen := [], {};
      var k := Key();
      NothingListed(k);
      for i := 0 to |all|
        invariant rows == AddAll(k, [], ExtractAll(resultPath, all[..i])) && seen == KeysOf(k, rows)
      {
        assert all[..i + 1][..i] == all[..i];
        AddAllAppend(k, [], ExtractAll(resultPath, all[..i]), ExtractFromMessage(resultPath, all[i]));
        seen := ListRows(ExtractFromMessage(resultPath, all[i]), seen);
      }
      assert all[..|all|] == all;
    }

    method ListRows(more: seq<Row>, seen0: set<string>) returns (seen: set<string>)
      requires seen0 == KeysOf(Key(), rows)
      modifies this`rows
      ensures rows == AddAll(Key(), old(rows), more) && seen == KeysOf(Key(), rows)
    {
      hide KeysOf;
      var k := Key();
      seen := seen0;
      for i := 0 to |more|
        invariant rows == AddAll(k, old(rows), more[..i]) && seen == KeysOf(k, rows)
      {
        assert more[..i + 1][..i] == more[..i];
        var key := k(more[i].path);
        SeenIsListed(k, rows, key);
        KeysSnoc(k, rows, more[i]);
        if key != "" {
          if key in seen {
            continue;
          }
          seen := seen + {key};
        }
        rows := rows + [more[i]];
      }
      assert more[..|more|] == more;
    }

    /** The workspace's files behind the rows already listed, within the two caps. */
    method ListWorkspace(seen0: set<string>)
      requires seen0 == KeysOf(Key(), rows)
      modifies this`rows
      ensures rows == Walk(files, Key(), StartOf(Key(), workspaceDir, old(rows))).rows
    {
      hide ScanDir, ScanEntry, Walk;
      var k := Key();
      var st := Scan(seen0, rows, 0, [workspaceDir], 0, false);
      ghost var start := st;
      while st.queue != [] && st.added < MAX_FILES && st.visited < MAX_DIRS
        invariant Walk(files, k, st) == Walk(files, k, start) && (st.capped ==> st.added >= MAX_FILES)
        decreases MAX_DIRS - st.visited
      {
        WalkStep(files, k, st);
        var dir := st.queue[0];
        var open := st.(queue := st.queue[1..], visited := st.visited + 1);
        ScanKeeps(k, open, files(dir));
        st := ScanDirectory(k, open, files(dir));
      }
      WalkDone(files, k, st);
      rows := st.rows;
    }

    /** One level of a directory, entry by entry. */
    method ScanDirectory(k: KeyFn, open: Scan, entries: seq<FileInfo>) returns (st: Scan)
      requires !open.capped
      ensures st == ScanDir(k, open, entries)
    {
      hide Walkable, Hidden;
      st := open;
      for i := 0 to |entries|
        invariant st == ScanDir(k, open, entries[..i]) && !st.capped
      {
        assert entries[..i + 1][..i] == entries[..i];
        var e := entries[i];
        if e.isDir {
          if !Walkable(e) {
            continue;
          }
          st := st.(queue := st.queue + [e.path]);
          continue;
        }
        if Hidden(e) {
          continue;
        }
        if st.added >= MAX_FILES {
          st := st.(capped := true);
          ScanStops(k, open, entries, i + 1);
          return;
        }
        var key := k(e.path);
        if key in st.seen {
          continue;
        }
        st := st.(seen := st.seen + {key}, rows := st.rows + [FileRow("", e.path, e.name, "")], added := st.added + 1);
      }
      assert entries[..|entries|] == entries;
    }

    /** `all` is what the message service holds for the active conversation. */
    method Reload(all: seq<Message>)
      modifies this`rows
      ensures rows == Reloaded(files, Key(), resultPath, workspaceDir, if activeConvId == "" then [] else all)
    {
      var seen := {};
      rows := [];
      if activeConvId != "" {
        seen := ListMessages(all);
      }
      if workspaceDir != "" {
        ListWorkspace(seen);
      }
    }

    /** Rows of a message saved while its conversation is open. `all` is what the service
        holds for the conversation. */
    method OnMessageAdded(convId: string, msgId: string, all: seq<Message>)
      modifies this`rows
      ensures convId != activeConvId || (forall i | 0 <= i < |all| :: all[i].id != msgId) ==> rows == old(rows)
      ensures convId == activeConvId ==>
                forall i | 0 <= i < |all| && all[i].id == msgId && (forall j | 0 <= j < i :: all[j].id != msgId) ::
                  rows == AddAll(Key(), old(rows), ExtractFromMessage(resultPath, all[i]))
    {
      if convId != activeConvId {
        return;
      }
      for i := 0 to |all|
        invariant rows == old(rows) && forall j | 0 <= j < i :: all[j].id != msgId
      {
        if all[i].id != msgId {
          continue;
        }
        AppendProduced(ExtractFromMessage(resultPath, all[i]));
        return;
      }
    }

    method AppendProduced(produced: seq<Row>)
      modifies this`rows
      ensures rows == AddAll(Key(), old(rows), produced)
    {
      var k := Key();
      var existing := {};
      for i := 0 to |rows|
        invariant rows == old(rows) && existing == KeysOf(k, rows[..i])
      {
        KeysSnoc(k, rows[..i], rows[i]);
        assert rows[..i + 1] == rows[..i] + [rows[i]];
        if k(rows[i].path) != "" {
          existing := existing + {k(rows[i].path)};
        }
      }
      assert rows[..|rows|] == rows;
      var news: seq<Row> := [];
      assert rows + [] == rows;
      for i := 0 to |produced|
        invariant rows == old(rows) && existing == KeysOf(k, rows + news)
        invariant rows + news == AddAll(k, rows, produced[..i])
      {
        assert produced[..i + 1][..i] == produced[..i];
        var r := produced[i];
        SeenIsListed(k, rows + news, k(r.path));
        KeysSnoc(k, rows + news, r);
        assert rows + (news + [r]) == (rows + news) + [r];
        if k(r.path) != "" {
          if k(r.path) in existing {
            continue;
          }
          existing := existing + {k(r.path)};
        }
        news := news + [r];
      }
      assert produced[..|produced|] == produced;
      rows := rows + news;
    }

    method OnMessageDeleted(convId: string, msgId: string)
      modifies this`rows
      ensures rows == if convId == activeConvId then Without(old(rows), msgId) else old(rows)
    {
      if convId != activeConvId {
        return;
      }
      var i := |rows|;
      ghost var was, kept: seq<Row> := rows, [];
      while i > 0
        invariant 0 <= i <= |was| && rows == was[..i] + kept && kept == Without(was[i..], msgId)
      {
        i := i - 1;
        WithoutStep(was, i, kept, msgId);
        if rows[i].sourceMsgId == msgId {
          rows := rows[..i] + rows[i + 1..];
        } else {
          kept := [was[i]] + kept;
        }
      }
      assert was[0..] == was;
    }
  }

  lemma WithoutStep(was: seq<Row>, i: nat, kept: seq<Row>, msgId: string)
    requires i < |was| && kept == Without(was[i + 1..], msgId)
    ensures var rows := was[..i + 1] + kept;
            && rows[i] == was[i] && rows[..i] + rows[i + 1..] == was[..i] + kept
            && rows == was[..i] + ([was[i]] + kept)
    ensures Without(was[i..], msgId) == (if was[i].sourceMsgId != msgId then [was[i]] else []) + kept
  {
    assert was[i..][1..] == was[i + 1..];
  }

  lemma SeenIsListed(k: KeyFn, rows: seq<Row>, key: string)
    ensures key != "" ==> (key in KeysOf(k, rows) <==> Listed(k, rows, key))
  {}

  lemma KeysSnoc(k: KeyFn, rows: seq<Row>, r: Row)
    ensures KeysOf(k, rows + [r]) == KeysOf(k, rows) + if k(r.path) != "" then {k(r.path)} else {}
  {
    var more := rows + [r];
    forall key | key in KeysOf(k, rows) ensures key in KeysOf(k, more) {
      var i :| 0 <= i < |rows| && k(rows[i].path) == key;
      assert more[i] == rows[i];
    }
    assert more[|rows|] == r;
  }

  lemma WalkStep(files: Files, k: KeyFn, st: Scan)
    requires !Done(st)
    ensures Walk(files, k, st) == Walk(files, k, NextDir(files, k, st))
  {}

  lemma WalkDone(files: Files, k: KeyFn, st: Scan)
    requires Done(st)
    ensures Walk(files, k, st) == st
  {}

  lemma {:induction false} ScanStops(k: KeyFn, open: Scan, entries: seq<FileInfo>, n: nat)
    requires n <= |entries| && ScanDir(k, open, entries[..n]).capped
    ensures ScanDir(k, open, entries) == ScanDir(k, open, entries[..n])
    decreases |entries|
  {
    if n == |entries| {
      assert entries[..n] == entries;
    } else {
      assert entries[..|entries| - 1][..n] == entries[..n];
      ScanStops(k, open, entries[..|entries| - 1], n);
    }
  }

  // ------------------------------------------------------------------ the caps

  /** A directory adds rows and queue entries at the end; the row count follows `added`. */
  lemma {:induction false} ScanKeeps(k: KeyFn, st: Scan, entries: seq<FileInfo>)
    ensures var end := ScanDir(k, st, entries);
            && end.visited == st.visited
            && st.rows <= end.rows && st.queue <= end.queue && st.seen <= end.seen
            && st.added <= end.added && |end.rows| - end.added == |st.rows| - st.added
            && (st.added <= MAX_FILES ==> end.added <= MAX_FILES)
            && (end.capped && !st.capped ==> end.added >= MAX_FILES)
  {
    if entries != [] {
      ScanKeeps(k, st, entries[..|entries| - 1]);
    }
  }

  lemma {:induction false} WalkKeeps(files: Files, k: KeyFn, st: Scan)
    requires st.added <= MAX_FILES && st.visited <= MAX_DIRS
    ensures var end := Walk(files, k, st);
            && st.rows <= end.rows && |end.rows| - end.added == |st.rows| - st.added
            && end.added <= MAX_FILES && end.visited <= MAX_DIRS
    decreases MAX_DIRS - st.visited
  {
    if !Done(st) {
      hide ScanDir;
      ScanKeeps(k, st.(queue := st.queue[1..], visited := st.visited + 1), files(st.queue[0]));
      WalkKeeps(files, k, NextDir(files, k, st));
    }
  }

  // ------------------------------------------------------------------ each file once

  predicate DistinctKeys(k: KeyFn, rows: seq<Row>) {
    forall i, j | 0 <= i < j < |rows| :: k(rows[i].path) == k(rows[j].path) ==> k(rows[i].path) == ""
  }

  lemma NothingListed(k: KeyFn)
    ensures KeysOf(k, []) == {} && AddAll(k, [], []) == []
  {}

  lemma {:induction false} AddAllAppend(k: KeyFn, rows: seq<Row>, a: seq<Row>, b: seq<Row>)
    ensures AddAll(k, AddAll(k, rows, a), b) == AddAll(k, rows, a + b)
  {
    hide Add;
    if b == [] {
      assert a + b == a;
    } else {
      AddAllAppend(k, rows, a, b[..|b| - 1]);
      assert (a + b)[..|a + b| - 1] == a + b[..|b| - 1];
    }
  }

  /** Additions, at a reload or live, never list a file twice. */
  lemma {:induction false} AddAllKeepsDistinct(k: KeyFn, rows: seq<Row>, more: seq<Row>)
    requires DistinctKeys(k, rows)
    ensures DistinctKeys(k, AddAll(k, rows, more))
  {
    if more != [] {
      AddAllKeepsDistinct(k, rows, more[..|more| - 1]);
    }
  }

  /** A row comes first when it has no key or no row before it has the same key. */
  predicate ComesFirst(k: KeyFn, rows: seq<Row>, i: nat)
    requires i < |rows|
  {
    k(rows[i].path) == "" || forall j | 0 <= j < i :: k(rows[j].path) != k(rows[i].path)
  }

  function Firsts(k: KeyFn, rows: seq<Row>): seq<Row> {
    if rows == [] then [] else
    Firsts(k, rows[..|rows| - 1]) + if ComesFirst(k, rows, |rows| - 1) then [rows[|rows| - 1]] else []
  }

  lemma {:induction false} AddAllListed(k: KeyFn, rows: seq<Row>, more: seq<Row>, key: string)
    requires key != ""
    ensures Listed(k, AddAll(k, rows, more), key) <==> Listed(k, rows, key) || Listed(k, more, key)
  {
    if more != [] {
      var init, last := more[..|more| - 1], more[|more| - 1];
      AddAllListed(k, rows, init, key);
      hide AddAll;
      ListedSnoc(k, init, last, key);
      ListedSnoc(k, AddAll(k, rows, init), last, key);
      assert init + [last] == more;
      AddAllLast(k, rows, more);
    }
  }

  lemma AddAllLast(k: KeyFn, rows: seq<Row>, more: seq<Row>)
    requires more != []
    ensures AddAll(k, rows, more) == Add(k, AddAll(k, rows, more[..|more| - 1]), more[|more| - 1])
  {}

  lemma ListedSnoc(k: KeyFn, rows: seq<Row>, r: Row, key: string)
    ensures Listed(k, rows + [r], key) <==> Listed(k, rows, key) || k(r.path) == key
  {
    if Listed(k, rows, key) {
      var i :| 0 <= i < |rows| && k(rows[i].path) == key;
      assert (rows + [r])[i] == rows[i];
    }
    assert (rows + [r])[|rows|] == r;
  }

  /** The messages' rows are the rows that come first, in order: an earlier message wins. */
  lemma {:induction false} MessagesKeepFirsts(k: KeyFn, rows: seq<Row>)
    ensures AddAll(k, [], rows) == Firsts(k, rows)
  {
    if rows != [] {
      var init, last := rows[..|rows| - 1], rows[|rows| - 1];
      hide ComesFirst, Listed, AddAll;
      MessagesKeepFirsts(k, init);
      AddAllLast(k, [], rows);
      FirstIffUnlisted(k, rows);
      if k(last.path) != "" {
        AddAllListed(k, [], init, k(last.path));
        NothingUnder(k, k(last.path));
      }
      assert Firsts(k, init) + [] == Firsts(k, init);
    } else {
      NothingListed(k);
    }
  }

  lemma NothingUnder(k: KeyFn, key: string)
    ensures !Listed(k, [], key)
  {}

  lemma FirstIffUnlisted(k: KeyFn, rows: seq<Row>)
    requires rows != []
    ensures var key := k(rows[|rows| - 1].path);
            ComesFirst(k, rows, |rows| - 1) <==> key == "" || !Listed(k, rows[..|rows| - 1], key)
  {
    var init := rows[..|rows| - 1];
    assert forall j | 0 <= j < |init| :: init[j] == rows[j];
  }

  /** What the walk knows of the rows: `seen` holds their keys, and no file is there twice. */
  predicate Tracks(k: KeyFn, st: Scan) {
    && DistinctKeys(k, st.rows)
    && (forall i | 0 <= i < |st.rows| && k(st.rows[i].path) != "" :: k(st.rows[i].path) in st.seen)
    && (forall key | key in st.seen :: Listed(k, st.rows, key))
  }

  lemma ScanEntryTracks(k: KeyFn, st: Scan, e: FileInfo)
    requires Tracks(k, st)
    ensures Tracks(k, ScanEntry(k, st, e))
  {
    hide Walkable, Hidden;
    var next := ScanEntry(k, st, e);
    if next.rows != st.rows {
      var r := FileRow("", e.path, e.name, "");
      assert next.rows == st.rows + [r] && k(r.path) !in st.seen;
      forall key | key in next.seen ensures Listed(k, next.rows, key) {
        ListedSnoc(k, st.rows, r, key);
      }
      hide Listed;
    }
  }

  lemma {:induction false} ScanTracks(k: KeyFn, st: Scan, entries: seq<FileInfo>)
    requires Tracks(k, st)
    ensures Tracks(k, ScanDir(k, st, entries))
  {
    if entries != [] {
      hide Tracks, ScanEntry;
      ScanTracks(k, st, entries[..|entries| - 1]);
      ScanEntryTracks(k, ScanDir(k, st, entries[..|entries| - 1]), entries[|entries| - 1]);
      if ScanDir(k, st, entries[..|entries| - 1]).capped {
      }
    }
  }

  lemma {:induction false} WalkTracks(files: Files, k: KeyFn, st: Scan)
    requires Tracks(k, st)
    ensures Tracks(k, Walk(files, k, st))
    decreases MAX_DIRS - st.visited
  {
    if !Done(st) {
      hide ScanDir;
      var open := st.(queue := st.queue[1..], visited := st.visited + 1);
      assert Tracks(k, open);
      hide Tracks;
      ScanKeeps(k, open, files(st.queue[0]));
      ScanTracks(k, open, files(st.queue[0]));
      WalkTracks(files, k, NextDir(files, k, st));
    }
  }

  lemma StartTracks(k: KeyFn, root: string, rows: seq<Row>)
    requires DistinctKeys(k, rows)
    ensures Tracks(k, StartOf(k, root, rows))
  {}

  // ------------------------------------------------------------------ what the walk reaches

  /** Not hidden: the name does not start with a dot. */
  predicate Open(e: FileInfo) {
    e.name == "" || e.name[0] != '.'
  }

  predicate IsSubdir(entries: seq<FileInfo>, dir: string) {
    exists i | 0 <= i < |entries| ::
      entries[i].isDir && Open(entries[i]) && entries[i].name !in SKIP_DIRS && entries[i].path == dir
  }

  /** A directory the walk may come to: `n` steps down from the root, pruned ones left out. */
  ghost predicate Reaches(files: Files, root: string, dir: string, n: nat)
    decreases n
  {
    if n == 0 then dir == root
    else exists parent :: Reaches(files, root, parent, n - 1) && IsSubdir(files(parent), dir)
  }

  /** The directories in `done` are dealt with: their files are seen and their directories are
      dealt with or queued. */
  ghost predicate Closed(files: Files, k: KeyFn, st: Scan, done: set<string>) {
    forall d | d in done :: Covered(k, st, done, files(d))
  }

  ghost predicate Covered(k: KeyFn, st: Scan, done: set<string>, entries: seq<FileInfo>) {
    && (forall dir | IsSubdir(entries, dir) :: dir in done || dir in st.queue)
    && (forall i | 0 <= i < |entries| && Visible(entries[i]) :: k(entries[i].path) in st.seen)
  }

  lemma {:induction false} ScanCovers(k: KeyFn, st: Scan, entries: seq<FileInfo>)
    ensures var end := ScanDir(k, st, entries);
            && (!end.capped ==> forall i | 0 <= i < |entries| && Walkable(entries[i]) :: entries[i].path in end.queue)
            && (!end.capped ==> forall i | 0 <= i < |entries| && Visible(entries[i]) :: k(entries[i].path) in end.seen)
  {
    if entries != [] {
      hide Hidden;
      ScanCovers(k, st, entries[..|entries| - 1]);
      var before := ScanDir(k, st, entries[..|entries| - 1]);
      assert forall i | 0 <= i < |entries| - 1 :: entries[..|entries| - 1][i] == entries[i];
    }
  }

  lemma CoveredStays(k: KeyFn, st: Scan, done: set<string>, next: Scan, more: set<string>, entries: seq<FileInfo>)
    requires Covered(k, st, done, entries) && done <= more && st.seen <= next.seen
    requires forall dir | dir in st.queue :: dir in more || dir in next.queue
    ensures Covered(k, next, more, entries)
  {
    hide IsSubdir, Visible;
  }

  lemma NextCloses(files: Files, k: KeyFn, st: Scan, done: set<string>)
    requires !Done(st) && Closed(files, k, st, done) && !NextDir(files, k, st).capped
    ensures Closed(files, k, NextDir(files, k, st), done + {st.queue[0]})
    ensures forall dir | dir in st.queue :: dir == st.queue[0] || dir in NextDir(files, k, st).queue
  {
    hide ScanDir, Visible;
    var dir, next := st.queue[0], NextDir(files, k, st);
    var open := st.(queue := st.queue[1..], visited := st.visited + 1);
    ScanKeeps(k, open, files(dir));
    ScanCovers(k, open, files(dir));
    assert st.queue == [dir] + open.queue;
    assert forall d | d in open.queue :: d in next.queue;
    forall d | d in done + {dir} ensures Covered(k, next, done + {dir}, files(d)) {
      if d in done {
        CoveredStays(k, st, done, next, done + {dir}, files(d));
      }
    }
  }

  /** Where the walk ends uncapped with nothing queued, all it queued has been dealt with. */
  lemma {:induction false} WalkCloses(files: Files, k: KeyFn, st: Scan, done: set<string>) returns (all: set<string>)
    requires Closed(files, k, st, done)
    ensures var end := Walk(files, k, st);
            !end.capped && end.queue == [] ==>
              Closed(files, k, end, all) && done <= all && forall dir | dir in st.queue :: dir in all
    decreases MAX_DIRS - st.visited
  {
    hide ScanDir, Closed;
    all := done;
    if !Done(st) {
      WalkStep(files, k, st);
      hide Walk;
      var next := NextDir(files, k, st);
      ScanKeeps(k, st.(queue := st.queue[1..], visited := st.visited + 1), files(st.queue[0]));
      if !next.capped {
        NextCloses(files, k, st, done);
        all := WalkCloses(files, k, next, done + {st.queue[0]});
      } else {
        CappedStays(files, k, next);
      }
    }
  }

  lemma {:induction false} CappedStays(files: Files, k: KeyFn, st: Scan)
    requires st.capped
    ensures Walk(files, k, st).capped
    decreases MAX_DIRS - st.visited
  {
    if !Done(st) {
      var open := st.(queue := st.queue[1..], visited := st.visited + 1);
      ScanKeeps(k, open, files(st.queue[0]));
      CappedScan(k, open, files(st.queue[0]));
      CappedStays(files, k, NextDir(files, k, st));
    }
  }

  lemma {:induction false} CappedScan(k: KeyFn, st: Scan, entries: seq<FileInfo>)
    requires st.capped
    ensures ScanDir(k, st, entries) == st
  {
    if entries != [] {
      CappedScan(k, st, entries[..|entries| - 1]);
    }
  }

  lemma {:induction false} ReachedIsDone(files: Files, k: KeyFn, end: Scan, all: set<string>, root: string,
                                         dir: string, n: nat)
    requires Closed(files, k, end, all) && end.queue == [] && root in all
    requires Reaches(files, root, dir, n)
    ensures dir in all
    decreases n
  {
    if n > 0 {
      var parent :| Reaches(files, root, parent, n - 1) && IsSubdir(files(parent), dir);
      ReachedIsDone(files, k, end, all, root, parent, n - 1);
      assert Covered(k, end, all, files(parent));
    }
  }

  /** A walk that ends uncapped with nothing queued lists every visible file it may come to,
      however deep, links included. */
  lemma WalkIsComplete(files: Files, k: KeyFn, root: string, rows: seq<Row>, dir: string, n: nat, e: FileInfo)
    requires DistinctKeys(k, rows)
    requires Reaches(files, root, dir, n) && e in files(dir) && Visible(e)
    ensures var end := Walk(files, k, StartOf(k, root, rows));
            !end.capped && end.queue == [] ==> Listed(k, end.rows, k(e.path))
  {
    var start := StartOf(k, root, rows);
    var end := Walk(files, k, start);
    var all := WalkCloses(files, k, start, {});
    StartTracks(k, root, rows);
    WalkTracks(files, k, start);
    if !end.capped && end.queue == [] {
      assert root in start.queue;
      hide Walk;
      ReachedIsDone(files, k, end, all, root, dir, n);
      assert Covered(k, end, all, files(dir));
    }
  }

  /** A row of the walk is a visible file of a directory it may come to. */
  ghost predicate FromWorkspace(files: Files, root: string, r: Row) {
    exists dir, n, e ::
      && Reaches(files, root, dir, n) && IsFileOf(files, dir, e)
      && r.path == e.path && r.fileName == e.name && r.sourceMsgId == r.toolName == "" && NoPlan(r)
  }

  predicate IsFileOf(files: Files, dir: string, e: FileInfo) {
    e in files(dir) && !e.isDir && Open(e)
  }

  /** The rows from `m` on come from the workspace, and every queued directory is reached. */
  ghost predicate Sourced(files: Files, root: string, m: nat, st: Scan) {
    && (forall i | m <= i < |st.rows| :: FromWorkspace(files, root, st.rows[i]))
    && (forall dir | dir in st.queue :: exists n :: Reaches(files, root, dir, n))
  }

  lemma EntrySourced(files: Files, k: KeyFn, root: string, m: nat, st: Scan, dir: string, n: nat, e: FileInfo)
    requires Sourced(files, root, m, st) && Reaches(files, root, dir, n) && e in files(dir)
    ensures Sourced(files, root, m, ScanEntry(k, st, e))
  {
    var next := ScanEntry(k, st, e);
    if Walkable(e) {
      assert IsSubdir(files(dir), e.path);
      assert Reaches(files, root, e.path, n + 1);
    } else if next.rows != st.rows {
      assert IsFileOf(files, dir, e);
      assert FromWorkspace(files, root, next.rows[|st.rows|]);
    }
  }

  lemma {:induction false} ScanSourced(files: Files, k: KeyFn, root: string, m: nat, st: Scan, dir: string,
                                       n: nat, entries: seq<FileInfo>)
    requires Sourced(files, root, m, st) && Reaches(files, root, dir, n) && entries <= files(dir)
    ensures Sourced(files, root, m, ScanDir(k, st, entries))
  {
    if entries != [] {
      hide Sourced, ScanEntry, Reaches;
      ScanSourced(files, k, root, m, st, dir, n, entries[..|entries| - 1]);
      assert entries[|entries| - 1] == files(dir)[|entries| - 1];
      EntrySourced(files, k, root, m, ScanDir(k, st, entries[..|entries| - 1]), dir, n, entries[|entries| - 1]);
      if ScanDir(k, st, entries[..|entries| - 1]).capped {
      }
    }
  }

  lemma {:induction false} WalkSourced(files: Files, k: KeyFn, root: string, m: nat, st: Scan)
    requires Sourced(files, root, m, st)
    ensures Sourced(files, root, m, Walk(files, k, st))
    decreases MAX_DIRS - st.visited
  {
    if !Done(st) {
      WalkStep(files, k, st);
      hide ScanDir, Reaches, FromWorkspace, Sourced, Walk;
      var open := st.(queue := st.queue[1..], visited := st.visited + 1);
      var n := HeadReached(files, root, m, st);
      ScanKeeps(k, open, files(st.queue[0]));
      ScanSourced(files, k, root, m, open, st.queue[0], n, files(st.queue[0]));
      WalkSourced(files, k, root, m, NextDir(files, k, st));
    }
  }

  lemma HeadReached(files: Files, root: string, m: nat, st: Scan) returns (n: nat)
    requires Sourced(files, root, m, st) && st.queue != []
    ensures Reaches(files, root, st.queue[0], n)
    ensures Sourced(files, root, m, st.(queue := st.queue[1..], visited := st.visited + 1))
  {
    hide Reaches, FromWorkspace;
    assert st.queue[0] in st.queue;
    n :| Reaches(files, root, st.queue[0], n);
    assert forall d | d in st.queue[1..] :: d in st.queue;
  }

  // ------------------------------------------------------------------ reload and live changes

  /** A reload lists each file once, the messages' rows first and the earliest of them winning;
      behind them at most the cap's number of files, each one a visible file of the workspace. */
  lemma {:induction false} ReloadListsOnce(files: Files, k: KeyFn, resultPath: string -> string,
                                           workspaceDir: string, all: seq<Message>)
    ensures var firsts := Firsts(k, ExtractAll(resultPath, all));
            var rows := Reloaded(files, k, resultPath, workspaceDir, all);
            && DistinctKeys(k, rows)
            && firsts <= rows && |rows| <= |firsts| + MAX_FILES
            && (forall i | |firsts| <= i < |rows| :: FromWorkspace(files, workspaceDir, rows[i]))
  {
    hide AddAll, Firsts, DistinctKeys, Walk;
    var produced := ExtractAll(resultPath, all);
    MessagesKeepFirsts(k, produced);
    NoneDistinct(k);
    AddAllKeepsDistinct(k, [], produced);
    if workspaceDir != "" {
      var start := StartOf(k, workspaceDir, AddAll(k, [], produced));
      StartTracks(k, workspaceDir, start.rows);
      WalkTracks(files, k, start);
      WalkKeeps(files, k, start);
      assert Reaches(files, workspaceDir, workspaceDir, 0);
      assert Sourced(files, workspaceDir, |start.rows|, start);
      WalkSourced(files, k, workspaceDir, |start.rows|, start);
    }
  }

  lemma NoneDistinct(k: KeyFn)
    ensures DistinctKeys(k, [])
  {}

  lemma ExtractAllSnoc(resultPath: string -> string, all: seq<Message>, m: Message)
    ensures ExtractAll(resultPath, all + [m]) == ExtractAll(resultPath, all) + ExtractFromMessage(resultPath, m)
  {
    assert (all + [m])[..|all + [m]| - 1] == all;
  }

  /** Without a workspace the live addition of a new message gives what a reload would. */
  lemma {:induction false} LiveAdditionIsReload(files: Files, k: KeyFn, resultPath: string -> string,
                                                all: seq<Message>, m: Message)
    ensures AddAll(k, Reloaded(files, k, resultPath, "", all), ExtractFromMessage(resultPath, m))
            == Reloaded(files, k, resultPath, "", all + [m])
  {
    hide AddAll, ExtractFromMessage;
    ExtractAllSnoc(resultPath, all, m);
    AddAllAppend(k, [], ExtractAll(resultPath, all), ExtractFromMessage(resultPath, m));
  }

  /** The walk of a reload ends with all it found listed: no cap was met. */
  ghost predicate Complete(files: Files, k: KeyFn, resultPath: string -> string, workspaceDir: string,
                           all: seq<Message>)
  {
    var end := Walk(files, k, StartOf(k, workspaceDir, AddAll(k, [], ExtractAll(resultPath, all))));
    !end.capped && end.queue == []
  }

  /** A visible file the walk may come to has this key. */
  ghost predicate InWorkspace(files: Files, k: KeyFn, root: string, key: string) {
    exists dir, n, e :: Reaches(files, root, dir, n) && IsFileOf(files, dir, e) && k(e.path) == key
  }

  /** A reload that meets no cap lists exactly the files its messages produced and those of
      the workspace. */
  lemma ReloadListsIff(files: Files, k: KeyFn, resultPath: string -> string, workspaceDir: string,
                       all: seq<Message>, key: string)
    requires key != "" && workspaceDir != "" && Complete(files, k, resultPath, workspaceDir, all)
    ensures Listed(k, Reloaded(files, k, resultPath, workspaceDir, all), key) <==>
            Listed(k, ExtractAll(resultPath, all), key) || InWorkspace(files, k, workspaceDir, key)
  {
    hide AddAll, Firsts, DistinctKeys, Walk, Reaches, IsFileOf;
    var rows := AddAll(k, [], ExtractAll(resultPath, all));
    AddAllListed(k, [], ExtractAll(resultPath, all), key);
    NothingUnder(k, key);
    MessagesKeepFirsts(k, ExtractAll(resultPath, all));
    ReloadListsOnce(files, k, resultPath, workspaceDir, all);
    NoneDistinct(k);
    AddAllKeepsDistinct(k, [], ExtractAll(resultPath, all));
    var end := Reloaded(files, k, resultPath, workspaceDir, all);
    if InWorkspace(files, k, workspaceDir, key) {
      var dir, n, e :| Reaches(files, workspaceDir, dir, n) && IsFileOf(files, dir, e) && k(e.path) == key;
      FileIsVisible(files, dir, e);
      WalkIsComplete(files, k, workspaceDir, rows, dir, n, e);
    } else if Listed(k, end, key) {
      var i :| 0 <= i < |end| && k(end[i].path) == key;
      assert i >= |rows| ==> FromWorkspace(files, workspaceDir, end[i]);
      assert i < |rows| && end[i] == rows[i];
    }
    assert forall i | 0 <= i < |rows| :: end[i] == rows[i];
  }

  lemma FileIsVisible(files: Files, dir: string, e: FileInfo)
    requires IsFileOf(files, dir, e)
    ensures e in files(dir) && Visible(e)
  {}

  /** With a workspace, a live addition lists the files a reload would, as long as neither
      reload meets a cap. */
  lemma LiveAdditionListsSame(files: Files, k: KeyFn, resultPath: string -> string, workspaceDir: string,
                              all: seq<Message>, m: Message, key: string)
    requires key != "" && workspaceDir != ""
    requires Complete(files, k, resultPath, workspaceDir, all)
             && Complete(files, k, resultPath, workspaceDir, all + [m])
    ensures var live := AddAll(k, Reloaded(files, k, resultPath, workspaceDir, all), ExtractFromMessage(resultPath, m));
            Listed(k, live, key) <==> Listed(k, Reloaded(files, k, resultPath, workspaceDir, all + [m]), key)
  {
    hide AddAll, ExtractFromMessage, Complete, InWorkspace, Reloaded;
    ReloadListsIff(files, k, resultPath, workspaceDir, all, key);
    ReloadListsIff(files, k, resultPath, workspaceDir, all + [m], key);
    AddAllListed(k, Reloaded(files, k, resultPath, workspaceDir, all), ExtractFromMessage(resultPath, m), key);
    ExtractAllSnoc(resultPath, all, m);
    ListedAppend(k, ExtractAll(resultPath, all), ExtractFromMessage(resultPath, m), key);
  }

  lemma ListedAppend(k: KeyFn, a: seq<Row>, b: seq<Row>, key: string)
    ensures Listed(k, a + b, key) <==> Listed(k, a, key) || Listed(k, b, key)
  {
    assert forall i | 0 <= i < |a| :: (a + b)[i] == a[i];
    assert forall i | 0 <= i < |b| :: (a + b)[|a| + i] == b[i];
  }

  // ------------------------------------------------------------------ workspaces that meet no cap

  /** The directories the walk queues for one directory, in order. */
  function Subdirs(entries: seq<FileInfo>): seq<string> {
    if entries == [] then [] else
    var last := entries[|entries| - 1];
    Subdirs(entries[..|entries| - 1]) + if Walkable(last) then [last.path] else []
  }

  function FileKeys(k: KeyFn, entries: seq<FileInfo>): set<string> {
    set i | 0 <= i < |entries| && Visible(entries[i]) :: k(entries[i].path)
  }

  /** The directories still to be dealt with after `n` visits, breadth first; a directory that
      is linked to twice is visited twice. */
  function Left(files: Files, queue: seq<string>, n: nat): seq<string>
    decreases n, queue
  {
    if queue == [] || n == 0 then queue else Left(files, queue[1..] + Subdirs(files(queue[0])), n - 1)
  }

  /** The keys of the visible files met in `n` visits. */
  function Met(files: Files, k: KeyFn, queue: seq<string>, n: nat): set<string>
    decreases n, queue
  {
    if queue == [] || n == 0 then {} else
    FileKeys(k, files(queue[0])) + Met(files, k, queue[1..] + Subdirs(files(queue[0])), n - 1)
  }

  lemma {:induction false} FileKeysSnoc(k: KeyFn, entries: seq<FileInfo>)
    requires entries != []
    ensures var last := entries[|entries| - 1];
            FileKeys(k, entries)
            == FileKeys(k, entries[..|entries| - 1]) + if Visible(last) then {k(last.path)} else {}
  {
    var init := entries[..|entries| - 1];
    assert forall i | 0 <= i < |init| :: init[i] == entries[i];
    forall key | key in FileKeys(k, init) ensures key in FileKeys(k, entries) {
      var i :| 0 <= i < |init| && Visible(init[i]) && k(init[i].path) == key;
      assert entries[i] == init[i];
    }
  }

  lemma {:induction false} SubsetSize(a: set<string>, b: set<string>)
    requires a <= b
    ensures |a| <= |b|
  {
    assert b == a + (b - a);
  }

  /** The walk has added as many files as it has seen keys that are new. */
  predicate Counts(base: set<string>, st: Scan) {
    base <= st.seen && st.added == |st.seen - base|
  }

  lemma EntryCounts(k: KeyFn, base: set<string>, st: Scan, e: FileInfo)
    requires Counts(base, st)
    ensures Counts(base, ScanEntry(k, st, e))
  {
    var next := ScanEntry(k, st, e);
    assert next.seen != st.seen ==> next.seen - base == (st.seen - base) + {k(e.path)};
  }

  /** While few new files are met, a directory is taken whole. */
  lemma {:induction false} ScanIsWhole(k: KeyFn, base: set<string>, all: set<string>, st: Scan, entries: seq<FileInfo>)
    requires Counts(base, st) && !st.capped && st.seen <= base + all
    requires FileKeys(k, entries) <= base + all && |all - base| < MAX_FILES
    ensures var end := ScanDir(k, st, entries);
            && Counts(base, end) && !end.capped && end.seen <= base + all
            && end.queue == st.queue + Subdirs(entries)
  {
    if entries != [] {
      var init, last := entries[..|entries| - 1], entries[|entries| - 1];
      FileKeysSnoc(k, entries);
      ScanIsWhole(k, base, all, st, init);
      var before := ScanDir(k, st, init);
      EntryCounts(k, base, before, last);
      SubsetSize(before.seen - base, all - base);
      hide ScanDir, FileKeys, Counts, Hidden;
      WholeStep(k, st, entries);
    }
  }

  lemma WholeStep(k: KeyFn, st: Scan, entries: seq<FileInfo>)
    requires entries != []
    requires var before := ScanDir(k, st, entries[..|entries| - 1]);
             !before.capped && before.queue == st.queue + Subdirs(entries[..|entries| - 1])
    ensures var before, last := ScanDir(k, st, entries[..|entries| - 1]), entries[|entries| - 1];
            && ScanDir(k, st, entries) == ScanEntry(k, before, last)
            && ScanEntry(k, before, last).queue == st.queue + Subdirs(entries)
            && (before.added < MAX_FILES ==> !ScanEntry(k, before, last).capped)
            && (ScanEntry(k, before, last).seen == before.seen
                || (Visible(last) && ScanEntry(k, before, last).seen == before.seen + {k(last.path)}))
  {
    hide Hidden;
    var before := ScanDir(k, st, entries[..|entries| - 1]);
    var more := Subdirs(entries)[|Subdirs(entries[..|entries| - 1])|..];
    assert Subdirs(entries) == Subdirs(entries[..|entries| - 1]) + more;
    ConcatAssoc(st.queue, Subdirs(entries[..|entries| - 1]), more);
    assert before.queue + [] == before.queue;
  }

  /** A workspace small enough for both caps, with some rows listed already: the walk has at
      most 4000 directories to visit, and meets fewer than 2000 files that are new. */
  ghost predicate Small(files: Files, k: KeyFn, root: string, rows: seq<Row>) {
    Left(files, [root], MAX_DIRS) == [] && |Met(files, k, [root], MAX_DIRS) - KeysOf(k, rows)| < MAX_FILES
  }

  lemma {:induction false} WalkIsWhole(files: Files, k: KeyFn, base: set<string>, all: set<string>, st: Scan)
    requires Counts(base, st) && !st.capped && st.seen <= base + all && |all - base| < MAX_FILES
    requires st.visited <= MAX_DIRS && Left(files, st.queue, MAX_DIRS - st.visited) == []
    requires Met(files, k, st.queue, MAX_DIRS - st.visited) <= base + all
    ensures var end := Walk(files, k, st); !end.capped && end.queue == []
    decreases MAX_DIRS - st.visited
  {
    SubsetSize(st.seen - base, all - base);
    if !Done(st) {
      hide ScanDir, FileKeys, Subdirs;
      var open := st.(queue := st.queue[1..], visited := st.visited + 1);
      ScanKeeps(k, open, files(st.queue[0]));
      ScanIsWhole(k, base, all, open, files(st.queue[0]));
      WalkIsWhole(files, k, base, all, NextDir(files, k, st));
    }
  }

  /** In a small workspace a reload meets no cap. */
  lemma SmallIsComplete(files: Files, k: KeyFn, resultPath: string -> string, workspaceDir: string, all: seq<Message>)
    requires Small(files, k, workspaceDir, AddAll(k, [], ExtractAll(resultPath, all)))
    ensures Complete(files, k, resultPath, workspaceDir, all)
  {
    var rows := AddAll(k, [], ExtractAll(resultPath, all));
    var start := StartOf(k, workspaceDir, rows);
    assert start.seen - start.seen == {};
    hide Walk, KeysOf, AddAll, Met, Left;
    WalkIsWhole(files, k, start.seen, Met(files, k, [workspaceDir], MAX_DIRS), start);
  }

  lemma {:induction false} ScanQueues(k: KeyFn, base: set<string>, st: Scan, entries: seq<FileInfo>)
    requires Counts(base, st) && !ScanDir(k, st, entries).capped
    ensures Counts(base, ScanDir(k, st, entries))
    ensures ScanDir(k, st, entries).queue == st.queue + Subdirs(entries)
    ensures FileKeys(k, entries) <= ScanDir(k, st, entries).seen
  {
    ScanCovers(k, st, entries);
    if entries != [] {
      var init, last := entries[..|entries| - 1], entries[|entries| - 1];
      ScanQueues(k, base, st, init);
      EntryCounts(k, base, ScanDir(k, st, init), last);
      hide ScanDir, Counts, ScanEntry;
      WholeStep(k, st, entries);
    }
  }

  /** Conversely, a walk that meets no cap has no more than 4000 directories to visit, and
      meets no more than 2000 files that are new. */
  lemma {:induction false} WholeIsSmall(files: Files, k: KeyFn, base: set<string>, st: Scan)
    requires Counts(base, st) && st.added <= MAX_FILES && st.visited <= MAX_DIRS
    ensures var end := Walk(files, k, st);
            !end.capped && end.queue == [] ==>
              && Left(files, st.queue, MAX_DIRS - st.visited) == []
              && Met(files, k, st.queue, MAX_DIRS - st.visited) <= end.seen
              && st.seen <= end.seen && |end.seen - base| <= MAX_FILES
    decreases MAX_DIRS - st.visited
  {
    hide *;
    if Done(st) {
      WalkDone(files, k, st);
      CountsSize(base, st);
      NothingMet(files, k, MAX_DIRS - st.visited);
    } else {
      OpenedStep(files, k, base, st);
      WalkStep(files, k, st);
      var next := NextDir(files, k, st);
      if next.capped {
        CappedStays(files, k, next);
      } else {
        WholeIsSmall(files, k, base, next);
      }
    }
  }

  lemma CountsSize(base: set<string>, st: Scan)
    requires Counts(base, st)
    ensures |st.seen - base| == st.added
  {}

  lemma NothingMet(files: Files, k: KeyFn, n: nat)
    ensures Left(files, [], n) == [] && Met(files, k, [], n) == {}
  {}

  /** One directory of a walk, as the queue and the files met see it. */
  lemma OpenedStep(files: Files, k: KeyFn, base: set<string>, st: Scan)
    requires !Done(st) && Counts(base, st)
    ensures var next, n := NextDir(files, k, st), MAX_DIRS - st.visited;
            && n > 0 && next.visited == st.visited + 1 && st.seen <= next.seen
            && (st.added <= MAX_FILES ==> next.added <= MAX_FILES)
            && (!next.capped ==>
                  && Counts(base, next)
                  && Left(files, st.queue, n) == Left(files, next.queue, n - 1)
                  && Met(files, k, st.queue, n) <= next.seen + Met(files, k, next.queue, n - 1))
  {
    var open, entries := st.(queue := st.queue[1..], visited := st.visited + 1), files(st.queue[0]);
    assert Counts(base, open);
    assert st.queue != [] && st.visited < MAX_DIRS && NextDir(files, k, st) == ScanDir(k, open, entries);
    hide *;
    ScanKeeps(k, open, entries);
    VisitStep(files, k, st.queue, MAX_DIRS - st.visited);
    if !NextDir(files, k, st).capped {
      ScanQueues(k, base, open, entries);
    }
  }

  lemma VisitStep(files: Files, k: KeyFn, queue: seq<string>, n: nat)
    requires queue != [] && n > 0
    ensures var rest, entries := queue[1..], files(queue[0]);
            && Left(files, queue, n) == Left(files, rest + Subdirs(entries), n - 1)
            && Met(files, k, queue, n) == FileKeys(k, entries) + Met(files, k, rest + Subdirs(entries), n - 1)
  {
    hide FileKeys, Subdirs;
  }

  lemma CompleteIsSmall(files: Files, k: KeyFn, resultPath: string -> string, workspaceDir: string, all: seq<Message>)
    requires Complete(files, k, resultPath, workspaceDir, all)
    ensures var rows := AddAll(k, [], ExtractAll(resultPath, all));
            && Left(files, [workspaceDir], MAX_DIRS) == []
            && |Met(files, k, [workspaceDir], MAX_DIRS) - KeysOf(k, rows)| <= MAX_FILES
  {
    var rows := AddAll(k, [], ExtractAll(resultPath, all));
    var start := StartOf(k, workspaceDir, rows);
    assert start.seen - start.seen == {};
    hide Walk, KeysOf, AddAll, Met, Left;
    WholeIsSmall(files, k, start.seen, start);
    SubsetSize(Met(files, k, [workspaceDir], MAX_DIRS) - start.seen, Walk(files, k, start).seen - start.seen);
  }

  lemma {:induction false} WithoutAppend(a: seq<Row>, b: seq<Row>, msgId: string)
    ensures Without(a + b, msgId) == Without(a, msgId) + Without(b, msgId)
  {
    if a == [] {
      assert a + b == b;
    } else {
      WithoutAppend(a[1..], b, msgId);
      assert (a + b)[1..] == a[1..] + b && (a + b)[0] == a[0];
      ConcatAssoc(if a[0].sourceMsgId != msgId then [a[0]] else [], Without(a[1..], msgId), Without(b, msgId));
    }
  }

  lemma {:induction false} WithoutKeepsOthers(rows: seq<Row>, msgId: string)
    requires forall i | 0 <= i < |rows| :: rows[i].sourceMsgId != msgId
    ensures Without(rows, msgId) == rows
  {
    if rows != [] {
      WithoutKeepsOthers(rows[1..], msgId);
      assert rows == [rows[0]] + rows[1..];
    }
  }

  lemma {:induction false} WithoutDropsAll(rows: seq<Row>, msgId: string)
    requires forall i | 0 <= i < |rows| :: rows[i].sourceMsgId == msgId
    ensures Without(rows, msgId) == []
  {
    if rows != [] {
      WithoutDropsAll(rows[1..], msgId);
    }
  }

  /** Deleting a message right after it was added restores the rows. */
  lemma {:induction false} DeleteUndoesAdd(k: KeyFn, resultPath: string -> string, rows: seq<Row>, m: Message)
    requires forall i | 0 <= i < |rows| :: rows[i].sourceMsgId != m.id
    ensures Without(AddAll(k, rows, ExtractFromMessage(resultPath, m)), m.id) == rows
  {
    var produced := ExtractFromMessage(resultPath, m);
    var news := AddAll(k, rows, produced)[|rows|..];
    if produced != [] {
      assert produced[..0] == [];
      assert AddAll(k, rows, produced) == Add(k, rows, produced[0]);
    }
    assert AddAll(k, rows, produced) == rows + news;
    WithoutAppend(rows, news, m.id);
    WithoutKeepsOthers(rows, m.id);
    WithoutDropsAll(news, m.id);
  }

  lemma {:induction false} WithoutHas(rows: seq<Row>, msgId: string)
    ensures forall r :: r in Without(rows, msgId) <==> r in rows && r.sourceMsgId != msgId
  {
    if rows != [] {
      WithoutHas(rows[1..], msgId);
      assert rows == [rows[0]] + rows[1..];
    }
  }

  lemma DistinctCons(k: KeyFn, r: Row, rows: seq<Row>)
    requires DistinctKeys(k, rows)
    requires forall s | s in rows :: k(r.path) == k(s.path) ==> k(r.path) == ""
    ensures DistinctKeys(k, [r] + rows)
  {}

  /** A deletion keeps the rows of the other messages, each file still once. */
  lemma {:induction false} DeleteKeepsDistinct(k: KeyFn, rows: seq<Row>, msgId: string)
    requires DistinctKeys(k, rows)
    ensures DistinctKeys(k, Without(rows, msgId))
    ensures forall r :: r in Without(rows, msgId) <==> r in rows && r.sourceMsgId != msgId
  {
    WithoutHas(rows, msgId);
    if rows != [] {
      var first, rest := rows[0], rows[1..];
      assert forall i | 0 <= i < |rest| :: rest[i] == rows[i + 1];
      assert DistinctKeys(k, rest);
      assert forall s | s in rest :: k(first.path) == k(s.path) ==> k(first.path) == "";
      hide DistinctKeys;
      DeleteKeepsDistinct(k, rest, msgId);
      DistinctCons(k, first, Without(rest, msgId));
    }
  }

  // ------------------------------------------------------------------ what each row says

  predicate MetaIs(m: Message, name: string, value: string) {
    if name in m.metadata then m.metadata[name] == value else value == ""
  }

  /** The message tells of an image filed into the workspace. */
  predicate FromImages(m: Message) {
    m.role == "assistant" && MetaIs(m, "produced_by", "image_service")
  }

  /** A message produces a row: a tool result that names a path, an image that was filed, or a
      submitted plan result. */
  predicate Produces(resultPath: string -> string, m: Message) {
    || (m.role == "tool" && m.content != "" && resultPath(m.content) != "")
    || (FromImages(m) && !MetaIs(m, "workspace_path", ""))
    || (m.role == "assistant" && !FromImages(m) && m.finishReason == "artifact")
  }

  predicate NoPlan(r: Row) {
    r.planId == "" && r.stepId == "" && r.stepTitle == "" && r.planGoal == "" && r.submittedBy == ""
  }

  /** What follows the last slash of a path. */
  ghost predicate IsNameOf(name: string, path: string) {
    '/' !in name && (name == path || exists dir :: path == dir + "/" + name)
  }

  /** The row of a message that produces one, from the message's own fields. */
  ghost predicate IsRowOf(resultPath: string -> string, m: Message, r: Row) {
    && r.sourceMsgId == m.id
    && (m.role == "tool" ==>
          && r.path == resultPath(m.content) && IsNameOf(r.fileName, r.path)
          && MetaIs(m, "tool_name", r.toolName) && NoPlan(r))
    && (FromImages(m) ==>
          && MetaIs(m, "workspace_path", r.path) && IsNameOf(r.fileName, r.path)
          && r.toolName == "generate_image" && NoPlan(r))
    && (m.role == "assistant" && !FromImages(m) ==>
          && r.path == "" && MetaIs(m, "summary", r.fileName) && r.toolName == "submit_result"
          && MetaIs(m, "plan_id", r.planId) && MetaIs(m, "step_id", r.stepId) && MetaIs(m, "step_title", r.stepTitle)
          && MetaIs(m, "plan_goal", r.planGoal) && r.submittedBy == m.memberAlias)
  }

  lemma FieldIs(m: Message, name: string, value: string)
    ensures MetaIs(m, name, value) <==> value == Field(m, name)
  {}

  /** A file's name is what follows the last slash of its path. */
  lemma {:induction false} FileNameIs(path: string)
    ensures IsNameOf(FileName(path), path)
  {
    if path != "" {
      var init, c := path[..|path| - 1], path[|path| - 1];
      assert path == init + [c];
      if c == '/' {
        assert path == init + "/" + "";
      } else {
        FileNameIs(init);
        var name := FileName(init);
        if name != init {
          var dir :| init == dir + "/" + name;
          ConcatAssoc(dir + "/", name, [c]);
        }
      }
    }
  }

  lemma ToolRow(resultPath: string -> string, m: Message)
    requires m.role == "tool"
    ensures var rows := ExtractFromMessage(resultPath, m);
            if Produces(resultPath, m) then |rows| == 1 && IsRowOf(resultPath, m, rows[0]) else rows == []
  {
    FieldIs(m, "tool_name", Field(m, "tool_name"));
    FileNameIs(resultPath(m.content));
    assert !FromImages(m);
    hide FromImages, MetaIs, Field, FileName, IsNameOf;
  }

  lemma ImageRow(resultPath: string -> string, m: Message)
    requires FromImages(m)
    ensures var rows := ExtractFromMessage(resultPath, m);
            if Produces(resultPath, m) then |rows| == 1 && IsRowOf(resultPath, m, rows[0]) else rows == []
  {
    FieldIs(m, "produced_by", "image_service");
    FieldIs(m, "workspace_path", "");
    FieldIs(m, "workspace_path", Field(m, "workspace_path"));
    FileNameIs(Field(m, "workspace_path"));
    assert m.role == "assistant" && Field(m, "produced_by") == "image_service";
    hide FromImages, MetaIs, Field, FileName, IsNameOf;
  }

  lemma PlanRow(resultPath: string -> string, m: Message)
    requires m.role != "tool" && !FromImages(m)
    ensures var rows := ExtractFromMessage(resultPath, m);
            if Produces(resultPath, m) then |rows| == 1 && IsRowOf(resultPath, m, rows[0]) else rows == []
  {
    FieldIs(m, "produced_by", "image_service");
    FieldIs(m, "summary", Field(m, "summary"));
    FieldIs(m, "plan_id", Field(m, "plan_id"));
    FieldIs(m, "step_id", Field(m, "step_id"));
    FieldIs(m, "step_title", Field(m, "step_title"));
    FieldIs(m, "plan_goal", Field(m, "plan_goal"));
    hide MetaIs, Field, FileName, IsNameOf;
  }

  /** A message that produces a row produces one, with the message's own fields; any other
      produces none. */
  lemma ExtractedIs(resultPath: string -> string, m: Message)
    ensures var rows := ExtractFromMessage(resultPath, m);
            if Produces(resultPath, m) then |rows| == 1 && IsRowOf(resultPath, m, rows[0]) else rows == []
  {
    hide Produces, IsRowOf, ExtractFromMessage;
    if m.role == "tool" {
      ToolRow(resultPath, m);
    } else if FromImages(m) {
      ImageRow(resultPath, m);
    } else {
      PlanRow(resultPath, m);
    }
  }

  function Producing(resultPath: string -> string, all: seq<Message>): seq<bool> {
    seq(|all|, i requires 0 <= i < |all| => Produces(resultPath, all[i]))
  }

  /** Rows that are one for one those of the messages at the places `at`. */
  ghost predicate AreRows(resultPath: string -> string, all: seq<Message>, at: seq<nat>, rows: seq<Row>) {
    |rows| == |at| && forall j | 0 <= j < |at| :: at[j] < |all| && IsRowOf(resultPath, all[at[j]], rows[j])
  }

  lemma RowsSnoc(resultPath: string -> string, all: seq<Message>, m: Message, at: seq<nat>, rows: seq<Row>, mark: bool,
                 more: seq<Row>)
    requires AreRows(resultPath, all, at, rows)
    requires if mark then |more| == 1 && IsRowOf(resultPath, m, more[0]) else more == []
    ensures AreRows(resultPath, all + [m], if mark then at + [|all|] else at, rows + more)
  {
    hide IsRowOf;
    var after, next, out := all + [m], if mark then at + [|all|] else at, rows + more;
    forall j | 0 <= j < |next| ensures next[j] < |after| && IsRowOf(resultPath, after[next[j]], out[j]) {
      if j < |at| {
        assert next[j] == at[j] && after[at[j]] == all[at[j]] && out[j] == rows[j];
      } else {
        assert next[j] == |all| && after[|all|] == m && out[j] == more[0];
      }
    }
  }

  lemma ProducingSnoc(resultPath: string -> string, all: seq<Message>, m: Message)
    ensures |Producing(resultPath, all)| == |all|
    ensures Producing(resultPath, all + [m]) == Producing(resultPath, all) + [Produces(resultPath, m)]
  {
    hide Produces;
  }

  /** The rows the messages produce are one for one those of the messages that produce one. */
  lemma {:induction false} ExtractedAll(resultPath: string -> string, all: seq<Message>)
    ensures AreRows(resultPath, all, Places(Producing(resultPath, all)), ExtractAll(resultPath, all))
  {
    if all == [] {
      hide IsRowOf, Produces;
      assert Producing(resultPath, all) == [] && ExtractAll(resultPath, all) == [];
    } else {
      hide *;
      var init, m := all[..|all| - 1], all[|all| - 1];
      ExtractedAll(resultPath, init);
      ExtractedSnoc(resultPath, init, m);
      assert all == init + [m];
    }
  }

  lemma ExtractedSnoc(resultPath: string -> string, all: seq<Message>, m: Message)
    requires AreRows(resultPath, all, Places(Producing(resultPath, all)), ExtractAll(resultPath, all))
    ensures AreRows(resultPath, all + [m], Places(Producing(resultPath, all + [m])), ExtractAll(resultPath, all + [m]))
  {
    hide *;
    ExtractedIs(resultPath, m);
    ExtractAllSnoc(resultPath, all, m);
    ProducingSnoc(resultPath, all, m);
    PlacesSnoc(Producing(resultPath, all), Produces(resultPath, m));
    RowsSnoc(resultPath, all, m, Places(Producing(resultPath, all)), ExtractAll(resultPath, all),
             Produces(resultPath, m), ExtractFromMessage(resultPath, m));
  }

  /** The rows without a path key, and of each key the first. */
  function FirstMarks(k: KeyFn, rows: seq<Row>): seq<bool> {
    seq(|rows|, i requires 0 <= i < |rows| =>
      k(rows[i].path) == "" || forall j | 0 <= j < i :: k(rows[j].path) != k(rows[i].path))
  }

  lemma FirstMarksSnoc(k: KeyFn, rows: seq<Row>, r: Row)
    ensures |FirstMarks(k, rows)| == |rows|
    ensures FirstMarks(k, rows + [r]) == FirstMarks(k, rows) + [ComesFirst(k, rows + [r], |rows|)]
  {
    var all := rows + [r];
    assert all[|rows|] == r;
    forall i | 0 <= i < |rows| ensures FirstMarks(k, all)[i] == FirstMarks(k, rows)[i] {
      assert all[i] == rows[i] && forall j | 0 <= j < i :: all[j] == rows[j];
    }
  }

  lemma {:induction false} FirstsArePicked(k: KeyFn, rows: seq<Row>)
    ensures ArePicked(rows, FirstMarks(k, rows), Firsts(k, rows))
  {
    if rows != [] {
      var init, r := rows[..|rows| - 1], rows[|rows| - 1];
      FirstsArePicked(k, init);
      FirstMarksSnoc(k, init, r);
      assert rows == init + [r];
      assert Firsts(k, rows) == if ComesFirst(k, rows, |init|) then Firsts(k, init) + [r] else Firsts(k, init);
      hide *;
      PickedSnoc(init, FirstMarks(k, init), Firsts(k, init), r, ComesFirst(k, rows, |init|));
    }
  }

  /** What a reload lists, in order: `produced`, the rows of the messages that produce one, of
      those with the same key the first; and then files of the workspace. */
  lemma ReloadIs(files: Files, k: KeyFn, resultPath: string -> string, workspaceDir: string, all: seq<Message>)
    returns (produced: seq<Row>, n: nat)
    ensures AreRows(resultPath, all, Places(Producing(resultPath, all)), produced)
    ensures var rows := Reloaded(files, k, resultPath, workspaceDir, all);
            && n <= |rows| && ArePicked(produced, FirstMarks(k, produced), rows[..n])
            && forall i | n <= i < |rows| :: FromWorkspace(files, workspaceDir, rows[i])
  {
    produced := ExtractAll(resultPath, all);
    hide *;
    ExtractedAll(resultPath, all);
    FirstsArePicked(k, produced);
    ReloadListsOnce(files, k, resultPath, workspaceDir, all);
    n := |Firsts(k, produced)|;
    assert Reloaded(files, k, resultPath, workspaceDir, all)[..n] == Firsts(k, produced);
  }

  function NotOf(rows: seq<Row>, msgId: string): seq<bool> {
    seq(|rows|, i requires 0 <= i < |rows| => rows[i].sourceMsgId != msgId)
  }

  /** A deletion leaves the rows of all other messages, in order. */
  lemma {:induction false} DeletionKeeps(rows: seq<Row>, msgId: string)
    ensures ArePicked(rows, NotOf(rows, msgId), Without(rows, msgId))
  {
    if rows != [] {
      var init, r := rows[..|rows| - 1], rows[|rows| - 1];
      DeletionKeeps(init, msgId);
      WithoutAppend(init, [r], msgId);
      assert rows == init + [r];
      assert NotOf(rows, msgId) == NotOf(init, msgId) + [r.sourceMsgId != msgId];
      assert [r][1..] == [] && Without([r], msgId) == if r.sourceMsgId != msgId then [r] else [];
      hide *;
      PickedSnoc(init, NotOf(init, msgId), Without(init, msgId), r, r.sourceMsgId != msgId);
    }
  }
}
