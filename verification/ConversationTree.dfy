/**
  The sidebar tree as a value: what each change signal of the conversation service does to
  it (backend/models/conversation-list-model.cpp), and why it keeps agreeing with the store.

  `ConversationListModel` has the same operations on linked nodes, proved against these.
 */
module ConversationTree {
  import opened Common

  /** QDateTime: an invalid time is before every valid one. */
  datatype Time = Invalid | Valid(ms: int)

  predicate Before(a: Time, b: Time) {
    b.Valid? && (a.Invalid? || a.ms < b.ms)
  }

  /** Fields that are copied and never looked at. */
  datatype ConvFields = ConvFields(
    title: string, tokenTotal: int, llmConfig: string, systemPrompt: string,
    isPinned: bool, isGroup: bool, primaryAgentId: string)
  datatype FolderFields = FolderFields(
    name: string, folderType: string, goal: string, description: string, agentIds: seq<string>)

  datatype Conversation = Conversation(folderId: string, updatedAt: Time, fields: ConvFields)
  datatype FolderRow = FolderRow(parentId: string, createdAt: Time, fields: FolderFields)

  /** The conversation service's tables. */
  datatype Store = Store(convs: map<string, Conversation>, folders: map<string, FolderRow>)

  datatype Leaf = Leaf(id: string, updatedAt: Time, fields: ConvFields)

  datatype Item =
    | Conv(leaf: Leaf)
    | Folder(id: string, createdAt: Time, fields: FolderFields, kids: seq<Leaf>)

  type Tree = seq<Item>

  function LeafOf(id: string, c: Conversation): Leaf {
    Leaf(id, c.updatedAt, c.fields)
  }

  // ------------------------------------------------------------------ finding

  /** Where a conversation is: at the top, or inside the folder at `i`. */
  datatype Place = Top(i: nat) | In(i: nat, j: nat)

  predicate IsPlace(t: Tree, p: Place) {
    && p.i < |t|
    && (p.Top? ==> t[p.i].Conv?)
    && (p.In? ==> t[p.i].Folder? && p.j < |t[p.i].kids|)
  }

  function LeafAt(t: Tree, p: Place): Leaf
    requires IsPlace(t, p)
  {
    match p
    case Top(i) => t[i].leaf
    case In(i, j) => t[i].kids[j]
  }

  function FindKid(kids: seq<Leaf>, id: string): (r: Option<nat>)
    ensures r.Some? ==> r.value < |kids| && kids[r.value].id == id && forall k | 0 <= k < r.value :: kids[k].id != id
    ensures r.None? ==> forall k | 0 <= k < |kids| :: kids[k].id != id
  {
    if kids == [] then None
    else if kids[0].id == id then Some(0)
    else match FindKid(kids[1..], id) case None => None case Some(j) => Some(j + 1)
  }

  /** The first conversation with this id, in display order; none for an empty id. */
  function FindConv(t: Tree, id: string): (r: Option<Place>)
    ensures r.Some? ==> IsPlace(t, r.value) && LeafAt(t, r.value).id == id != ""
    ensures r.None? && id != "" ==> forall p | IsPlace(t, p) :: LeafAt(t, p).id != id
  {
    FindConvFrom(t, id, 0)
  }

  function FindConvFrom(t: Tree, id: string, n: nat): (r: Option<Place>)
    requires n <= |t|
    ensures r.Some? ==> IsPlace(t, r.value) && r.value.i >= n && LeafAt(t, r.value).id == id != ""
    ensures r.None? && id != "" ==> forall p | IsPlace(t, p) && p.i >= n :: LeafAt(t, p).id != id
    decreases |t| - n
  {
    if id == "" || n == |t| then None else
    match t[n]
    case Conv(leaf) => if leaf.id == id then Some(Top(n)) else FindConvFrom(t, id, n + 1)
    case Folder(_, _, _, kids) =>
      match FindKid(kids, id)
      case Some(j) => Some(In(n, j))
      case None => FindConvFrom(t, id, n + 1)
  }

  predicate IsFolder(item: Item, id: string) {
    item.Folder? && item.id == id
  }

  function FindFolder(t: Tree, id: string): (r: Option<nat>)
    ensures r.Some? ==> id != "" && r.value < |t| && IsFolder(t[r.value], id)
    ensures r.Some? ==> forall k | 0 <= k < r.value :: !IsFolder(t[k], id)
    ensures r.None? && id != "" ==> forall k | 0 <= k < |t| :: !IsFolder(t[k], id)
  {
    if id == "" || t == [] then None
    else if IsFolder(t[0], id) then Some(0)
    else match FindFolder(t[1..], id) case None => None case Some(k) => Some(k + 1)
  }

  // ------------------------------------------------------------------ changing

  function RemoveAt<T>(s: seq<T>, i: nat): seq<T>
    requires i < |s|
  {
    s[..i] + s[i + 1..]
  }

  function InsertAt(t: Tree, f: Option<nat>, leaf: Leaf): Tree
    requires f.Some? ==> f.value < |t| && t[f.value].Folder?
  {
    match f
    case None => [Conv(leaf)] + t
    case Some(i) => t[i := t[i].(kids := [leaf] + t[i].kids)]
  }

  /** In front of the children of its folder; of the root when there is no such folder. */
  function Insert(t: Tree, folderId: string, leaf: Leaf): Tree {
    InsertAt(t, FindFolder(t, folderId), leaf)
  }

  function Remove(t: Tree, p: Place): Tree
    requires IsPlace(t, p)
  {
    match p
    case Top(i) => RemoveAt(t, i)
    case In(i, j) => t[i := t[i].(kids := RemoveAt(t[i].kids, j))]
  }

  function Replace(t: Tree, p: Place, leaf: Leaf): Tree
    requires IsPlace(t, p)
  {
    match p
    case Top(i) => t[i := Conv(leaf)]
    case In(i, j) => t[i := t[i].(kids := t[i].kids[j := leaf])]
  }

  /** The place is where a conversation of this folder belongs. */
  predicate BelongsAt(t: Tree, p: Place, folderId: string) {
    match FindFolder(t, folderId)
    case None => p.Top?
    case Some(f) => p.In? && p.i == f
  }

  // ------------------------------------------------------------------ the six signals

  function OnConvCreated(t: Tree, s: Store, id: string): Tree {
    if id in s.convs then Insert(t, s.convs[id].folderId, LeafOf(id, s.convs[id])) else t
  }

  function OnConvDeleted(t: Tree, id: string): Tree {
    match FindConv(t, id)
    case None => t
    case Some(p) => Remove(t, p)
  }

  /** A conversation that was found: replaced where it is, or moved to the front when its
      folder changed or its time moved on. */
  function Refreshed(t: Tree, p: Place, leaf: Leaf, folderId: string): Tree
    requires IsPlace(t, p)
  {
    if BelongsAt(t, p, folderId) && !Before(LeafAt(t, p).updatedAt, leaf.updatedAt) then Replace(t, p, leaf)
    else Insert(Remove(t, p), folderId, leaf)
  }

  function OnConvUpdated(t: Tree, s: Store, id: string): Tree {
    match FindConv(t, id)
    case None => OnConvCreated(t, s, id)
    case Some(p) =>
      if id !in s.convs then OnConvDeleted(t, id) else
      Refreshed(t, p, LeafOf(id, s.convs[id]), s.convs[id].folderId)
  }

  /** Nested folders are not shown. */
  function OnFolderCreated(t: Tree, s: Store, id: string): Tree {
    if id in s.folders && s.folders[id].parentId == "" then
      [Folder(id, s.folders[id].createdAt, s.folders[id].fields, [])] + t
    else t
  }

  function AsTop(kids: seq<Leaf>): Tree {
    seq(|kids|, i requires 0 <= i < |kids| => Conv(kids[i]))
  }

  /** The folder goes; its children come to the front of the root, in their order. */
  function OnFolderDeleted(t: Tree, id: string): Tree {
    match FindFolder(t, id)
    case None => t
    case Some(f) => AsTop(t[f].kids) + RemoveAt(t, f)
  }

  function OnFolderUpdated(t: Tree, s: Store, id: string): Tree {
    match FindFolder(t, id)
    case None => OnFolderCreated(t, s, id)
    case Some(f) => if id in s.folders then t[f := t[f].(fields := s.folders[id].fields)] else OnFolderDeleted(t, id)
  }

  // ------------------------------------------------------------------ counting what is shown

  function One(b: bool): nat {
    if b then 1 else 0
  }

  function KidCount(kids: seq<Leaf>, leaf: Leaf): nat {
    if kids == [] then 0 else One(kids[0] == leaf) + KidCount(kids[1..], leaf)
  }

  function ShownBy(item: Item, folderId: string, leaf: Leaf): nat {
    match item
    case Conv(l) => One(folderId == "" && l == leaf)
    case Folder(id, _, _, kids) => if id == folderId then KidCount(kids, leaf) else 0
  }

  /** How often a folder ("" for the root) shows this very leaf. */
  function Shown(t: Tree, folderId: string, leaf: Leaf): nat {
    if t == [] then 0 else ShownBy(t[0], folderId, leaf) + Shown(t[1..], folderId, leaf)
  }

  function LeavesOf(item: Item): nat {
    if item.Conv? then 1 else |item.kids|
  }

  /** The number of conversations shown. */
  function Total(t: Tree): nat {
    if t == [] then 0 else LeavesOf(t[0]) + Total(t[1..])
  }

  function Folders(t: Tree, id: string): nat {
    if t == [] then 0 else One(IsFolder(t[0], id)) + Folders(t[1..], id)
  }

  /** All three counts are sums over the items. */
  lemma {:induction false} CountsAppend(a: Tree, b: Tree, folderId: string, leaf: Leaf)
    ensures Shown(a + b, folderId, leaf) == Shown(a, folderId, leaf) + Shown(b, folderId, leaf)
    ensures Total(a + b) == Total(a) + Total(b)
    ensures Folders(a + b, folderId) == Folders(a, folderId) + Folders(b, folderId)
  {
    if a == [] {
      assert a + b == b;
    } else {
      CountsAppend(a[1..], b, folderId, leaf);
      assert (a + b)[1..] == a[1..] + b;
    }
  }

  /** The counts of a tree, seen from one of its items. */
  lemma CountsAround(t: Tree, i: nat, folderId: string, leaf: Leaf)
    requires i < |t|
    ensures Shown(t, folderId, leaf) == ShownBy(t[i], folderId, leaf) + Shown(RemoveAt(t, i), folderId, leaf)
    ensures Total(t) == LeavesOf(t[i]) + Total(RemoveAt(t, i))
    ensures Folders(t, folderId) == One(IsFolder(t[i], folderId)) + Folders(RemoveAt(t, i), folderId)
  {
    assert t == t[..i] + ([t[i]] + t[i + 1..]);
    assert ([t[i]] + t[i + 1..])[1..] == t[i + 1..];
    CountsAppend(t[..i], [t[i]] + t[i + 1..], folderId, leaf);
    CountsAppend(t[..i], t[i + 1..], folderId, leaf);
  }

  /** Changing one item changes the counts by what it shows. */
  lemma CountsUpdate(t: Tree, i: nat, item: Item, folderId: string, leaf: Leaf)
    requires i < |t|
    ensures Shown(t[i := item], folderId, leaf) + ShownBy(t[i], folderId, leaf)
            == Shown(t, folderId, leaf) + ShownBy(item, folderId, leaf)
    ensures Total(t[i := item]) + LeavesOf(t[i]) == Total(t) + LeavesOf(item)
    ensures Folders(t[i := item], folderId) + One(IsFolder(t[i], folderId))
            == Folders(t, folderId) + One(IsFolder(item, folderId))
  {
    CountsAround(t, i, folderId, leaf);
    CountsAround(t[i := item], i, folderId, leaf);
    assert RemoveAt(t[i := item], i) == RemoveAt(t, i);
  }

  lemma {:induction false} KidCountAppend(a: seq<Leaf>, b: seq<Leaf>, leaf: Leaf)
    ensures KidCount(a + b, leaf) == KidCount(a, leaf) + KidCount(b, leaf)
  {
    if a == [] {
      assert a + b == b;
    } else {
      KidCountAppend(a[1..], b, leaf);
      assert (a + b)[1..] == a[1..] + b;
    }
  }

  lemma KidCountAround(kids: seq<Leaf>, j: nat, leaf: Leaf)
    requires j < |kids|
    ensures KidCount(kids, leaf) == One(kids[j] == leaf) + KidCount(RemoveAt(kids, j), leaf)
  {
    assert kids == kids[..j] + ([kids[j]] + kids[j + 1..]);
    assert ([kids[j]] + kids[j + 1..])[1..] == kids[j + 1..];
    KidCountAppend(kids[..j], [kids[j]] + kids[j + 1..], leaf);
    KidCountAppend(kids[..j], kids[j + 1..], leaf);
  }

  function FolderAt(t: Tree, p: Place): string
    requires IsPlace(t, p)
  {
    match p
    case Top(_) => ""
    case In(i, _) => t[i].id
  }

  /** The folder a conversation put in `folderId` is shown in. */
  function Destination(t: Tree, folderId: string): string {
    if FindFolder(t, folderId).Some? then folderId else ""
  }

  lemma InsertCounts(t: Tree, folderId: string, x: Leaf, g: string, y: Leaf)
    ensures var u := Insert(t, folderId, x);
            && Shown(u, g, y) == Shown(t, g, y) + One(g == Destination(t, folderId) && y == x)
            && Total(u) == Total(t) + 1 && Folders(u, g) == Folders(t, g)
  {
    match FindFolder(t, folderId)
    case None => assert ([Conv(x)] + t)[1..] == t;
    case Some(f) =>
      assert ([x] + t[f].kids)[1..] == t[f].kids;
      CountsUpdate(t, f, t[f].(kids := [x] + t[f].kids), g, y);
  }

  lemma RemoveCounts(t: Tree, p: Place, g: string, y: Leaf)
    requires IsPlace(t, p)
    ensures var u := Remove(t, p);
            && Shown(t, g, y) == Shown(u, g, y) + One(g == FolderAt(t, p) && y == LeafAt(t, p))
            && Total(t) == Total(u) + 1 && Folders(u, g) == Folders(t, g)
  {
    match p
    case Top(i) => CountsAround(t, i, g, y);
    case In(i, j) =>
      KidCountAround(t[i].kids, j, y);
      CountsUpdate(t, i, t[i].(kids := RemoveAt(t[i].kids, j)), g, y);
  }

  lemma ReplaceCounts(t: Tree, p: Place, x: Leaf, g: string, y: Leaf)
    requires IsPlace(t, p)
    ensures var u := Replace(t, p, x);
            && Shown(u, g, y) + One(g == FolderAt(t, p) && y == LeafAt(t, p))
               == Shown(t, g, y) + One(g == FolderAt(t, p) && y == x)
            && Total(u) == Total(t) && Folders(u, g) == Folders(t, g)
  {
    match p
    case Top(i) => CountsUpdate(t, i, Conv(x), g, y);
    case In(i, j) =>
      var kids := t[i].kids;
      KidCountAround(kids, j, y);
      KidCountAround(kids[j := x], j, y);
      assert RemoveAt(kids[j := x], j) == RemoveAt(kids, j);
      CountsUpdate(t, i, t[i].(kids := kids[j := x]), g, y);
  }

  lemma {:induction false} AsTopCounts(kids: seq<Leaf>, g: string, y: Leaf)
    ensures Shown(AsTop(kids), g, y) == if g == "" then KidCount(kids, y) else 0
    ensures Total(AsTop(kids)) == |kids| && Folders(AsTop(kids), g) == 0
  {
    if kids != [] {
      AsTopCounts(kids[1..], g, y);
      assert AsTop(kids)[1..] == AsTop(kids[1..]);
    }
  }

  lemma {:induction false} KidIsCounted(kids: seq<Leaf>, leaf: Leaf)
    ensures KidCount(kids, leaf) > 0 <==> leaf in kids
  {
    if kids != [] {
      KidIsCounted(kids[1..], leaf);
    }
  }

  lemma ShownAt(t: Tree, p: Place)
    requires IsPlace(t, p)
    ensures Shown(t, FolderAt(t, p), LeafAt(t, p)) > 0
  {
    RemoveCounts(t, p, FolderAt(t, p), LeafAt(t, p));
  }

  lemma {:induction false} PlaceOfShown(t: Tree, g: string, y: Leaf) returns (p: Place)
    requires Shown(t, g, y) > 0
    ensures IsPlace(t, p) && LeafAt(t, p) == y && FolderAt(t, p) == g
  {
    if ShownBy(t[0], g, y) > 0 {
      match t[0]
      case Conv(_) => p := Top(0);
      case Folder(_, _, _, kids) =>
        KidIsCounted(kids, y);
        var j :| 0 <= j < |kids| && kids[j] == y;
        p := In(0, j);
    } else {
      var q := PlaceOfShown(t[1..], g, y);
      p := match q case Top(i) => Top(i + 1) case In(i, j) => In(i + 1, j);
    }
  }

  lemma {:induction false} FoundIffCounted(t: Tree, id: string)
    ensures FindFolder(t, id).Some? <==> id != "" && Folders(t, id) > 0
  {
    if t != [] {
      FoundIffCounted(t[1..], id);
    }
  }

  // ------------------------------------------------------------------ agreeing with the store

  /** The row a leaf shown in folder `g` must be. */
  predicate IsRow(s: Store, g: string, y: Leaf) {
    y.id in s.convs && s.convs[y.id].folderId == g && LeafOf(y.id, s.convs[y.id]) == y
  }

  ghost predicate ShowsConvs(t: Tree, s: Store) {
    forall g, y :: Shown(t, g, y) == One(IsRow(s, g, y))
  }

  ghost predicate ShowsFolders(t: Tree, folders: map<string, FolderRow>) {
    && (forall id :: Folders(t, id) == One(id in folders))
    && (forall k | 0 <= k < |t| && t[k].Folder? :: t[k].id in folders && t[k].fields == folders[t[k].id].fields)
  }

  /** The tree shows every row of the store, once, in its folder, and nothing else. */
  ghost predicate Agrees(t: Tree, s: Store) {
    ShowsConvs(t, s) && ShowsFolders(t, s.folders)
  }

  /** What the database guarantees: folders are flat and conversations live in folders
      that exist. */
  predicate Sound(s: Store) {
    && "" !in s.folders && "" !in s.convs
    && (forall id | id in s.folders :: s.folders[id].parentId == "")
    && (forall id | id in s.convs :: s.convs[id].folderId == "" || s.convs[id].folderId in s.folders)
  }

  lemma ShownIsRow(t: Tree, s: Store, p: Place)
    requires ShowsConvs(t, s) && IsPlace(t, p)
    ensures IsRow(s, FolderAt(t, p), LeafAt(t, p))
  {
    ShownAt(t, p);
    assert Shown(t, FolderAt(t, p), LeafAt(t, p)) == One(IsRow(s, FolderAt(t, p), LeafAt(t, p)));
  }

  /** No conversation is shown twice. */
  lemma UniqueIds(t: Tree, s: Store, p: Place, q: Place)
    requires Agrees(t, s) && IsPlace(t, p) && IsPlace(t, q) && LeafAt(t, p).id == LeafAt(t, q).id
    ensures p == q
  {
    ShownIsRow(t, s, p);
    ShownIsRow(t, s, q);
    if p != q {
      RemoveCounts(t, p, FolderAt(t, p), LeafAt(t, p));
      var r := OtherStays(t, p, q);
      ShownAt(Remove(t, p), r);
    }
  }

  /** Removing one leaf leaves every other where it was shown. */
  lemma OtherStays(t: Tree, p: Place, q: Place) returns (r: Place)
    requires IsPlace(t, p) && IsPlace(t, q) && p != q
    ensures var u := Remove(t, p);
            IsPlace(u, r) && LeafAt(u, r) == LeafAt(t, q) && FolderAt(u, r) == FolderAt(t, q)
  {
    match p
    case Top(i) => r := if q.i < i then q else if q.Top? then Top(q.i - 1) else In(q.i - 1, q.j);
    case In(i, j) => r := if q.In? && q.i == i && q.j > j then In(i, q.j - 1) else q;
  }

  /** A folder is shown once, so what it shows is what its one item holds. */
  lemma FolderHolds(t: Tree, f: nat, y: Leaf)
    requires f < |t| && t[f].Folder? && t[f].id != "" && Folders(t, t[f].id) == 1
    ensures Shown(t, t[f].id, y) == KidCount(t[f].kids, y)
  {
    CountsAround(t, f, t[f].id, y);
    NotShown(RemoveAt(t, f), t[f].id, y);
  }

  lemma {:induction false} NotShown(t: Tree, id: string, y: Leaf)
    requires id != "" && Folders(t, id) == 0
    ensures Shown(t, id, y) == 0
  {
    if t != [] {
      NotShown(t[1..], id, y);
    }
  }

  /** Looking a stored conversation up finds it, where its row says; nothing else is found. */
  lemma FoundIsRow(t: Tree, s: Store, id: string)
    requires Agrees(t, s) && Sound(s)
    ensures match FindConv(t, id)
            case None => id !in s.convs
            case Some(p) => IsRow(s, FolderAt(t, p), LeafAt(t, p)) && LeafAt(t, p).id == id
  {
    match FindConv(t, id)
    case None =>
      if id in s.convs {
        var y := LeafOf(id, s.convs[id]);
        assert Shown(t, s.convs[id].folderId, y) == One(IsRow(s, s.convs[id].folderId, y));
        var p := PlaceOfShown(t, s.convs[id].folderId, y);
      }
    case Some(p) =>
      ShownIsRow(t, s, p);
  }

  lemma DestinationIsFolder(t: Tree, s: Store, folderId: string)
    requires ShowsFolders(t, s.folders)
    requires "" !in s.folders && (folderId == "" || folderId in s.folders)
    ensures Destination(t, folderId) == folderId
  {
    FoundIffCounted(t, folderId);
    assert Folders(t, folderId) == One(folderId in s.folders);
  }

  // ------------------------------------------------------------------ changes and their signals

  /** One change of the store; its signal fires right after. */
  datatype Change =
    | ConvCreated(id: string, conv: Conversation)
    | ConvUpdated(id: string, conv: Conversation)
    | ConvDeleted(id: string)
    | FolderCreated(id: string, row: FolderRow)
    | FolderUpdated(id: string, row: FolderRow)
    | FolderDeleted(id: string)

  /** What the service may do: ids are created once, and updated and deleted while they
      exist; the result is again a sound store. */
  predicate Allowed(s: Store, c: Change) {
    && (match c
        case ConvCreated(id, _) => id !in s.convs
        case ConvUpdated(id, _) => id in s.convs
        case ConvDeleted(id) => id in s.convs
        case FolderCreated(id, _) => id !in s.folders
        case FolderUpdated(id, _) => id in s.folders
        case FolderDeleted(id) => id in s.folders)
    && Sound(Applied(s, c))
  }

  /** Deleting a folder sets its conversations' folder to none. */
  function Applied(s: Store, c: Change): Store {
    match c
    case ConvCreated(id, conv) => s.(convs := s.convs[id := conv])
    case ConvUpdated(id, conv) => s.(convs := s.convs[id := conv])
    case ConvDeleted(id) => s.(convs := s.convs - {id})
    case FolderCreated(id, row) => s.(folders := s.folders[id := row])
    case FolderUpdated(id, row) => s.(folders := s.folders[id := row])
    case FolderDeleted(id) =>
      Store(map k | k in s.convs :: if s.convs[k].folderId == id then s.convs[k].(folderId := "") else s.convs[k],
            s.folders - {id})
  }

  function Signalled(t: Tree, s: Store, c: Change): Tree {
    match c
    case ConvCreated(id, _) => OnConvCreated(t, s, id)
    case ConvUpdated(id, _) => OnConvUpdated(t, s, id)
    case ConvDeleted(id) => OnConvDeleted(t, id)
    case FolderCreated(id, _) => OnFolderCreated(t, s, id)
    case FolderUpdated(id, _) => OnFolderUpdated(t, s, id)
    case FolderDeleted(id) => OnFolderDeleted(t, id)
  }

  /** A leaf that only fills a parameter. */
  const ANY: Leaf := Leaf("", Invalid, ConvFields("", 0, "", "", false, false, ""))

  lemma InsertAgrees(t: Tree, s: Store, id: string, conv: Conversation)
    requires Agrees(t, s) && id !in s.convs && Sound(s.(convs := s.convs[id := conv]))
    ensures Agrees(Insert(t, conv.folderId, LeafOf(id, conv)), s.(convs := s.convs[id := conv]))
  {
    var s', x := s.(convs := s.convs[id := conv]), LeafOf(id, conv);
    var u := Insert(t, conv.folderId, x);
    assert id in s'.convs && s'.convs[id] == conv;
    DestinationIsFolder(t, s, conv.folderId);
    forall g, y ensures Shown(u, g, y) == One(IsRow(s', g, y)) {
      InsertCounts(t, conv.folderId, x, g, y);
      assert Shown(t, g, y) == One(IsRow(s, g, y));
    }
    InsertKeepsFolders(t, conv.folderId, x, s.folders);
  }

  lemma InsertKeepsFolders(t: Tree, folderId: string, x: Leaf, folders: map<string, FolderRow>)
    requires ShowsFolders(t, folders)
    ensures ShowsFolders(Insert(t, folderId, x), folders)
  {
    var u := Insert(t, folderId, x);
    forall id ensures Folders(u, id) == One(id in folders) {
      InsertCounts(t, folderId, x, id, x);
    }
    forall k | 0 <= k < |u| && u[k].Folder? ensures u[k].id in folders && u[k].fields == folders[u[k].id].fields {
      var m := if FindFolder(t, folderId).None? then k - 1 else k;
      assert t[m].Folder? && t[m].id == u[k].id && t[m].fields == u[k].fields;
    }
  }

  lemma RemoveAgrees(t: Tree, s: Store, p: Place)
    requires Agrees(t, s) && IsPlace(t, p)
    ensures Agrees(Remove(t, p), s.(convs := s.convs - {LeafAt(t, p).id}))
  {
    RemoveShows(t, s, p);
    RemoveKeepsFolders(t, p, s.folders);
  }

  lemma RemoveShows(t: Tree, s: Store, p: Place)
    requires ShowsConvs(t, s) && IsPlace(t, p)
    ensures ShowsConvs(Remove(t, p), s.(convs := s.convs - {LeafAt(t, p).id}))
  {
    var x := LeafAt(t, p);
    var u, s' := Remove(t, p), s.(convs := s.convs - {x.id});
    ShownIsRow(t, s, p);
    forall g, y ensures Shown(u, g, y) == One(IsRow(s', g, y)) {
      RemoveCounts(t, p, g, y);
      assert Shown(t, g, y) == One(IsRow(s, g, y));
    }
  }

  lemma RemoveKeepsFolders(t: Tree, p: Place, folders: map<string, FolderRow>)
    requires IsPlace(t, p) && ShowsFolders(t, folders)
    ensures ShowsFolders(Remove(t, p), folders)
  {
    var u := Remove(t, p);
    forall id ensures Folders(u, id) == One(id in folders) {
      RemoveCounts(t, p, id, ANY);
    }
    forall k | 0 <= k < |u| && u[k].Folder? ensures u[k].id in folders && u[k].fields == folders[u[k].id].fields {
      var m := if p.Top? && k >= p.i then k + 1 else k;
      assert t[m].Folder? && t[m].id == u[k].id && t[m].fields == u[k].fields;
    }
  }

  lemma ReplaceAgrees(t: Tree, s: Store, p: Place, conv: Conversation)
    requires Agrees(t, s) && IsPlace(t, p) && conv.folderId == FolderAt(t, p)
    ensures var id := LeafAt(t, p).id;
            Agrees(Replace(t, p, LeafOf(id, conv)), s.(convs := s.convs[id := conv]))
  {
    var id := LeafAt(t, p).id;
    var x := LeafOf(id, conv);
    var u, s' := Replace(t, p, x), s.(convs := s.convs[id := conv]);
    ShownIsRow(t, s, p);
    forall g, y ensures Shown(u, g, y) == One(IsRow(s', g, y)) {
      ReplaceCounts(t, p, x, g, y);
      assert Shown(t, g, y) == One(IsRow(s, g, y));
    }
    forall id ensures Folders(u, id) == One(id in s.folders) {
      ReplaceCounts(t, p, x, id, x);
    }
    forall k | 0 <= k < |u| && u[k].Folder? ensures u[k].id in s.folders && u[k].fields == s.folders[u[k].id].fields {
      assert t[k].Folder? && t[k].id == u[k].id && t[k].fields == u[k].fields;
    }
  }

  lemma UpdateAgrees(t: Tree, s: Store, id: string, conv: Conversation)
    requires Agrees(t, s) && Sound(s) && Allowed(s, ConvUpdated(id, conv))
    ensures Agrees(OnConvUpdated(t, Applied(s, ConvUpdated(id, conv)), id), Applied(s, ConvUpdated(id, conv)))
  {
    FoundIsRow(t, s, id);
    var p := FindConv(t, id).value;
    assert id in Applied(s, ConvUpdated(id, conv)).convs;
    DestinationIsFolder(t, s, conv.folderId);
    if BelongsAt(t, p, conv.folderId) && !Before(LeafAt(t, p).updatedAt, conv.updatedAt) {
      ReplaceAgrees(t, s, p, conv);
    } else {
      RemoveAgrees(t, s, p);
      var s1 := s.(convs := s.convs - {id});
      assert s1.convs[id := conv] == s.convs[id := conv];
      InsertAgrees(Remove(t, p), s1, id, conv);
    }
  }

  lemma FolderDeletedAgrees(t: Tree, s: Store, id: string)
    requires Agrees(t, s) && Sound(s) && id in s.folders
    ensures Agrees(OnFolderDeleted(t, id), Applied(s, FolderDeleted(id)))
  {
    assert Folders(t, id) == One(id in s.folders);
    FoundIffCounted(t, id);
    var f := FindFolder(t, id).value;
    var u, s' := OnFolderDeleted(t, id), Applied(s, FolderDeleted(id));
    forall g, y ensures Shown(u, g, y) == One(IsRow(s', g, y)) {
      AsTopCounts(t[f].kids, g, y);
      CountsAround(t, f, g, y);
      CountsAppend(AsTop(t[f].kids), RemoveAt(t, f), g, y);
      FolderHolds(t, f, y);
      assert Shown(t, g, y) == One(IsRow(s, g, y)) && Shown(t, id, y) == One(IsRow(s, id, y));
    }
    FolderDeletedFolders(t, s, f);
  }

  lemma FolderDeletedTotal(t: Tree, f: nat)
    requires f < |t| && t[f].Folder?
    ensures Total(AsTop(t[f].kids) + RemoveAt(t, f)) == Total(t)
  {
    AsTopCounts(t[f].kids, "", ANY);
    CountsAround(t, f, "", ANY);
    CountsAppend(AsTop(t[f].kids), RemoveAt(t, f), "", ANY);
  }

  lemma FolderDeletedFolders(t: Tree, s: Store, f: nat)
    requires f < |t| && t[f].Folder? && ShowsFolders(t, s.folders)
    ensures ShowsFolders(AsTop(t[f].kids) + RemoveAt(t, f), s.folders - {t[f].id})
  {
    var u, folders := AsTop(t[f].kids) + RemoveAt(t, f), s.folders - {t[f].id};
    forall id ensures Folders(u, id) == One(id in folders) {
      AsTopCounts(t[f].kids, id, ANY);
      CountsAround(t, f, id, ANY);
      CountsAppend(AsTop(t[f].kids), RemoveAt(t, f), id, ANY);
      assert Folders(t, id) == One(id in s.folders);
    }
    forall k | 0 <= k < |u| && u[k].Folder? ensures u[k].id in folders && u[k].fields == folders[u[k].id].fields {
      var n := k - |t[f].kids|;
      var m := if n < f then n else n + 1;
      assert t[m] == u[k] && m != f;
      assert Folders(t, t[f].id) == One(t[f].id in s.folders);
      NoSecondFolder(t, f, m);
    }
  }

  lemma NoSecondFolder(t: Tree, f: nat, k: nat)
    requires f < |t| && k < |t| && f != k && t[f].Folder? && Folders(t, t[f].id) <= 1
    ensures !IsFolder(t[k], t[f].id)
  {
    var r := RemoveAt(t, f);
    CountsAround(t, f, t[f].id, ANY);
    var k' := if k < f then k else k - 1;
    assert r[k'] == t[k];
    CountsAround(r, k', t[f].id, ANY);
  }

  lemma FolderCreatedAgrees(t: Tree, s: Store, id: string, row: FolderRow)
    requires Agrees(t, s) && Allowed(s, FolderCreated(id, row)) && Sound(s)
    ensures Agrees(OnFolderCreated(t, Applied(s, FolderCreated(id, row)), id), Applied(s, FolderCreated(id, row)))
  {
    var s' := Applied(s, FolderCreated(id, row));
    var item := Folder(id, row.createdAt, row.fields, []);
    var u := [item] + t;
    assert s'.folders[id].parentId == "";
    assert u[1..] == t;
    forall g, y ensures Shown(u, g, y) == One(IsRow(s', g, y)) {
      assert Shown(t, g, y) == One(IsRow(s, g, y));
    }
    forall g ensures Folders(u, g) == One(g in s'.folders) {
      assert Folders(t, g) == One(g in s.folders);
    }
    forall k | 0 <= k < |u| && u[k].Folder? ensures u[k].id in s'.folders && u[k].fields == s'.folders[u[k].id].fields {
      if k > 0 {
        assert u[k] == t[k - 1];
      }
    }
  }

  lemma FolderUpdatedAgrees(t: Tree, s: Store, id: string, row: FolderRow)
    requires Agrees(t, s) && Sound(s) && id in s.folders
    ensures Agrees(OnFolderUpdated(t, Applied(s, FolderUpdated(id, row)), id), Applied(s, FolderUpdated(id, row)))
  {
    assert Folders(t, id) == One(id in s.folders);
    FoundIffCounted(t, id);
    var f := FindFolder(t, id).value;
    var s' := Applied(s, FolderUpdated(id, row));
    var item := t[f].(fields := row.fields);
    var u := t[f := item];
    forall g, y ensures Shown(u, g, y) == One(IsRow(s', g, y)) {
      CountsUpdate(t, f, item, g, y);
      assert Shown(t, g, y) == One(IsRow(s, g, y));
    }
    forall g ensures Folders(u, g) == One(g in s'.folders) {
      CountsUpdate(t, f, item, g, ANY);
      assert Folders(t, g) == One(g in s.folders);
    }
    forall k | 0 <= k < |u| && u[k].Folder? ensures u[k].id in s'.folders && u[k].fields == s'.folders[u[k].id].fields {
      if k != f {
        assert u[k] == t[k];
        NoSecondFolder(t, f, k);
      }
    }
  }

  /** The tree goes on agreeing through every allowed change of the store it agrees with. */
  lemma SignalAgrees(t: Tree, s: Store, c: Change)
    requires Agrees(t, s) && Sound(s) && Allowed(s, c)
    ensures Agrees(Signalled(t, Applied(s, c), c), Applied(s, c))
  {
    hide Agrees;
    match c
    case ConvCreated(id, conv) => InsertAgrees(t, s, id, conv);
    case ConvUpdated(id, conv) => UpdateAgrees(t, s, id, conv);
    case ConvDeleted(id) =>
      FoundIsRow(t, s, id);
      RemoveAgrees(t, s, FindConv(t, id).value);
    case FolderCreated(id, row) => FolderCreatedAgrees(t, s, id, row);
    case FolderUpdated(id, row) => FolderUpdatedAgrees(t, s, id, row);
    case FolderDeleted(id) => FolderDeletedAgrees(t, s, id);
  }

  /** The number of conversations shown is the number stored. */
  lemma {:induction false} TotalIsStored(t: Tree, s: Store)
    requires ShowsConvs(t, s)
    ensures Total(t) == |s.convs|
    decreases |t|, Total(t)
  {
    if s.convs == map[] {
      NothingShown(t, s);
    } else {
      var id :| id in s.convs;
      var g, y := s.convs[id].folderId, LeafOf(id, s.convs[id]);
      assert Shown(t, g, y) == One(IsRow(s, g, y));
      var p := PlaceOfShown(t, g, y);
      RemoveShows(t, s, p);
      RemoveCounts(t, p, g, y);
      assert |Remove(t, p)| <= |t|;
      assert (s.convs - {id}).Keys == s.convs.Keys - {id};
      TotalIsStored(Remove(t, p), s.(convs := s.convs - {id}));
    }
  }

  lemma NothingShown(t: Tree, s: Store)
    requires ShowsConvs(t, s) && s.convs == map[]
    ensures Total(t) == 0
  {
    if Total(t) > 0 {
      var p := SomePlace(t);
      ShownIsRow(t, s, p);
    }
  }

  lemma {:induction false} SomePlace(t: Tree) returns (p: Place)
    requires Total(t) > 0
    ensures IsPlace(t, p)
  {
    if LeavesOf(t[0]) > 0 {
      p := if t[0].Conv? then Top(0) else In(0, 0);
    } else {
      var q := SomePlace(t[1..]);
      p := match q case Top(i) => Top(i + 1) case In(i, j) => In(i + 1, j);
    }
  }

  // ------------------------------------------------------------------ order inside folders

  /** Most recently updated first. */
  ghost predicate Sorted(kids: seq<Leaf>) {
    forall i, j | 0 <= i < j < |kids| :: !Before(kids[i].updatedAt, kids[j].updatedAt)
  }

  ghost predicate KidsSorted(t: Tree) {
    forall k | 0 <= k < |t| && t[k].Folder? :: Sorted(t[k].kids)
  }

  ghost predicate Freshest(s: Store, time: Time) {
    forall id | id in s.convs :: !Before(time, s.convs[id].updatedAt)
  }

  /** Creations and moves carry the latest time so far, as does every other update that
      changes the time at all. */
  ghost predicate Timely(s: Store, c: Change) {
    match c
    case ConvCreated(_, conv) => Freshest(s, conv.updatedAt)
    case ConvUpdated(id, conv) =>
      Freshest(s, conv.updatedAt)
      || (id in s.convs && conv.folderId == s.convs[id].folderId && conv.updatedAt == s.convs[id].updatedAt)
    case _ => true
  }

  /** The latest time goes in front of any folder. */
  lemma InsertSorted(t: Tree, folderId: string, x: Leaf)
    requires KidsSorted(t)
    requires forall p | IsPlace(t, p) :: !Before(x.updatedAt, LeafAt(t, p).updatedAt)
    ensures KidsSorted(Insert(t, folderId, x))
  {
    match FindFolder(t, folderId)
    case None =>
    case Some(f) =>
      forall j | 0 <= j < |t[f].kids| ensures !Before(x.updatedAt, t[f].kids[j].updatedAt) {
        assert IsPlace(t, In(f, j)) && LeafAt(t, In(f, j)) == t[f].kids[j];
      }
  }

  lemma RemoveSorted(t: Tree, p: Place)
    requires KidsSorted(t) && IsPlace(t, p)
    ensures KidsSorted(Remove(t, p))
  {
  }

  /** Every leaf in a tree left by a removal was in the tree. */
  lemma PlaceBefore(t: Tree, p: Place, q: Place) returns (r: Place)
    requires IsPlace(t, p) && IsPlace(Remove(t, p), q)
    ensures IsPlace(t, r) && LeafAt(t, r) == LeafAt(Remove(t, p), q)
  {
    match p
    case Top(i) =>
      r := if q.i < i then q else if q.Top? then Top(q.i + 1) else In(q.i + 1, q.j);
    case In(i, j) =>
      r := if q.In? && q.i == i && q.j >= j then In(i, q.j + 1) else q;
  }

  lemma FreshestShown(t: Tree, s: Store, time: Time)
    requires Agrees(t, s) && Freshest(s, time)
    ensures forall p | IsPlace(t, p) :: !Before(time, LeafAt(t, p).updatedAt)
  {
    forall p | IsPlace(t, p) ensures !Before(time, LeafAt(t, p).updatedAt) {
      ShownIsRow(t, s, p);
    }
  }

  /** Inside every folder the conversations stay in order. */
  lemma ChangeSorted(t: Tree, s: Store, c: Change)
    requires Agrees(t, s) && Sound(s) && Allowed(s, c)
    requires KidsSorted(t) && Timely(s, c)
    ensures KidsSorted(Signalled(t, Applied(s, c), c))
  {
    hide Agrees, Freshest, Sound, KidsSorted;
    match c
    case ConvCreated(id, conv) =>
      FreshestShown(t, s, conv.updatedAt);
      InsertSorted(t, conv.folderId, LeafOf(id, conv));
    case ConvUpdated(id, conv) => UpdateSorted(t, s, id, conv);
    case ConvDeleted(id) =>
      match FindConv(t, id) {
        case None =>
        case Some(p) => RemoveSorted(t, p);
      }
    case FolderCreated(id, _) => FolderSignalsSorted(t, Applied(s, c), id);
    case FolderUpdated(id, _) => FolderSignalsSorted(t, Applied(s, c), id);
    case FolderDeleted(id) => FolderSignalsSorted(t, Applied(s, c), id);
  }

  lemma FolderSignalsSorted(t: Tree, s: Store, id: string)
    requires KidsSorted(t)
    ensures KidsSorted(OnFolderCreated(t, s, id)) && KidsSorted(OnFolderUpdated(t, s, id))
            && KidsSorted(OnFolderDeleted(t, id))
  {
    assert Sorted([]);
    hide FindFolder, Sorted;
    FolderCreatedSorted(t, s, id);
    match FindFolder(t, id)
    case None =>
    case Some(f) =>
      var u := AsTop(t[f].kids) + RemoveAt(t, f);
      forall k | 0 <= k < |u| && u[k].Folder? ensures Sorted(u[k].kids) {
        var n := k - |t[f].kids|;
        assert u[k] == t[if n < f then n else n + 1];
      }
  }

  lemma FolderCreatedSorted(t: Tree, s: Store, id: string)
    requires KidsSorted(t)
    ensures KidsSorted(OnFolderCreated(t, s, id))
  {
    assert Sorted([]);
    hide Sorted;
  }

  lemma UpdateSorted(t: Tree, s: Store, id: string, conv: Conversation)
    requires Agrees(t, s) && Sound(s) && Allowed(s, ConvUpdated(id, conv))
    requires KidsSorted(t) && Timely(s, ConvUpdated(id, conv))
    ensures KidsSorted(OnConvUpdated(t, Applied(s, ConvUpdated(id, conv)), id))
  {
    FoundIsRow(t, s, id);
    var p, x := FindConv(t, id).value, LeafOf(id, conv);
    assert id in Applied(s, ConvUpdated(id, conv)).convs;
    DestinationIsFolder(t, s, conv.folderId);
    if BelongsAt(t, p, conv.folderId) && !Before(LeafAt(t, p).updatedAt, conv.updatedAt) {
      assert x.updatedAt == LeafAt(t, p).updatedAt;
    } else {
      assert Freshest(s, conv.updatedAt) by { StaysPut(t, s, p, conv); }
      FreshestShown(t, s, conv.updatedAt);
      RemoveSorted(t, p);
      forall q | IsPlace(Remove(t, p), q) ensures !Before(x.updatedAt, LeafAt(Remove(t, p), q).updatedAt) {
        var r := PlaceBefore(t, p, q);
      }
      InsertSorted(Remove(t, p), conv.folderId, x);
    }
  }

  /** A conversation whose folder has not changed is where it belongs. */
  lemma StaysPut(t: Tree, s: Store, p: Place, conv: Conversation)
    requires Agrees(t, s) && Sound(s) && IsPlace(t, p)
    requires conv.folderId == "" || conv.folderId in s.folders
    ensures BelongsAt(t, p, conv.folderId) <==> FolderAt(t, p) == conv.folderId
  {
    ShownIsRow(t, s, p);
    DestinationIsFolder(t, s, conv.folderId);
    if p.In? && FindFolder(t, conv.folderId).Some? && p.i != FindFolder(t, conv.folderId).value {
      assert Folders(t, conv.folderId) == One(conv.folderId in s.folders);
      NoSecondFolder(t, FindFolder(t, conv.folderId).value, p.i);
    }
  }

  // ------------------------------------------------------------------ order at the root

  /** The root's own conversations, most recently updated first. */
  ghost predicate TopSorted(t: Tree) {
    forall i, j | 0 <= i < j < |t| && t[i].Conv? && t[j].Conv? ::
      !Before(t[i].leaf.updatedAt, t[j].leaf.updatedAt)
  }

  lemma InsertTopSorted(t: Tree, folderId: string, x: Leaf)
    requires TopSorted(t)
    requires forall p | IsPlace(t, p) :: !Before(x.updatedAt, LeafAt(t, p).updatedAt)
    ensures TopSorted(Insert(t, folderId, x))
  {
    hide FindFolder;
    forall j | 0 <= j < |t| && t[j].Conv? ensures !Before(x.updatedAt, t[j].leaf.updatedAt) {
      assert IsPlace(t, Top(j)) && LeafAt(t, Top(j)) == t[j].leaf;
    }
  }

  lemma RemoveTopSorted(t: Tree, p: Place)
    requires TopSorted(t) && IsPlace(t, p)
    ensures TopSorted(Remove(t, p))
  {
  }

  lemma UpdateTopSorted(t: Tree, s: Store, id: string, conv: Conversation)
    requires Agrees(t, s) && Sound(s) && Allowed(s, ConvUpdated(id, conv))
    requires TopSorted(t) && Timely(s, ConvUpdated(id, conv))
    ensures TopSorted(OnConvUpdated(t, Applied(s, ConvUpdated(id, conv)), id))
  {
    FoundIsRow(t, s, id);
    var p, x := FindConv(t, id).value, LeafOf(id, conv);
    assert id in Applied(s, ConvUpdated(id, conv)).convs;
    hide FindConv, FindFolder, Agrees;
    if BelongsAt(t, p, conv.folderId) && !Before(LeafAt(t, p).updatedAt, conv.updatedAt) {
      assert x.updatedAt == LeafAt(t, p).updatedAt by { UpdateIsFresh(t, s, p, id, conv); }
    } else {
      UpdateIsFresh(t, s, p, id, conv);
      FreshestShown(t, s, conv.updatedAt);
      RemoveTopSorted(t, p);
      forall q | IsPlace(Remove(t, p), q) ensures !Before(x.updatedAt, LeafAt(Remove(t, p), q).updatedAt) {
        var r := PlaceBefore(t, p, q);
      }
      InsertTopSorted(Remove(t, p), conv.folderId, x);
    }
  }

  /** A timely update that is not replaced where it is carries the latest time; one that is
      leaves the time as it was. */
  lemma UpdateIsFresh(t: Tree, s: Store, p: Place, id: string, conv: Conversation)
    requires Agrees(t, s) && Sound(s) && Allowed(s, ConvUpdated(id, conv)) && Timely(s, ConvUpdated(id, conv))
    requires IsPlace(t, p) && LeafAt(t, p).id == id
    ensures if BelongsAt(t, p, conv.folderId) && !Before(LeafAt(t, p).updatedAt, conv.updatedAt)
            then conv.updatedAt == LeafAt(t, p).updatedAt else Freshest(s, conv.updatedAt)
  {
    ShownIsRow(t, s, p);
    assert id in Applied(s, ConvUpdated(id, conv)).convs;
    StaysPut(t, s, p, conv);
  }

  /** Every conversation of the folder was updated no earlier than any at the root. */
  ghost predicate JoinsInOrder(s: Store, id: string) {
    forall a, b | a in s.convs && b in s.convs && s.convs[a].folderId == id && s.convs[b].folderId == "" ::
      !Before(s.convs[a].updatedAt, s.convs[b].updatedAt)
  }

  /** No conversation of `a` is older than one of `b`. */
  ghost predicate Leads(a: Tree, b: Tree) {
    forall i, j | 0 <= i < |a| && 0 <= j < |b| && a[i].Conv? && b[j].Conv? ::
      !Before(a[i].leaf.updatedAt, b[j].leaf.updatedAt)
  }

  lemma KidsLeadIff(t: Tree, s: Store, f: nat)
    requires Agrees(t, s) && "" !in s.folders && f < |t| && t[f].Folder?
    ensures Leads(AsTop(t[f].kids), t) <==> JoinsInOrder(s, t[f].id)
  {
    var id, kids := t[f].id, t[f].kids;
    if Leads(AsTop(kids), t) {
      forall a, b | a in s.convs && b in s.convs && s.convs[a].folderId == id && s.convs[b].folderId == ""
        ensures !Before(s.convs[a].updatedAt, s.convs[b].updatedAt)
      {
        var p := RowIsShown(t, s, a);
        var q := RowIsShown(t, s, b);
        assert q.Top?;
        assert Folders(t, id) == One(id in s.folders);
        if p.i != f {
          NoSecondFolder(t, f, p.i);
        }
        assert AsTop(kids)[p.j] == Conv(kids[p.j]);
      }
    } else {
      var j, k :| 0 <= j < |kids| && 0 <= k < |t| && t[k].Conv? && Before(kids[j].updatedAt, t[k].leaf.updatedAt);
      ShownIsRow(t, s, In(f, j));
      ShownIsRow(t, s, Top(k));
    }
  }

  lemma RowIsShown(t: Tree, s: Store, id: string) returns (p: Place)
    requires ShowsConvs(t, s) && id in s.convs
    ensures IsPlace(t, p) && FolderAt(t, p) == s.convs[id].folderId && LeafAt(t, p) == LeafOf(id, s.convs[id])
  {
    var y := LeafOf(id, s.convs[id]);
    assert Shown(t, s.convs[id].folderId, y) == One(IsRow(s, s.convs[id].folderId, y));
    p := PlaceOfShown(t, s.convs[id].folderId, y);
  }

  lemma RemoveKeepsTop(t: Tree, f: nat, kids: seq<Leaf>)
    requires f < |t| && t[f].Folder? && TopSorted(t)
    ensures TopSorted(RemoveAt(t, f))
    ensures Leads(AsTop(kids), RemoveAt(t, f)) <==> Leads(AsTop(kids), t)
  {
    var rest := RemoveAt(t, f);
    assert forall k | 0 <= k < |t| && k != f :: t[k] == rest[if k < f then k else k - 1];
  }

  lemma TopSortedAppend(a: Tree, b: Tree)
    ensures TopSorted(a + b) <==> TopSorted(a) && TopSorted(b) && Leads(a, b)
  {
    assert forall i | 0 <= i < |a| :: (a + b)[i] == a[i];
    assert forall j | 0 <= j < |b| :: (a + b)[|a| + j] == b[j];
  }

  /** The children put in front of a sorted root leave it sorted if and only if none of
      them is older than a conversation already there. */
  lemma KidsLeadSorts(t: Tree, f: nat)
    requires f < |t| && t[f].Folder? && TopSorted(t) && Sorted(t[f].kids)
    ensures TopSorted(AsTop(t[f].kids) + RemoveAt(t, f)) <==> Leads(AsTop(t[f].kids), t)
  {
    var kids, rest := t[f].kids, RemoveAt(t, f);
    assert TopSorted(AsTop(kids));
    RemoveKeepsTop(t, f, kids);
    TopSortedAppend(AsTop(kids), rest);
  }

  /** Deleting a folder keeps the root in order if and only if its conversations join it
      in order. */
  lemma FolderDeletedSortsIff(t: Tree, s: Store, id: string)
    requires Agrees(t, s) && Sound(s) && id in s.folders && TopSorted(t) && KidsSorted(t)
    ensures TopSorted(OnFolderDeleted(t, id)) <==> JoinsInOrder(s, id)
  {
    assert Folders(t, id) == One(id in s.folders);
    FoundIffCounted(t, id);
    var f := FindFolder(t, id).value;
    KidsLeadSorts(t, f);
    KidsLeadIff(t, s, f);
  }

  /** That can fail: with an older conversation in the folder than at the root, the deletion
      puts it in front. */
  lemma DeletionUnsorts(row: FolderRow, fields: ConvFields) returns (s: Store, t: Tree)
    requires row.parentId == ""
    ensures Sound(s) && Agrees(t, s) && "f" in s.folders && TopSorted(t) && KidsSorted(t)
    ensures !TopSorted(OnFolderDeleted(t, "f"))
  {
    var older, newer := Conversation("f", Valid(1), fields), Conversation("", Valid(2), fields);
    s := Store(map["a" := older, "b" := newer], map["f" := row]);
    var x, y := LeafOf("a", older), LeafOf("b", newer);
    var item := Folder("f", row.createdAt, row.fields, [x]);
    t := [item, Conv(y)];
    assert t[1..] == [Conv(y)] && [Conv(y)][1..] == [] && [x][1..] == [];
    forall g, z ensures Shown(t, g, z) == One(IsRow(s, g, z)) {
      assert Shown([Conv(y)], g, z) == One(g == "" && y == z);
      assert KidCount([x], z) == One(x == z);
    }
    forall id ensures Folders(t, id) == One(id in s.folders) {
      assert Folders([Conv(y)], id) == 0;
    }
    FolderDeletedSortsIff(t, s, "f");
    assert "a" in s.convs && "b" in s.convs;
  }

  /** The conversations at the root stay in order. */
  lemma ChangeTopSorted(t: Tree, s: Store, c: Change)
    requires Agrees(t, s) && Sound(s) && Allowed(s, c) && Timely(s, c)
    requires KidsSorted(t) && TopSorted(t)
    ensures TopSorted(Signalled(t, Applied(s, c), c)) <==> (c.FolderDeleted? ==> JoinsInOrder(s, c.id))
  {
    hide Agrees, Freshest, Sound, KidsSorted, TopSorted, JoinsInOrder;
    match c
    case ConvCreated(id, conv) =>
      FreshestShown(t, s, conv.updatedAt);
      InsertTopSorted(t, conv.folderId, LeafOf(id, conv));
    case ConvUpdated(id, conv) => UpdateTopSorted(t, s, id, conv);
    case ConvDeleted(id) =>
      match FindConv(t, id) {
        case None =>
        case Some(p) => RemoveTopSorted(t, p);
      }
    case FolderCreated(id, _) => FolderPutTopSorted(t, Applied(s, c), id);
    case FolderUpdated(id, _) => FolderPutTopSorted(t, Applied(s, c), id);
    case FolderDeleted(id) => FolderDeletedSortsIff(t, s, id);
  }

  lemma FolderPutTopSorted(t: Tree, s: Store, id: string)
    requires TopSorted(t)
    ensures TopSorted(OnFolderCreated(t, s, id)) && (id in s.folders ==> TopSorted(OnFolderUpdated(t, s, id)))
  {
    hide FindFolder;
  }

  // ------------------------------------------------------------------ writes without a signal

  /** Two stores that differ in fields only: the same conversations in the same folders. */
  ghost predicate SamePlaces(seen: Store, s: Store) {
    && seen.convs.Keys == s.convs.Keys && seen.folders.Keys == s.folders.Keys
    && (forall id | id in s.convs :: seen.convs[id].folderId == s.convs[id].folderId)
    && (forall id | id in s.folders :: seen.folders[id].parentId == s.folders[id].parentId)
  }

  /** A handler reads no row but that of its signal, so it does what it would do with rows as
      they were when last told of. */
  lemma SignalReadsOwnRow(t: Tree, seen: Store, s: Store, c: Change)
    requires SamePlaces(seen, s) && Allowed(s, c)
    ensures Allowed(seen, c) && SamePlaces(Applied(seen, c), Applied(s, c))
    ensures Signalled(t, Applied(s, c), c) == Signalled(t, Applied(seen, c), c)
  {
    AppliedPlaces(seen, s, c);
    hide SamePlaces, Sound, FindConv, FindFolder, Refreshed, Insert;
  }

  lemma AppliedPlaces(seen: Store, s: Store, c: Change)
    requires SamePlaces(seen, s) && Allowed(s, c)
    ensures Allowed(seen, c) && SamePlaces(Applied(seen, c), Applied(s, c))
  {
    assert forall id :: id in seen.convs <==> id in s.convs;
    assert forall id :: id in seen.folders <==> id in s.folders;
    SoundPlaces(Applied(seen, c), Applied(s, c));
  }

  lemma SoundPlaces(seen: Store, s: Store)
    requires SamePlaces(seen, s)
    ensures Sound(seen) <==> Sound(s)
  {
    assert forall id :: id in seen.convs <==> id in s.convs;
    assert forall id :: id in seen.folders <==> id in s.folders;
  }

  /** The tree agrees with `seen`, each row as it was when last told of. Whatever rows were
      written since, a change and its signal keep it so. */
  lemma ChangeAgrees(t: Tree, seen: Store, s: Store, c: Change)
    requires Agrees(t, seen) && SamePlaces(seen, s) && Sound(s) && Allowed(s, c)
    ensures Agrees(Signalled(t, Applied(s, c), c), Applied(seen, c)) && SamePlaces(Applied(seen, c), Applied(s, c))
  {
    SoundPlaces(seen, s);
    SignalReadsOwnRow(t, seen, s, c);
    hide Agrees, SamePlaces, Sound, Allowed, Signalled, Applied;
    SignalAgrees(t, seen, c);
  }

  /** The tree shows every stored conversation, in one place, in its folder, and nothing else;
      and every folder once. */
  ghost predicate ShowsPlaces(t: Tree, s: Store) {
    && (forall p | IsPlace(t, p) :: LeafAt(t, p).id in s.convs && s.convs[LeafAt(t, p).id].folderId == FolderAt(t, p))
    && (forall p, q | IsPlace(t, p) && IsPlace(t, q) && LeafAt(t, p).id == LeafAt(t, q).id :: p == q)
    && (forall id | id in s.convs :: exists p :: IsPlace(t, p) && LeafAt(t, p).id == id)
    && (forall k | 0 <= k < |t| && t[k].Folder? :: t[k].id in s.folders)
    && (forall k, l | 0 <= k < l < |t| && t[k].Folder? && t[l].Folder? :: t[k].id != t[l].id)
    && (forall id | id in s.folders :: exists k :: 0 <= k < |t| && IsFolder(t[k], id))
    && Total(t) == |s.convs|
  }

  lemma FolderTwice(t: Tree, k: nat, l: nat)
    requires k < l < |t| && t[k].Folder? && t[l].Folder? && t[k].id == t[l].id
    ensures Folders(t, t[k].id) >= 2
  {
    CountsAround(t, k, t[k].id, ANY);
    assert RemoveAt(t, k)[l - 1] == t[l];
    CountsAround(RemoveAt(t, k), l - 1, t[k].id, ANY);
  }

  /** Every folder is shown once, and nothing else as one. */
  lemma FoldersAreShown(t: Tree, s: Store)
    requires ShowsFolders(t, s.folders) && "" !in s.folders
    ensures forall k | 0 <= k < |t| && t[k].Folder? :: t[k].id in s.folders
    ensures forall k, l | 0 <= k < l < |t| && t[k].Folder? && t[l].Folder? :: t[k].id != t[l].id
    ensures forall id | id in s.folders :: exists k :: 0 <= k < |t| && IsFolder(t[k], id)
  {
    forall k, l | 0 <= k < l < |t| && t[k].Folder? && t[l].Folder? ensures t[k].id != t[l].id {
      if t[k].id == t[l].id {
        FolderTwice(t, k, l);
      }
    }
    forall id | id in s.folders ensures exists k :: 0 <= k < |t| && IsFolder(t[k], id) {
      assert Folders(t, id) == One(id in s.folders);
      FoundIffCounted(t, id);
      assert IsFolder(t[FindFolder(t, id).value], id);
    }
  }

  /** That needs no field to be shown as it is stored. */
  lemma PlacesAreShown(t: Tree, seen: Store, s: Store)
    requires Agrees(t, seen) && SamePlaces(seen, s) && Sound(s)
    ensures ShowsPlaces(t, s)
  {
    TotalIsStored(t, seen);
    FoldersAreShown(t, seen);
    hide Folders, Total, Shown, FindFolder, FindConv;
    assert |seen.convs| == |seen.convs.Keys| && |s.convs| == |s.convs.Keys|;
    forall p | IsPlace(t, p)
      ensures LeafAt(t, p).id in s.convs && s.convs[LeafAt(t, p).id].folderId == FolderAt(t, p)
    {
      ShownIsRow(t, seen, p);
    }
    forall p, q | IsPlace(t, p) && IsPlace(t, q) && LeafAt(t, p).id == LeafAt(t, q).id ensures p == q {
      UniqueIds(t, seen, p, q);
    }
    forall id | id in s.convs ensures exists p :: IsPlace(t, p) && LeafAt(t, p).id == id {
      var p := RowIsShown(t, seen, id);
    }
  }

  /** A conversation shown as this row has it. */
  predicate IsAsStored(y: Leaf, id: string, c: Conversation) {
    y.id == id && y.updatedAt == c.updatedAt && y.fields == c.fields
  }

  /** The conversation is shown with the very fields it is stored with. */
  ghost predicate ShowsRow(t: Tree, s: Store, id: string) {
    id in s.convs && exists p :: IsPlace(t, p) && IsAsStored(LeafAt(t, p), id, s.convs[id])
  }

  /** So is the folder. */
  ghost predicate ShowsFolderRow(t: Tree, s: Store, id: string) {
    id in s.folders && exists k :: 0 <= k < |t| && IsFolder(t[k], id) && t[k].fields == s.folders[id].fields
  }

  /** So is one whose own signal was the last. */
  lemma OwnRowIsShown(t: Tree, seen: Store, s: Store, c: Change)
    requires Agrees(t, Applied(seen, c)) && SamePlaces(Applied(seen, c), Applied(s, c))
    requires c.ConvCreated? || c.ConvUpdated?
    ensures ShowsRow(t, Applied(s, c), c.id)
  {
    assert c.id in Applied(seen, c).convs;
    var p := RowIsShown(t, Applied(seen, c), c.id);
  }

  lemma OwnFolderIsShown(t: Tree, seen: Store, s: Store, c: Change)
    requires Agrees(t, Applied(seen, c)) && c.id != ""
    requires c.FolderCreated? || c.FolderUpdated?
    ensures ShowsFolderRow(t, Applied(s, c), c.id)
  {
    assert Folders(t, c.id) == One(c.id in Applied(seen, c).folders);
    FoundIffCounted(t, c.id);
    var k := FindFolder(t, c.id).value;
    assert IsFolder(t[k], c.id);
  }

  /** A created top-level folder is shown first, empty and with its row's own fields. */
  lemma FolderComesFirst(t: Tree, s: Store, id: string)
    requires id in s.folders && s.folders[id].parentId == ""
    ensures var u := OnFolderCreated(t, s, id);
            && |u| == |t| + 1 && u[1..] == t && IsFolder(u[0], id) && u[0].kids == []
            && u[0].createdAt == s.folders[id].createdAt && u[0].fields == s.folders[id].fields
  {}

  // ------------------------------------------------------------------ whole runs

  /** What happens to the store: a change followed by its signal, or a write of one row that
      fires none and moves nothing. */
  datatype Event =
    | Loud(change: Change)
    | Silent(id: string, conv: Conversation)
    | SilentFolder(id: string, row: FolderRow)

  /** The store, each row as it was when last told of, and the tree. */
  datatype World = World(store: Store, seen: Store, tree: Tree)

  function Happened(w: World, e: Event): World {
    match e
    case Loud(c) => World(Applied(w.store, c), Applied(w.seen, c), Signalled(w.tree, Applied(w.store, c), c))
    case Silent(id, conv) => w.(store := w.store.(convs := w.store.convs[id := conv]))
    case SilentFolder(id, row) => w.(store := w.store.(folders := w.store.folders[id := row]))
  }

  predicate MayHappen(s: Store, e: Event) {
    match e
    case Loud(c) => Allowed(s, c)
    case Silent(id, conv) => id in s.convs && conv.folderId == s.convs[id].folderId
    case SilentFolder(id, row) => id in s.folders && row.parentId == s.folders[id].parentId
  }

  function Run(w: World, es: seq<Event>): World {
    if es == [] then w else Happened(Run(w, es[..|es| - 1]), es[|es| - 1])
  }

  /** Every event may happen where the ones before it have led. */
  predicate AllMay(w: World, es: seq<Event>) {
    es == [] || (AllMay(w, es[..|es| - 1]) && MayHappen(Run(w, es[..|es| - 1]).store, es[|es| - 1]))
  }

  ghost predicate Consistent(w: World) {
    Sound(w.store) && Agrees(w.tree, w.seen) && SamePlaces(w.seen, w.store)
  }

  lemma HappenedKeeps(w: World, e: Event)
    requires Consistent(w) && MayHappen(w.store, e)
    ensures Consistent(Happened(w, e))
  {
    match e
    case Loud(c) =>
      hide Agrees, SamePlaces, Signalled, Applied, Sound;
      ChangeAgrees(w.tree, w.seen, w.store, c);
    case _ =>
      SilentKeepsPlaces(w, e);
      hide Agrees, SamePlaces, Sound, MayHappen, Happened;
      assert Happened(w, e).tree == w.tree && Happened(w, e).seen == w.seen;
  }

  lemma SilentKeepsPlaces(w: World, e: Event)
    requires SamePlaces(w.seen, w.store) && Sound(w.store) && MayHappen(w.store, e) && !e.Loud?
    ensures SamePlaces(w.seen, Happened(w, e).store) && Sound(Happened(w, e).store)
    ensures Happened(w, e).tree == w.tree && Happened(w, e).seen == w.seen
  {
    var s := Happened(w, e).store;
    assert s.convs.Keys == w.store.convs.Keys && s.folders.Keys == w.store.folders.Keys;
    assert forall id :: id in w.seen.convs <==> id in w.store.convs;
    assert forall id :: id in w.seen.folders <==> id in w.store.folders;
    SoundPlaces(w.seen, w.store);
    SoundPlaces(w.seen, s);
  }

  /** Through any run of changes and silent writes the tree shows the stored conversations
      where they are stored, once each, and as many as there are. */
  lemma {:induction false} RunAgrees(w: World, es: seq<Event>)
    requires Consistent(w) && AllMay(w, es)
    ensures Consistent(Run(w, es)) && ShowsPlaces(Run(w, es).tree, Run(w, es).store)
  {
    hide Consistent, Happened, MayHappen, ShowsPlaces;
    if es != [] {
      var n := |es| - 1;
      RunAgrees(w, es[..n]);
      HappenedKeeps(Run(w, es[..n]), es[n]);
    }
    ConsistentShows(Run(w, es));
  }

  lemma ConsistentShows(w: World)
    requires Consistent(w)
    ensures ShowsPlaces(w.tree, w.store)
  {
    hide Agrees, SamePlaces, ShowsPlaces, Sound;
    PlacesAreShown(w.tree, w.seen, w.store);
  }

  lemma AgreesShows(t: Tree, s: Store)
    requires Agrees(t, s)
    ensures ShowsConvs(t, s)
  {
  }

  /** The signal of this conversation's own row. */
  predicate Tells(e: Event, id: string) {
    e.Loud? && (e.change.ConvCreated? || e.change.ConvUpdated?) && e.change.id == id
  }

  /** No silent write of this conversation's row since its last signal, or since the start. */
  predicate Quiet(es: seq<Event>, id: string) {
    es == [] || Tells(es[|es| - 1], id)
    || (Quiet(es[..|es| - 1], id) && !(es[|es| - 1].Silent? && es[|es| - 1].id == id))
  }

  lemma {:induction false} QuietIsSeen(w: World, es: seq<Event>, id: string)
    requires Consistent(w) && AllMay(w, es) && w.seen == w.store && Quiet(es, id)
    ensures id in Run(w, es).store.convs ==>
              id in Run(w, es).seen.convs && Run(w, es).seen.convs[id] == Run(w, es).store.convs[id]
  {
    hide Consistent, Happened, MayHappen, ShowsPlaces, Tells;
    if es != [] {
      var init, e := es[..|es| - 1], es[|es| - 1];
      RunAgrees(w, init);
      if Quiet(init, id) {
        QuietIsSeen(w, init, id);
      }
      QuietStep(Run(w, init), e, id);
    }
  }

  lemma QuietStep(w: World, e: Event, id: string)
    requires Consistent(w) && MayHappen(w.store, e)
    requires Tells(e, id)
             || (!(e.Silent? && e.id == id)
                 && (id in w.store.convs ==> id in w.seen.convs && w.seen.convs[id] == w.store.convs[id]))
    ensures var end := Happened(w, e);
            id in end.store.convs ==> id in end.seen.convs && end.seen.convs[id] == end.store.convs[id]
  {
    hide Agrees, Signalled, Sound;
  }

  /** Right after its own signal, and until its row is written silently, a conversation is
      shown exactly as it is stored. */
  lemma ShownAsStored(w: World, es: seq<Event>, id: string) returns (p: Place)
    requires Consistent(w) && AllMay(w, es) && w.seen == w.store && Quiet(es, id)
    requires id in Run(w, es).store.convs
    ensures var end := Run(w, es);
            && IsPlace(end.tree, p) && IsAsStored(LeafAt(end.tree, p), id, end.store.convs[id])
            && FolderAt(end.tree, p) == end.store.convs[id].folderId
  {
    RunAgrees(w, es);
    QuietIsSeen(w, es, id);
    hide Run, AllMay, Quiet, ShowsPlaces, Sound, SamePlaces;
    p := RowIsShown(Run(w, es).tree, Run(w, es).seen, id);
  }

  /** A silent write is not shown: the tree is as old as its row's last signal. */
  lemma SilentIsNotShown(w: World, id: string, conv: Conversation) returns (p: Place)
    requires Consistent(w) && MayHappen(w.store, Silent(id, conv))
    ensures var end := Happened(w, Silent(id, conv));
            && id in w.seen.convs && IsPlace(end.tree, p) && IsAsStored(LeafAt(end.tree, p), id, w.seen.convs[id])
            && end.store.convs[id] == conv
  {
    assert id in w.seen.convs;
    p := RowIsShown(w.tree, w.seen, id);
  }

  // ------------------------------------------------------------------ order over whole runs

  /** Signalled times, measured against the rows told of. */
  ghost predicate AllTimely(w: World, es: seq<Event>) {
    es == [] || (AllTimely(w, es[..|es| - 1]) && IsTimely(Run(w, es[..|es| - 1]), es[|es| - 1]))
  }

  ghost predicate IsTimely(w: World, e: Event) {
    e.Loud? ==> Timely(w.seen, e.change)
  }

  lemma SeenIsSound(w: World)
    requires Consistent(w)
    ensures Sound(w.seen)
  {
    hide Agrees;
    SoundPlaces(w.seen, w.store);
  }

  lemma HappenedSorted(w: World, e: Event)
    requires Consistent(w) && MayHappen(w.store, e) && IsTimely(w, e)
    requires KidsSorted(w.tree)
    ensures KidsSorted(Happened(w, e).tree)
  {
    SeenIsSound(w);
    hide Agrees, KidsSorted, Timely, Signalled, Applied, Sound, SamePlaces, Allowed;
    if e.Loud? {
      SignalReadsOwnRow(w.tree, w.seen, w.store, e.change);
      ChangeSorted(w.tree, w.seen, e.change);
    }
  }

  /** If times are as a clock would set them, every folder stays in order. */
  lemma {:induction false} RunSorted(w: World, es: seq<Event>)
    requires Consistent(w) && KidsSorted(w.tree) && AllMay(w, es) && AllTimely(w, es)
    ensures KidsSorted(Run(w, es).tree)
  {
    hide Consistent, Happened, KidsSorted, IsTimely, MayHappen, ShowsPlaces;
    if es != [] {
      var n := |es| - 1;
      RunAgrees(w, es[..n]);
      RunSorted(w, es[..n]);
      HappenedSorted(Run(w, es[..n]), es[n]);
    }
  }

  /** Folders are deleted only when their conversations join the root in order. */
  ghost predicate AllJoin(w: World, es: seq<Event>) {
    es == [] || (AllJoin(w, es[..|es| - 1]) && Joins(Run(w, es[..|es| - 1]), es[|es| - 1]))
  }

  ghost predicate Joins(w: World, e: Event) {
    e.Loud? && e.change.FolderDeleted? ==> JoinsInOrder(w.seen, e.change.id)
  }

  lemma HappenedTopSorted(w: World, e: Event)
    requires Consistent(w) && MayHappen(w.store, e) && IsTimely(w, e)
    requires KidsSorted(w.tree) && TopSorted(w.tree) && Joins(w, e)
    ensures TopSorted(Happened(w, e).tree)
  {
    SeenIsSound(w);
    hide Agrees, KidsSorted, TopSorted, Timely, Signalled, Applied, Sound, SamePlaces, Allowed, JoinsInOrder;
    if e.Loud? {
      SignalReadsOwnRow(w.tree, w.seen, w.store, e.change);
      ChangeTopSorted(w.tree, w.seen, e.change);
    }
  }

  /** Then the root stays in order, too; a run that deletes no folder always keeps it so. */
  lemma {:induction false} RunTopSorted(w: World, es: seq<Event>)
    requires Consistent(w) && KidsSorted(w.tree) && TopSorted(w.tree)
    requires AllMay(w, es) && AllTimely(w, es) && AllJoin(w, es)
    ensures TopSorted(Run(w, es).tree)
  {
    hide Consistent, Happened, KidsSorted, TopSorted, IsTimely, MayHappen, ShowsPlaces, Joins;
    if es != [] {
      var n := |es| - 1;
      RunAgrees(w, es[..n]);
      RunSorted(w, es[..n]);
      RunTopSorted(w, es[..n]);
      HappenedTopSorted(Run(w, es[..n]), es[n]);
    }
  }

  /** A clock: signalled times are the latest stored, and silent writes set none back. */
  ghost predicate Clocked(s: Store, e: Event) {
    match e
    case Loud(ConvCreated(_, conv)) => Freshest(s, conv.updatedAt)
    case Loud(ConvUpdated(_, conv)) => Freshest(s, conv.updatedAt)
    case Silent(id, conv) => id in s.convs ==> !Before(conv.updatedAt, s.convs[id].updatedAt)
    case _ => true
  }

  /** No row was told of with a later time than it is stored with. */
  ghost predicate NoLater(w: World) {
    forall id | id in w.store.convs && id in w.seen.convs ::
      !Before(w.store.convs[id].updatedAt, w.seen.convs[id].updatedAt)
  }

  lemma ClockStep(w: World, e: Event)
    requires Consistent(w) && MayHappen(w.store, e) && Clocked(w.store, e) && NoLater(w)
    ensures NoLater(Happened(w, e)) && IsTimely(w, e)
  {
    hide Agrees, Signalled, Sound;
    assert forall id :: id in w.seen.convs <==> id in w.store.convs;
    assert forall id | id in w.store.convs :: !Before(w.store.convs[id].updatedAt, w.seen.convs[id].updatedAt);
  }

  ghost predicate AllClocked(w: World, es: seq<Event>) {
    es == [] || (AllClocked(w, es[..|es| - 1]) && Clocked(Run(w, es[..|es| - 1]).store, es[|es| - 1]))
  }

  /** So a clock makes every run timely. */
  lemma {:induction false} ClockIsTimely(w: World, es: seq<Event>)
    requires Consistent(w) && AllMay(w, es) && AllClocked(w, es) && NoLater(w)
    ensures AllTimely(w, es) && NoLater(Run(w, es))
  {
    hide Consistent, Happened, IsTimely, Clocked, MayHappen, ShowsPlaces, NoLater;
    if es != [] {
      var n := |es| - 1;
      RunAgrees(w, es[..n]);
      ClockIsTimely(w, es[..n]);
      ClockStep(Run(w, es[..n]), es[n]);
    }
  }

  // ------------------------------------------------------------------ the initial load

  /** What the service lists: top-level folders, and the conversations of a folder. */
  datatype Listing = Listing(folders: seq<string>, convs: string -> seq<string>)

  ghost predicate Distinct(ids: seq<string>) {
    forall i, j | 0 <= i < j < |ids| :: ids[i] != ids[j]
  }

  /** Folders and the conversations of each folder are listed once each, the conversations
      most recently updated first. */
  ghost predicate Lists(l: Listing, s: Store) {
    && Distinct(l.folders) && (forall id :: id in l.folders <==> id in s.folders)
    && (forall g :: Distinct(l.convs(g)))
    && (forall g, id :: id in l.convs(g) <==> id in s.convs && s.convs[id].folderId == g)
    && (forall g :: Sorted(LeavesFor(s, l.convs(g))))
  }

  /** The leaves of stored conversations; ids that are not stored show nothing. */
  function LeavesFor(s: Store, ids: seq<string>): seq<Leaf> {
    if ids == [] then [] else
    (if ids[0] in s.convs then [LeafOf(ids[0], s.convs[ids[0]])] else []) + LeavesFor(s, ids[1..])
  }

  function FolderItem(s: Store, l: Listing, id: string): Item
    requires id in s.folders
  {
    Folder(id, s.folders[id].createdAt, s.folders[id].fields, LeavesFor(s, l.convs(id)))
  }

  function FolderItems(s: Store, l: Listing, ids: seq<string>): Tree
    requires forall id | id in ids :: id in s.folders
  {
    if ids == [] then [] else [FolderItem(s, l, ids[0])] + FolderItems(s, l, ids[1..])
  }

  function Built(s: Store, l: Listing): Tree
    requires forall id | id in l.folders :: id in s.folders
  {
    FolderItems(s, l, l.folders) + AsTop(LeavesFor(s, l.convs("")))
  }

  lemma {:induction false} LeavesForCount(s: Store, ids: seq<string>, y: Leaf)
    requires Distinct(ids)
    ensures KidCount(LeavesFor(s, ids), y) == One(y.id in ids && y.id in s.convs && LeafOf(y.id, s.convs[y.id]) == y)
  {
    if ids != [] {
      LeavesForCount(s, ids[1..], y);
      var first := if ids[0] in s.convs then [LeafOf(ids[0], s.convs[ids[0]])] else [];
      KidCountAppend(first, LeavesFor(s, ids[1..]), y);
      assert first != [] ==> first[1..] == [];
      assert y.id in ids <==> y.id == ids[0] || y.id in ids[1..];
    }
  }

  lemma {:induction false} FolderItemsCounts(s: Store, l: Listing, ids: seq<string>, g: string, y: Leaf)
    requires Distinct(ids) && forall id | id in ids :: id in s.folders
    requires "" !in ids
    ensures Shown(FolderItems(s, l, ids), g, y) == if g in ids then KidCount(LeavesFor(s, l.convs(g)), y) else 0
    ensures Folders(FolderItems(s, l, ids), g) == One(g in ids)
  {
    if ids != [] {
      FolderItemsCounts(s, l, ids[1..], g, y);
      var rest := FolderItems(s, l, ids[1..]);
      assert FolderItems(s, l, ids)[1..] == rest;
      assert g in ids <==> g == ids[0] || g in ids[1..];
    }
  }

  lemma {:induction false} FolderItemsAt(s: Store, l: Listing, ids: seq<string>)
    requires forall id | id in ids :: id in s.folders
    ensures var t := FolderItems(s, l, ids);
            |t| == |ids| && forall k | 0 <= k < |ids| :: t[k] == FolderItem(s, l, ids[k])
  {
    if ids != [] {
      FolderItemsAt(s, l, ids[1..]);
    }
  }

  /** The initial load agrees with the store and is in order. */
  lemma BuiltAgrees(s: Store, l: Listing)
    requires Sound(s) && Lists(l, s)
    ensures Agrees(Built(s, l), s) && KidsSorted(Built(s, l)) && TopSorted(Built(s, l))
  {
    var t := Built(s, l);
    forall g, y ensures Shown(t, g, y) == One(IsRow(s, g, y)) && Folders(t, g) == One(g in s.folders) {
      BuiltCounts(s, l, g, y);
    }
    forall g ensures Folders(t, g) == One(g in s.folders) {
      BuiltCounts(s, l, g, ANY);
    }
    FolderItemsAt(s, l, l.folders);
    forall k | 0 <= k < |t| && t[k].Folder?
      ensures Sorted(t[k].kids) && t[k].id in s.folders && t[k].fields == s.folders[t[k].id].fields
    {
      assert t[k] == FolderItem(s, l, l.folders[k]);
    }
  }

  lemma BuiltCounts(s: Store, l: Listing, g: string, y: Leaf)
    requires Sound(s) && Lists(l, s)
    ensures Shown(Built(s, l), g, y) == One(IsRow(s, g, y)) && Folders(Built(s, l), g) == One(g in s.folders)
  {
    var a, top := FolderItems(s, l, l.folders), LeavesFor(s, l.convs(""));
    CountsAppend(a, AsTop(top), g, y);
    FolderItemsCounts(s, l, l.folders, g, y);
    AsTopCounts(top, g, y);
    LeavesForCount(s, l.convs(g), y);
    assert y.id in l.convs(g) <==> y.id in s.convs && s.convs[y.id].folderId == g;
    assert g in l.folders <==> g in s.folders;
  }
}
