/**
  The linked tree behind the sidebar (backend/models/conversation-list-model.cpp). Each
  handler is proved to do to the nodes what `ConversationTree` says on values.

  `View` is the value the nodes stand for. Qt's begin/end notifications are not modelled.
 */
module ConversationListModel {
  import opened Common
  import opened ConversationTree

  datatype Kind = RootNode | FolderNode | ConvNode

  class TreeNode {
    const kind: Kind
    const id: string
    var updatedAt: Time
    var convFields: ConvFields
    var folderFields: FolderFields
    var parent: TreeNode?
    var children: seq<TreeNode>

    constructor Root()
      ensures kind == RootNode && parent == null && children == []
    {
      kind, id, parent, children := RootNode, "", null, [];
      updatedAt, convFields, folderFields := Invalid, NO_CONV, NO_FOLDER;
    }

    constructor FromConversation(id: string, c: Conversation)
      ensures kind == ConvNode && children == [] && AsLeaf() == LeafOf(id, c)
    {
      this.kind, this.id, parent, children := ConvNode, id, null, [];
      updatedAt, convFields, folderFields := c.updatedAt, c.fields, NO_FOLDER;
    }

    constructor FromFolder(id: string, row: FolderRow)
      ensures kind == FolderNode && children == []
      ensures this.id == id && updatedAt == row.createdAt && folderFields == row.fields
    {
      this.kind, this.id, parent, children := FolderNode, id, null, [];
      updatedAt, convFields, folderFields := row.createdAt, NO_CONV, row.fields;
    }

    function AsLeaf(): Leaf
      reads this
    {
      Leaf(id, updatedAt, convFields)
    }
  }

  const NO_CONV := ConvFields("", 0, "", "", false, false, "")
  const NO_FOLDER := FolderFields("", "", "", "", [])

  ghost predicate NoDup(ns: seq<TreeNode>) {
    forall i, j | 0 <= i < j < |ns| :: ns[i] != ns[j]
  }

  ghost function Leaves(ns: seq<TreeNode>): seq<Leaf>
    reads ns
  {
    seq(|ns|, i requires 0 <= i < |ns| reads ns => ns[i].AsLeaf())
  }

  ghost function ItemOf(n: TreeNode): Item
    reads n, n.children
  {
    if n.kind.FolderNode? then Folder(n.id, n.updatedAt, n.folderFields, Leaves(n.children)) else Conv(n.AsLeaf())
  }

  lemma RemovedNodes(ns: seq<TreeNode>, i: nat)
    requires NoDup(ns) && i < |ns|
    ensures NoDup(RemoveAt(ns, i))
    ensures forall n :: n in RemoveAt(ns, i) <==> n in ns && n != ns[i]
  {
    assert ns == ns[..i] + [ns[i]] + ns[i + 1..];
  }

  /** QList::indexOf. */
  function IndexOf(ns: seq<TreeNode>, n: TreeNode): (row: int)
    ensures -1 <= row < |ns| && (row < 0 <==> n !in ns)
    ensures row >= 0 ==> ns[row] == n && n !in ns[..row]
  {
    if ns == [] then -1
    else if ns[0] == n then 0
    else var r := IndexOf(ns[1..], n); if r < 0 then -1 else r + 1
  }

  /** QModelIndex: a row and the node its internal pointer carries. The column is always 0. */
  datatype ModelIndex = NoIndex | At(row: int, node: TreeNode)

  class ConversationListModel {
    const root: TreeNode
    var totalCount: int
    ghost var Repr: set<TreeNode>   // every node there is, those taken out included

    /** The children of `n` are conversations that know their parent. */
    ghost predicate HoldsLeaves(n: TreeNode)
      reads n, n.children
    {
      NoDup(n.children) && forall c | c in n.children :: c.parent == n && c.kind == ConvNode && c.children == []
    }

    /** Parents and children point at each other, two levels deep. */
    ghost predicate Valid()
      reads this`Repr, Repr
    {
      && root in Repr && root.kind == RootNode && root.parent == null
      && (forall n | n in Repr :: forall c | c in n.children :: c in Repr)
      && NoDup(root.children)
      && (forall n | n in root.children :: n.parent == root && n.kind != RootNode && HoldsLeaves(n)
                                           && (n.kind == ConvNode ==> n.children == []))
    }

    ghost function View(): Tree
      requires Valid()
      reads this`Repr, Repr
    {
      var nodes, tops := Repr, root.children;
      seq(|tops|, i requires 0 <= i < |tops| && tops[i] in nodes && (forall c | c in tops[i].children :: c in nodes)
                    reads nodes => ItemOf(tops[i]))
    }

    ghost predicate Ready()
      reads this, Repr
    {
      Valid() && totalCount == Total(View())
    }

    ghost function ParentAt(p: Place): TreeNode
      requires Valid() && IsPlace(View(), p)
      reads this`Repr, Repr
    {
      if p.Top? then root else root.children[p.i]
    }

    ghost function NodeAt(p: Place): TreeNode
      requires Valid() && IsPlace(View(), p)
      reads this`Repr, Repr
    {
      if p.Top? then root.children[p.i] else root.children[p.i].children[p.j]
    }

    /** A conversation node that is nowhere in the tree. */
    ghost predicate Loose(n: TreeNode)
      requires Valid()
      reads this`Repr, Repr
    {
      && n in Repr && n.kind == ConvNode && n.children == []
      && n !in root.children && forall m | m in root.children :: n !in m.children
    }

    /** The model starts with the initial load. */
    constructor (svc: Store, l: Listing)
      requires Sound(svc) && Lists(l, svc)
      ensures Ready() && View() == Built(svc, l) && fresh(Repr)
      ensures Agrees(View(), svc) && totalCount == |svc.convs|
    {
      var node := new TreeNode.Root();
      root, Repr, totalCount := node, {node}, 0;
      new;
      assert Ready() && View() == [];
      BuildTree(svc, l);
      hide *;
      LoadShowsStore(this, svc, l);
    }

    /** Takes a conversation out of its parent's children. */
    method Detach(node: TreeNode, ghost p: Place)
      requires Valid() && IsPlace(View(), p) && NodeAt(p) == node
      modifies Repr
      ensures Valid() && Repr == old(Repr) && totalCount == old(totalCount) && View() == Remove(old(View()), p)
      ensures Loose(node) && node.AsLeaf() == old(node.AsLeaf())
      ensures root.children == if p.Top? then RemoveAt(old(root.children), p.i) else old(root.children)
    {
      if node.parent == root {
        DetachTop(node, p.i);
      } else {
        DetachKid(node.parent, node, p.i, p.j);
      }
    }

    method DetachTop(node: TreeNode, ghost i: nat)
      requires Valid() && i < |root.children| && root.children[i] == node && node.children == []
      modifies root`children
      ensures Valid() && View() == RemoveAt(old(View()), i) && (node.kind == ConvNode ==> Loose(node))
      ensures root.children == RemoveAt(old(root.children), i)
    {
      var row := IndexOf(root.children, node);
      assert row == i;
      RemovedNodes(root.children, i);
      hide IndexOf, NoDup;
      root.children := root.children[..row] + root.children[row + 1..];
    }

    method DetachKid(parentNode: TreeNode, node: TreeNode, ghost i: nat, ghost j: nat)
      requires Valid() && i < |root.children| && root.children[i] == parentNode && parentNode.kind == FolderNode
      requires j < |parentNode.children| && parentNode.children[j] == node
      modifies parentNode`children
      ensures Valid() && View() == Remove(old(View()), In(i, j)) && Loose(node)
      ensures parentNode.children == RemoveAt(old(parentNode.children), j)
    {
      ghost var leaves := Leaves(parentNode.children);
      var row := IndexOf(parentNode.children, node);
      parentNode.children := parentNode.children[..row] + parentNode.children[row + 1..];
      assert Leaves(parentNode.children) == RemoveAt(leaves, j);
    }

    /** Puts a conversation in front of the root's children. */
    method AttachTop(node: TreeNode)
      requires Valid() && Loose(node)
      modifies root`children, node`parent
      ensures Valid() && View() == [Conv(old(node.AsLeaf()))] + old(View())
      ensures root.children == [node] + old(root.children)
    {
      root.children := [node] + root.children;
      node.parent := root;
    }

    /** Puts a conversation in front of a folder's children. */
    method AttachKid(parentNode: TreeNode, node: TreeNode, ghost f: nat)
      requires Valid() && Loose(node)
      requires f < |root.children| && root.children[f] == parentNode && parentNode.kind == FolderNode
      modifies parentNode`children, node`parent
      ensures Valid() && parentNode.children == [node] + old(parentNode.children)
      ensures View() == old(View())[f := old(View())[f].(kids := [old(node.AsLeaf())] + old(View())[f].kids)]
    {
      ghost var leaves, x := Leaves(parentNode.children), node.AsLeaf();
      parentNode.children := [node] + parentNode.children;
      node.parent := parentNode;
      assert Leaves(parentNode.children) == [x] + leaves;
    }

    /** The first folder with this id. */
    method FindFolderNode(id: string) returns (node: TreeNode?)
      requires Valid()
      ensures match FindFolder(View(), id)
              case None => node == null
              case Some(f) => f < |root.children| && node == root.children[f]
    {
      if id == "" {
        return null;
      }
      var i := 0;
      while i < |root.children|
        invariant 0 <= i <= |root.children| && forall k | 0 <= k < i :: !IsFolder(View()[k], id)
      {
        var top := root.children[i];
        if top.kind == FolderNode && top.id == id {
          FindFolderIs(View(), id, i);
          return top;
        }
        i := i + 1;
      }
      node := null;
    }

    /** The root for no folder and for one that is not shown. */
    method ParentNodeForFolderId(folderId: string) returns (node: TreeNode)
      requires Valid()
      ensures match FindFolder(View(), folderId)
              case None => node == root
              case Some(f) => f < |root.children| && node == root.children[f] && node.kind == FolderNode
    {
      var found := FindFolderNode(folderId);
      node := if found == null then root else found;
    }

    method FindConversationNode(id: string) returns (node: TreeNode?)
      requires Valid()
      ensures match FindConv(View(), id)
              case None => node == null
              case Some(p) => node == NodeAt(p)
    {
      if id == "" {
        return null;
      }
      var i := 0;
      while i < |root.children|
        invariant 0 <= i <= |root.children| && FindConv(View(), id) == FindConvFrom(View(), id, i)
      {
        var top := root.children[i];
        if top.kind == ConvNode && top.id == id {
          return top;
        }
        if top.kind == FolderNode {
          var j := 0;
          while j < |top.children|
            invariant 0 <= j <= |top.children| && forall k | 0 <= k < j :: View()[i].kids[k].id != id
          {
            if top.children[j].id == id {
              FindKidIs(View()[i].kids, id, j);
              return top.children[j];
            }
            j := j + 1;
          }
        }
        i := i + 1;
      }
      node := null;
    }

    /** Puts a loose conversation in front of the children of a folder, or of the root. */
    method Attach(parentNode: TreeNode, node: TreeNode, ghost f: Option<nat>)
      requires Valid() && Loose(node)
      requires match f
               case None => parentNode == root
               case Some(i) => i < |root.children| && root.children[i] == parentNode && parentNode.kind == FolderNode
      modifies Repr
      ensures Valid() && Repr == old(Repr) && totalCount == old(totalCount)
      ensures View() == InsertAt(old(View()), f, old(node.AsLeaf()))
      ensures root.children == if f.None? then [node] + old(root.children) else old(root.children)
      ensures IsPlace(View(), FrontAt(f)) && NodeAt(FrontAt(f)) == node
    {
      if parentNode == root {
        AttachTop(node);
      } else {
        AttachKid(parentNode, node, f.value);
      }
    }

    /** A new conversation node, not in the tree yet. */
    method MakeConversationNode(id: string, c: Conversation) returns (node: TreeNode)
      requires Valid()
      modifies this`Repr
      ensures Valid() && View() == old(View()) && root.children == old(root.children)
      ensures fresh(node) && Repr == old(Repr) + {node} && Loose(node) && node.AsLeaf() == LeafOf(id, c)
    {
      node := new TreeNode.FromConversation(id, c);
      Repr := Repr + {node};
    }

    method OnConversationCreated(svc: Store, id: string)
      requires Ready()
      modifies this, Repr
      ensures Ready() && View() == OnConvCreated(old(View()), svc, id) && fresh(Repr - old(Repr))
    {
      hide Valid, View, Loose, FindFolder, Total, InsertAt;
      if id !in svc.convs {
        return;
      }
      var c := svc.convs[id];
      var parentNode := ParentNodeForFolderId(c.folderId);
      ghost var f := FindFolder(View(), c.folderId);
      InsertCounts(View(), c.folderId, LeafOf(id, c), "", ANY);
      var node := MakeConversationNode(id, c);
      Attach(parentNode, node, f);
      totalCount := totalCount + 1;
    }

    method OnConversationDeleted(id: string)
      requires Ready()
      modifies this, Repr
      ensures Ready() && View() == OnConvDeleted(old(View()), id) && Repr == old(Repr)
    {
      hide Valid, View, Loose, FindFolder, FindConv, Total, NodeAt;
      var node := FindConversationNode(id);
      if node == null {
        return;
      }
      ghost var p := FindConv(View(), id).value;
      RemoveCounts(View(), p, "", ANY);
      Detach(node, p);
      totalCount := totalCount - 1;
    }

    /** Copies the refreshed fields into a node of the tree. */
    method CopyFields(node: TreeNode, c: Conversation, ghost p: Place)
      requires Valid() && IsPlace(View(), p) && NodeAt(p) == node
      modifies node`updatedAt, node`convFields
      ensures Valid() && View() == Replace(old(View()), p, LeafOf(node.id, c))
    {
      ghost var leaves := Leaves(node.parent.children);
      node.updatedAt := c.updatedAt;
      node.convFields := c.fields;
      assert p.In? ==> Leaves(node.parent.children) == leaves[p.j := node.AsLeaf()];
    }

    /** Moves a conversation in front of `newParent`'s children. `r` is the tree without it. */
    method MoveToFront(node: TreeNode, newParent: TreeNode, ghost p: Place, ghost r: Tree, ghost f: Option<nat>)
      returns (ghost q: Place)
      requires Valid() && IsPlace(View(), p) && NodeAt(p) == node && r == Remove(View(), p)
      requires f.Some? ==> f.value < |r| && r[f.value].Folder? && IndexBefore(p, f.value) < |root.children|
      requires newParent == if f.None? then root else root.children[IndexBefore(p, f.value)]
      modifies Repr
      ensures Valid() && Repr == old(Repr) && totalCount == old(totalCount)
      ensures View() == InsertAt(r, f, old(node.AsLeaf()))
      ensures IsPlace(View(), q) && NodeAt(q) == node && q == FrontAt(f)
    {
      Detach(node, p);
      assert f.Some? ==> root.children[f.value] == newParent && newParent.kind == FolderNode;
      hide Valid, View, Loose, NodeAt, Remove, InsertAt, LeafAt, RemoveAt, IsPlace;
      Attach(newParent, node, f);
      q := FrontAt(f);
    }

    method OnConversationUpdated(svc: Store, id: string)
      requires Ready()
      modifies this, Repr
      ensures Ready() && View() == OnConvUpdated(old(View()), svc, id) && fresh(Repr - old(Repr))
    {
      hide Valid, View, FindConv, FindFolder, NodeAt, BelongsAt, Remove, Insert, Replace, Total;
      var node := FindConversationNode(id);
      if node == null {
        // an update for a conversation not known yet
        OnConversationCreated(svc, id);
        return;
      }
      if id !in svc.convs {
        // the row vanished between the signal and the read
        OnConversationDeleted(id);
        return;
      }
      ghost var p := FindConv(View(), id).value;
      AtPlace(p);
      RefreshNode(node, svc.convs[id], p);
    }

    /** A stored conversation that is in the tree: moved when its folder or its time says so,
        then refreshed. */
    method RefreshNode(node: TreeNode, c: Conversation, ghost p: Place)
      requires Ready() && IsPlace(View(), p) && NodeAt(p) == node
      modifies this, Repr
      ensures Ready() && Repr == old(Repr)
      ensures View() == Refreshed(old(View()), p, LeafOf(node.id, c), c.folderId)
    {
      hide Valid, View, FindFolder, NodeAt, Total, BelongsAt, Remove, Insert, Replace, IsPlace, LeafAt, Refreshed;
      AtPlace(p);
      RefreshedTotal(View(), p, LeafOf(node.id, c), c.folderId);
      var newParent := ParentNodeForFolderId(c.folderId);
      ghost var q := MoveIfNeeded(node, newParent, c, p);
      CopyFields(node, c, q);
    }

    /** The move part of a refresh: to another parent, or up to the front of its own when
        the time moved on. */
    method MoveIfNeeded(node: TreeNode, newParent: TreeNode, c: Conversation, ghost p: Place) returns (ghost q: Place)
      requires Valid() && IsPlace(View(), p) && NodeAt(p) == node
      requires match FindFolder(View(), c.folderId)
               case None => newParent == root
               case Some(f) => f < |root.children| && newParent == root.children[f] && newParent.kind == FolderNode
      modifies Repr
      ensures Valid() && Repr == old(Repr) && totalCount == old(totalCount)
      ensures IsPlace(View(), q) && NodeAt(q) == node
      ensures var leaf := LeafOf(node.id, c);
              Replace(View(), q, leaf) == Refreshed(old(View()), p, leaf, c.folderId)
    {
      var currentParent := node.parent;
      ghost var leaf, r := LeafOf(node.id, c), Remove(View(), p);
      ghost var f := FindFolder(r, c.folderId);
      q := p;
      AtPlace(p);
      SameParentIff(p, c.folderId, newParent);
      RefreshPlan(View(), p, leaf, c.folderId);
      assert |View()| == |root.children|;
      hide Valid, View, FindFolder, NodeAt, Remove, InsertAt, Replace, LeafAt, IsPlace, Refreshed, BelongsAt;
      var move := currentParent != newParent;
      if !move && Before(node.updatedAt, c.updatedAt) {
        var srcRow := SourceRow(node, p);
        move := srcRow > 0;
      }
      if move {
        q := MoveToFront(node, newParent, p, r, f);
      }
    }

    /** Comparing parents tells whether a conversation is where it belongs. */
    lemma SameParentIff(p: Place, folderId: string, newParent: TreeNode)
      requires Valid() && IsPlace(View(), p)
      requires match FindFolder(View(), folderId)
               case None => newParent == root
               case Some(f) => f < |root.children| && newParent == root.children[f]
      ensures ParentAt(p) == newParent <==> BelongsAt(View(), p, folderId)
    {
      hide FindFolder;
    }

    /** The row of a conversation among its parent's children. */
    method SourceRow(node: TreeNode, ghost p: Place) returns (row: nat)
      requires Valid() && IsPlace(View(), p) && NodeAt(p) == node
      ensures row == RowOf(p)
    {
      var r := IndexOf(node.parent.children, node);
      row := r;
    }

    /** A node in the tree knows its parent and stands for the leaf shown there. */
    lemma AtPlace(p: Place)
      requires Valid() && IsPlace(View(), p)
      ensures NodeAt(p) in Repr && NodeAt(p).parent == ParentAt(p) && NodeAt(p).AsLeaf() == LeafAt(View(), p)
    {
    }

    method MakeFolderNode(id: string, row: FolderRow) returns (node: TreeNode)
      requires Valid()
      modifies this`Repr
      ensures Valid() && View() == old(View()) && root.children == old(root.children)
      ensures fresh(node) && Repr == old(Repr) + {node} && node.kind == FolderNode && node.children == []
      ensures node.id == id && node.updatedAt == row.createdAt && node.folderFields == row.fields
      ensures node !in root.children
    {
      node := new TreeNode.FromFolder(id, row);
      Repr := Repr + {node};
    }

    method OnFolderCreated(svc: Store, id: string)
      requires Ready()
      modifies this, Repr
      ensures Ready() && View() == ConversationTree.OnFolderCreated(old(View()), svc, id) && fresh(Repr - old(Repr))
    {
      if id !in svc.folders || svc.folders[id].parentId != "" {
        return;
      }
      ghost var t := View();
      var node := MakeFolderNode(id, svc.folders[id]);
      PrependFolder(node);
      assert View()[1..] == t;
    }

    method PrependFolder(node: TreeNode)
      requires Valid() && node in Repr && node !in root.children && node.kind == FolderNode && node.children == []
      modifies root`children, node`parent
      ensures Valid() && View() == [Folder(node.id, node.updatedAt, node.folderFields, [])] + old(View())
    {
      root.children := [node] + root.children;
      node.parent := root;
      assert Leaves([]) == [];
    }

    method OnFolderUpdated(svc: Store, id: string)
      requires Ready()
      modifies this, Repr
      ensures Ready() && View() == ConversationTree.OnFolderUpdated(old(View()), svc, id) && fresh(Repr - old(Repr))
    {
      var node := FindFolderNode(id);
      if node == null {
        OnFolderCreated(svc, id);
        return;
      }
      if id !in svc.folders {
        OnFolderDeleted(id);
        return;
      }
      hide Valid, View, FindFolder, Total;
      ghost var f := FindFolder(View(), id).value;
      AtFolder(f);
      CountsUpdate(View(), f, View()[f].(fields := svc.folders[id].fields), "", ANY);
      SetFolderFields(node, svc.folders[id].fields, f);
    }

    method SetFolderFields(node: TreeNode, fields: FolderFields, ghost f: nat)
      requires Valid() && f < |root.children| && root.children[f] == node && node.kind == FolderNode
      requires View()[f].Folder?
      modifies node`folderFields
      ensures Valid() && View() == old(View())[f := old(View())[f].(fields := fields)]
    {
      node.folderFields := fields;
    }

    /** A folder's node and the item it stands for. */
    lemma AtFolder(f: nat)
      requires Valid() && f < |View()| && View()[f].Folder?
      ensures root in Repr && |root.children| == |View()| && root.children[f] in Repr
              && root.children[f].kind == FolderNode
      ensures |root.children[f].children| == |View()[f].kids|
    {
    }

    /** The folder's children are moved to the front of the root one at a time, last first;
        then the empty folder goes. */
    method OnFolderDeleted(id: string)
      requires Ready()
      modifies this, Repr
      ensures Ready() && View() == ConversationTree.OnFolderDeleted(old(View()), id) && Repr == old(Repr)
    {
      hide Valid, View, FindFolder, Total, AsTop, RemoveAt;
      var node := FindFolderNode(id);
      if node == null {
        return;
      }
      ghost var f := FindFolder(View(), id).value;
      FolderDeletedTotal(View(), f);
      AtFolder(f);
      RemoveFolder(node, f);
    }

    method RemoveFolder(node: TreeNode, ghost f: nat)
      requires Valid() && f < |View()| && View()[f].Folder? && |root.children| == |View()| && root.children[f] == node
      modifies Repr
      ensures Valid() && Repr == old(Repr) && totalCount == old(totalCount)
      ensures View() == AsTop(old(View())[f].kids) + RemoveAt(old(View()), f)
    {
      hide *;
      ghost var t := View();
      MovedOutAll(t, f);
      ghost var g := f + |t[f].kids|;
      EmptyFolder(node, f);
      DetachTop(node, g);
    }

    method EmptyFolder(node: TreeNode, ghost f: nat)
      requires Valid() && f < |View()| && View()[f].Folder? && |root.children| == |View()| && root.children[f] == node
      modifies Repr
      ensures Valid() && Repr == old(Repr) && totalCount == old(totalCount) && root in Repr
      ensures View() == MovedOut(old(View()), f, 0) && node.children == []
      ensures var g := f + |old(View())[f].kids|; g < |root.children| && root.children[g] == node
    {
      ghost var t := View();
      AtFolder(f);
      MovedOutNothing(t, f);
      hide Valid, View, MovedOut, Remove, LeafAt, IsPlace;
      var i := |node.children|;
      while i > 0
        invariant Valid() && Repr == old(Repr) && totalCount == old(totalCount)
        invariant 0 <= i <= |t[f].kids| && i == |node.children|
        invariant View() == MovedOut(t, f, i)
        invariant f + |t[f].kids| - i < |root.children| && root.children[f + |t[f].kids| - i] == node
      {
        i := i - 1;
        MoveOutStep(t, f, i);
        MoveOut(node, node.children[i], f + |t[f].kids| - i - 1, i);
      }
    }

    method MoveOut(node: TreeNode, child: TreeNode, ghost g: nat, ghost i: nat)
      requires Valid() && g < |root.children| && root.children[g] == node && node.kind == FolderNode
      requires i == |node.children| - 1 && node.children[i] == child
      modifies Repr
      ensures Valid() && Repr == old(Repr) && totalCount == old(totalCount)
      ensures View() == [Conv(LeafAt(old(View()), In(g, i)))] + Remove(old(View()), In(g, i))
      ensures |root.children| == |old(root.children)| + 1 && root.children[g + 1] == node && |node.children| == i
    {
      AtPlace(In(g, i));
      DetachKid(node, child, g, i);
      AttachTop(child);
    }

    // ---------------------------------------------------------------- the initial load

    method BuildTree(svc: Store, l: Listing)
      requires Ready() && View() == []
      requires Sound(svc) && Lists(l, svc)
      modifies this, Repr
      ensures Ready() && View() == Built(svc, l) && fresh(Repr - old(Repr))
    {
      ListedIsStored(svc, l);
      hide Valid, View, Sound, Lists, FolderItems, AsTop, LeavesFor, Total;
      LoadFolders(svc, l);
      LoadRootConversations(svc, l.convs(""));
    }

    method LoadFolders(svc: Store, l: Listing)
      requires Ready() && View() == []
      requires forall id | id in l.folders :: id in svc.folders
      requires forall g, id | id in l.convs(g) :: id in svc.convs
      modifies this, Repr
      ensures Ready() && View() == FolderItems(svc, l, l.folders) && fresh(Repr - old(Repr))
    {
      hide Valid, View, Total;
      var i := 0;
      while i < |l.folders|
        invariant Ready() && fresh(Repr - old(Repr)) && 0 <= i <= |l.folders|
        invariant View() == FolderItems(svc, l, l.folders[..i])
      {
        FolderItemsSnoc(svc, l, l.folders[..i], l.folders[i]);
        assert l.folders[..i + 1] == l.folders[..i] + [l.folders[i]];
        AppendFolder(svc, l, l.folders[i]);
        i := i + 1;
      }
      assert l.folders[..i] == l.folders;
    }

    method LoadRootConversations(svc: Store, ids: seq<string>)
      requires Ready() && forall id | id in ids :: id in svc.convs
      modifies this, Repr
      ensures Ready() && View() == old(View()) + AsTop(LeavesFor(svc, ids)) && fresh(Repr - old(Repr))
    {
      ghost var t := View();
      assert t + AsTop(LeavesFor(svc, [])) == t;
      hide Valid, View, Total, LeavesFor, AsTop;
      var j := 0;
      while j < |ids|
        invariant Ready() && fresh(Repr - old(Repr)) && 0 <= j <= |ids|
        invariant View() == t + AsTop(LeavesFor(svc, ids[..j]))
      {
        LeavesForSnoc(svc, ids[..j], ids[j]);
        AsTopSnoc(t, LeavesFor(svc, ids[..j]), LeafOf(ids[j], svc.convs[ids[j]]));
        assert ids[..j + 1] == ids[..j] + [ids[j]];
        AppendConversation(ids[j], svc.convs[ids[j]]);
        j := j + 1;
      }
      assert ids[..j] == ids;
    }

    method AppendConversation(id: string, c: Conversation)
      requires Ready()
      modifies this, Repr
      ensures Ready() && View() == old(View()) + [Conv(LeafOf(id, c))] && fresh(Repr - old(Repr))
    {
      CountsAppend(View(), [Conv(LeafOf(id, c))], "", ANY);
      assert [Conv(LeafOf(id, c))][1..] == [];
      assert Total([Conv(LeafOf(id, c))]) == 1;
      var node := MakeConversationNode(id, c);
      assert LooseTop(node) && ItemOf(node) == Conv(LeafOf(id, c));
      hide Valid, View, Total, LooseTop, ItemOf, Loose;
      PutLast(node);
      totalCount := totalCount + 1;
    }

    /** Ready to become a child of the root: its own children are in order, and it is not
        in the tree. */
    ghost predicate LooseTop(n: TreeNode)
      requires Valid()
      reads this`Repr, Repr
    {
      n in Repr && n !in root.children && n.kind != RootNode && HoldsLeaves(n)
      && (n.kind == ConvNode ==> n.children == [])
    }

    method PutLast(node: TreeNode)
      requires Valid() && LooseTop(node) && forall m | m in root.children :: node !in m.children
      modifies root`children, node`parent
      ensures Valid() && View() == old(View()) + [old(ItemOf(node))]
    {
      root.children := root.children + [node];
      node.parent := root;
    }

    /** A top-level folder with its conversations, behind everything there is. */
    method AppendFolder(svc: Store, l: Listing, id: string)
      requires Ready() && id in svc.folders && forall k | k in l.convs(id) :: k in svc.convs
      modifies this, Repr
      ensures Ready() && View() == old(View()) + [FolderItem(svc, l, id)] && fresh(Repr - old(Repr))
    {
      ghost var t, item := View(), FolderItem(svc, l, id);
      CountsAppend(t, [item], "", ANY);
      assert [item][1..] == [];
      var folderNode := MakeFolderNode(id, svc.folders[id]);
      assert Leaves([]) == [];
      FillFolder(svc, folderNode, l.convs(id));
      hide Total, LeavesFor;
      PutLast(folderNode);
    }

    method FillFolder(svc: Store, folderNode: TreeNode, convs: seq<string>)
      requires Valid() && LooseTop(folderNode) && folderNode.kind == FolderNode && folderNode.children == []
      requires forall k | k in convs :: k in svc.convs
      modifies this`Repr, this`totalCount, folderNode`children
      ensures Valid() && View() == old(View()) && root.children == old(root.children) && fresh(Repr - old(Repr))
              && old(Repr) <= Repr
      ensures LooseTop(folderNode) && Leaves(folderNode.children) == LeavesFor(svc, convs)
      ensures totalCount == old(totalCount) + |LeavesFor(svc, convs)|
    {
      ghost var t := View();
      hide View;
      var j := 0;
      while j < |convs|
        invariant Valid() && View() == t && root.children == old(root.children) && 0 <= j <= |convs|
        invariant fresh(Repr - old(Repr)) && old(Repr) <= Repr && LooseTop(folderNode)
        invariant Leaves(folderNode.children) == LeavesFor(svc, convs[..j])
        invariant totalCount == old(totalCount) + |LeavesFor(svc, convs[..j])|
      {
        LeavesForSnoc(svc, convs[..j], convs[j]);
        assert convs[..j + 1] == convs[..j] + [convs[j]];
        AppendKid(folderNode, convs[j], svc.convs[convs[j]]);
        totalCount := totalCount + 1;
        j := j + 1;
      }
      assert convs[..j] == convs;
    }

    method AppendKid(folderNode: TreeNode, id: string, c: Conversation)
      requires Valid() && LooseTop(folderNode) && folderNode.kind == FolderNode
      modifies this`Repr, folderNode`children
      ensures Valid() && View() == old(View()) && root.children == old(root.children) && fresh(Repr - old(Repr))
              && old(Repr) <= Repr
      ensures LooseTop(folderNode) && Leaves(folderNode.children) == old(Leaves(folderNode.children)) + [LeafOf(id, c)]
    {
      var convNode := new TreeNode.FromConversation(id, c);
      convNode.parent := folderNode;
      folderNode.children := folderNode.children + [convNode];
      Repr := Repr + {convNode};
    }

    /** A change of the store followed by its signal. Rows may have been written without one
        since they were last told of, as `seen` holds them: the nodes still show exactly the
        stored conversations, each where it is stored, and this signal's own row as stored. */
    method OnSignal(c: Change, ghost seen: Store, ghost before: Store, svc: Store)
      requires Ready() && Sound(before) && Agrees(View(), seen) && SamePlaces(seen, before)
      requires Allowed(before, c) && svc == Applied(before, c)
      modifies this, Repr
      ensures Ready() && View() == Signalled(old(View()), svc, c) && fresh(Repr - old(Repr))
      ensures Agrees(View(), Applied(seen, c)) && SamePlaces(Applied(seen, c), svc)
      ensures ShowsPlaces(View(), svc) && totalCount == |svc.convs|
      ensures c.ConvCreated? || c.ConvUpdated? ==> ShowsRow(View(), svc, c.id)
      ensures c.FolderCreated? || c.FolderUpdated? ==> ShowsFolderRow(View(), svc, c.id)
    {
      hide Valid, View, Agrees, SamePlaces, ShowsPlaces, ShowsRow, ShowsFolderRow, Sound, Allowed, Applied;
      hide Total, FindConv, FindFolder;
      SignalShows(View(), seen, before, c);
      match c {
        case ConvCreated(id, _) => OnConversationCreated(svc, id);
        case ConvUpdated(id, _) => OnConversationUpdated(svc, id);
        case ConvDeleted(id) => OnConversationDeleted(id);
        case FolderCreated(id, _) => OnFolderCreated(svc, id);
        case FolderUpdated(id, _) => OnFolderUpdated(svc, id);
        case FolderDeleted(id) => OnFolderDeleted(id);
      }
    }

    // ---------------------------------------------------------------- model indexes

    function RowOfNode(n: TreeNode): int
      reads n, n.parent
    {
      if n.parent == null then -1 else IndexOf(n.parent.children, n)
    }

    function IndexForNode(n: TreeNode): ModelIndex
      reads n, n.parent
    {
      if n == root then NoIndex else
      var row := RowOfNode(n);
      if row < 0 then NoIndex else At(row, n)
    }

    /** QAbstractItemModel::index. */
    function Index(row: int, column: int, parentIndex: ModelIndex): ModelIndex
      reads root, if parentIndex.At? then {parentIndex.node} else {}
    {
      if column != 0 then NoIndex else
      var parentNode := if parentIndex.At? then parentIndex.node else root;
      if row < 0 || row >= |parentNode.children| then NoIndex else At(row, parentNode.children[row])
    }

    /** QAbstractItemModel::parent. */
    function Parent(child: ModelIndex): ModelIndex
      requires Valid() && (child.At? ==> child.node in Repr)
      requires child.At? && child.node.parent != null ==> child.node.parent in Repr
      requires child.At? && child.node.parent != null && child.node.parent.parent != null ==>
                 child.node.parent.parent in Repr
      reads this`Repr, Repr
    {
      if child.NoIndex? || child.node.parent == null || child.node.parent == root then NoIndex else
      var parentNode := child.node.parent;
      if parentNode.parent == null then NoIndex else
      var row := IndexOf(parentNode.parent.children, parentNode);
      if row < 0 then NoIndex else At(row, parentNode)
    }

    /** A node shown somewhere in the tree. */
    ghost predicate InTree(n: TreeNode)
      requires Valid()
      reads this`Repr, Repr
    {
      n in root.children || exists m :: m in root.children && n in m.children
    }

    lemma InTreeHasParent(n: TreeNode)
      requires Valid() && InTree(n)
      ensures n in Repr && n != root && n.parent != null && n.parent in Repr && n in n.parent.children
      ensures n.parent == root || (n.parent in root.children && n.parent.parent == root)
    {
    }

    /** A node's index leads, by way of its parent's index, back to itself. */
    lemma {:induction false} IndexUndoesParent(n: TreeNode)
      requires Valid() && InTree(n)
      ensures n in Repr && n.parent != null && n.parent in Repr && (n.parent.parent != null ==> n.parent.parent in Repr)
      ensures var i := IndexForNode(n);
              && i.At? && i.node == n
              && Parent(i) == (if n.parent == root then NoIndex else IndexForNode(n.parent))
              && Index(i.row, 0, Parent(i)) == i
    {
      InTreeHasParent(n);
    }

    /** And a child's parent index is the one it was asked for under. */
    lemma {:induction false} ParentUndoesIndex(q: ModelIndex, row: nat)
      requires Valid() && (q.At? ==> InTree(q.node) && q == IndexForNode(q.node))
      requires row < |(if q.At? then q.node else root).children|
      ensures var c := Index(row, 0, q);
              && c.At? && InTree(c.node) && c == IndexForNode(c.node)
              && c.node.parent != null && c.node in Repr && c.node.parent in Repr
              && (c.node.parent.parent != null ==> c.node.parent.parent in Repr)
              && Parent(c) == q
    {
      var n := if q.At? then q.node else root;
      var c := n.children[row];
      if q.At? {
        InTreeHasParent(n);
      }
      assert InTree(c);
      InTreeHasParent(c);
      IndexIsRow(n.children, row);
    }
  }

  lemma {:induction false} IndexIsRow(ns: seq<TreeNode>, row: nat)
    requires NoDup(ns) && row < |ns|
    ensures IndexOf(ns, ns[row]) == row
  {
    if row > 0 {
      IndexIsRow(ns[1..], row - 1);
    }
  }

  lemma AsTopSnoc(t: Tree, leaves: seq<Leaf>, leaf: Leaf)
    ensures t + AsTop(leaves + [leaf]) == (t + AsTop(leaves)) + [Conv(leaf)]
  {
    assert AsTop(leaves + [leaf]) == AsTop(leaves) + [Conv(leaf)];
  }

  lemma ListedIsStored(s: Store, l: Listing)
    requires Lists(l, s)
    ensures forall id | id in l.folders :: id in s.folders
    ensures forall g, id | id in l.convs(g) :: id in s.convs
  {
  }

  /** Children from `i` on already moved out of folder `f`. */
  ghost function MovedOut(t: Tree, f: nat, i: nat): Tree
    requires f < |t| && t[f].Folder? && i <= |t[f].kids|
  {
    AsTop(t[f].kids[i..]) + t[f := t[f].(kids := t[f].kids[..i])]
  }

  lemma MovedOutNothing(t: Tree, f: nat)
    requires f < |t| && t[f].Folder?
    ensures MovedOut(t, f, |t[f].kids|) == t
  {
    assert t[f].kids[..|t[f].kids|] == t[f].kids;
  }

  lemma MoveOutStep(t: Tree, f: nat, i: nat)
    requires f < |t| && t[f].Folder? && i < |t[f].kids|
    ensures var u := MovedOut(t, f, i + 1); var p := In(f + |t[f].kids| - i - 1, i);
            IsPlace(u, p) && [Conv(LeafAt(u, p))] + Remove(u, p) == MovedOut(t, f, i)
  {
    var kids := t[f].kids;
    var a, b, c := AsTop(kids[i + 1..]), t[f := t[f].(kids := kids[..i + 1])], t[f := t[f].(kids := kids[..i])];
    assert RemoveAt(kids[..i + 1], i) == kids[..i];
    assert b[f := b[f].(kids := kids[..i])] == c;
    assert (a + b)[|a| + f := b[f].(kids := kids[..i])] == a + c;
    assert [Conv(kids[i])] + a == AsTop(kids[i..]);
    ConcatAssoc([Conv(kids[i])], a, c);
  }

  lemma MovedOutAll(t: Tree, f: nat)
    requires f < |t| && t[f].Folder?
    ensures RemoveAt(MovedOut(t, f, 0), f + |t[f].kids|) == AsTop(t[f].kids) + RemoveAt(t, f)
  {
    assert t[f].kids[0..] == t[f].kids;
  }

  /** The row of a place among its siblings. */
  function RowOf(p: Place): nat {
    if p.Top? then p.i else p.j
  }

  lemma RefreshedTotal(t: Tree, p: Place, leaf: Leaf, folderId: string)
    requires IsPlace(t, p)
    ensures Total(Refreshed(t, p, leaf, folderId)) == Total(t)
  {
    hide Insert, Remove, Replace, Total, Shown, Folders;
    ReplaceCounts(t, p, leaf, "", ANY);
    RemoveCounts(t, p, "", ANY);
    InsertCounts(Remove(t, p), folderId, leaf, "", ANY);
  }

  /** A conversation already in front of its own folder need not move. */
  lemma FrontNeedNotMove(t: Tree, p: Place, leaf: Leaf, folderId: string)
    requires IsPlace(t, p)
    ensures BelongsAt(t, p, folderId) && RowOf(p) == 0 ==> Replace(t, p, leaf) == Insert(Remove(t, p), folderId, leaf)
  {
    FindFolderAfterRemove(t, p, folderId);
    if BelongsAt(t, p, folderId) && RowOf(p) == 0 {
      match FindFolder(t, folderId)
      case None => assert RemoveAt(t, 0) == t[1..];
      case Some(f) =>
        var kids := t[f].kids;
        assert [leaf] + RemoveAt(kids, 0) == kids[0 := leaf];
    }
  }

  lemma SignalShows(t: Tree, seen: Store, before: Store, c: Change)
    requires Agrees(t, seen) && SamePlaces(seen, before) && Sound(before) && Allowed(before, c)
    ensures var u, s := Signalled(t, Applied(before, c), c), Applied(before, c);
            && Agrees(u, Applied(seen, c)) && SamePlaces(Applied(seen, c), s)
            && ShowsPlaces(u, s) && Total(u) == |s.convs|
            && (c.ConvCreated? || c.ConvUpdated? ==> ShowsRow(u, s, c.id))
            && (c.FolderCreated? || c.FolderUpdated? ==> ShowsFolderRow(u, s, c.id))
  {
    AllowedIsSound(before, c);
    hide Agrees, SamePlaces, Sound, Allowed, Applied, Signalled, ShowsRow, ShowsFolderRow;
    ChangeAgrees(t, seen, before, c);
    PlacesAreShown(Signalled(t, Applied(before, c), c), Applied(seen, c), Applied(before, c));
    if c.ConvCreated? || c.ConvUpdated? {
      OwnRowIsShown(Signalled(t, Applied(before, c), c), seen, before, c);
    } else if c.FolderCreated? || c.FolderUpdated? {
      OwnFolderIsShown(Signalled(t, Applied(before, c), c), seen, before, c);
    }
  }

  lemma AllowedIsSound(before: Store, c: Change)
    requires Allowed(before, c)
    ensures Sound(Applied(before, c)) && (c.FolderCreated? || c.FolderUpdated? ==> c.id != "")
  {}

  lemma LoadShowsStore(model: ConversationListModel, svc: Store, l: Listing)
    requires Sound(svc) && Lists(l, svc) && model.Ready() && model.View() == Built(svc, l)
    ensures Agrees(model.View(), svc) && model.totalCount == |svc.convs|
  {
    assert forall id | id in l.folders :: id in svc.folders;
    hide Sound, Lists, Agrees, KidsSorted, TopSorted, Total, Built;
    BuiltAgrees(svc, l);
    AgreesShows(Built(svc, l), svc);
    TotalIsStored(Built(svc, l), svc);
  }

  /** What a refresh comes to: refreshed in place, or moved to the front and refreshed there. */
  lemma RefreshPlan(t: Tree, p: Place, leaf: Leaf, folderId: string)
    requires IsPlace(t, p)
    ensures var r := Remove(t, p); var f := FindFolder(r, folderId); var moved := InsertAt(r, f, leaf);
            && FindFolder(t, folderId) == (if f.None? then None else Some(IndexBefore(p, f.value)))
            && IsPlace(InsertAt(r, f, LeafAt(t, p)), FrontAt(f))
            && Replace(InsertAt(r, f, LeafAt(t, p)), FrontAt(f), leaf) == moved
            && Refreshed(t, p, leaf, folderId)
               == (if BelongsAt(t, p, folderId) && !Before(LeafAt(t, p).updatedAt, leaf.updatedAt)
                   then Replace(t, p, leaf) else moved)
            && (BelongsAt(t, p, folderId) && RowOf(p) == 0 ==> Replace(t, p, leaf) == moved)
  {
    FindFolderAfterRemove(t, p, folderId);
    FrontNeedNotMove(t, p, leaf, folderId);
    RefreshInFront(Remove(t, p), folderId, LeafAt(t, p), leaf);
    hide Replace, InsertAt, BelongsAt, FrontAt, FindFolder, LeafAt, IsPlace;
  }

  /** Refreshing right after an insertion is inserting the refreshed leaf. */
  lemma RefreshInFront(r: Tree, folderId: string, was: Leaf, leaf: Leaf)
    ensures var q := FrontAt(FindFolder(r, folderId)); var u := Insert(r, folderId, was);
            IsPlace(u, q) && Replace(u, q, leaf) == Insert(r, folderId, leaf)
  {
    match FindFolder(r, folderId)
    case None =>
    case Some(f) =>
      assert ([was] + r[f].kids)[0 := leaf] == [leaf] + r[f].kids;
  }

  /** In front of the root's children, or of a folder's. */
  ghost function FrontAt(f: Option<nat>): Place {
    match f
    case None => Top(0)
    case Some(i) => In(i, 0)
  }

  /** The index an item had before a removal. */
  function IndexBefore(p: Place, g: nat): nat {
    if p.Top? && p.i <= g then g + 1 else g
  }

  /** A removal moves a folder up by one at most. */
  lemma FindFolderAfterRemove(t: Tree, p: Place, folderId: string)
    requires IsPlace(t, p)
    ensures match FindFolder(t, folderId)
            case None => FindFolder(Remove(t, p), folderId) == None
            case Some(f) =>
              var g := if p.Top? && p.i < f then f - 1 else f;
              FindFolder(Remove(t, p), folderId) == Some(g) && IndexBefore(p, g) == f
  {
    var u := Remove(t, p);
    match FindFolder(t, folderId)
    case None =>
      if folderId != "" {
        forall k | 0 <= k < |u| ensures !IsFolder(u[k], folderId) {
          assert !IsFolder(t[if p.Top? && k >= p.i then k + 1 else k], folderId);
        }
        assert FindFolder(u, folderId).None?;
      }
    case Some(f) =>
      var f' := if p.Top? && p.i < f then f - 1 else f;
      forall k | 0 <= k < f' ensures !IsFolder(u[k], folderId) {
        assert !IsFolder(t[if p.Top? && k >= p.i then k + 1 else k], folderId);
      }
      FindFolderIs(u, folderId, f');
  }

  lemma FindFolderIs(t: Tree, id: string, f: nat)
    requires f < |t| && id != "" && IsFolder(t[f], id) && forall k | 0 <= k < f :: !IsFolder(t[k], id)
    ensures FindFolder(t, id) == Some(f)
  {
  }

  lemma FindKidIs(kids: seq<Leaf>, id: string, j: nat)
    requires j < |kids| && kids[j].id == id && forall k | 0 <= k < j :: kids[k].id != id
    ensures FindKid(kids, id) == Some(j)
  {
  }

  lemma {:induction false} LeavesForSnoc(s: Store, ids: seq<string>, id: string)
    requires id in s.convs
    ensures LeavesFor(s, ids + [id]) == LeavesFor(s, ids) + [LeafOf(id, s.convs[id])]
  {
    if ids == [] {
      assert [id][1..] == [];
    } else {
      LeavesForSnoc(s, ids[1..], id);
      assert (ids + [id])[1..] == ids[1..] + [id];
    }
  }

  lemma {:induction false} FolderItemsSnoc(s: Store, l: Listing, ids: seq<string>, id: string)
    requires (forall k | k in ids :: k in s.folders) && id in s.folders
    ensures FolderItems(s, l, ids + [id]) == FolderItems(s, l, ids) + [FolderItem(s, l, id)]
  {
    if ids == [] {
      assert [id][1..] == [];
    } else {
      FolderItemsSnoc(s, l, ids[1..], id);
      assert (ids + [id])[1..] == ids[1..] + [id];
    }
  }
}
