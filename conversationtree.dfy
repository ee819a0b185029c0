/** The conversation tree: every message ever produced in a conversation,
    stored as nodes keyed by id, with the active branch recorded as the path
    of ids from the root to the current leaf. Only the two operations the
    chat page calls are modelled, `appendMessage` and `getCurrentMessages`,
    as their call sites use them; fresh ids come from a counter. */
module ConversationTree {
  import opened ChatApi

  type Id = nat

  datatype Node = Node(id: Id, message: Message, parentId: Option<Id>, children: seq<Id>)

  /** `nextId` is the fresh-id supply: every key in `nodes` is below it. */
  datatype Tree = Tree(nodes: map<Id, Node>, rootId: Option<Id>, currentPath: seq<Id>, nextId: Id)

  /** Well-formedness the operations rely on: keys are below `nextId` and
      match the nodes' ids; the path is empty exactly for the empty tree,
      starts at the root and names only stored nodes, each at most once. */
  ghost predicate Valid(t: Tree) {
    && (forall k :: k in t.nodes ==> k < t.nextId && t.nodes[k].id == k)
    && (t.currentPath == [] <==> t.rootId == None)
    && (t.currentPath == [] ==> t.nodes == map[])
    && (forall i :: 0 <= i < |t.currentPath| ==> t.currentPath[i] in t.nodes)
    && (forall i, j :: 0 <= i < j < |t.currentPath| ==> t.currentPath[i] != t.currentPath[j])
    && (t.rootId.Some? ==> t.currentPath[0] == t.rootId.value)
  }

  /** The tree shape proper: the root has no parent, the path walks
      parent-to-child edges, and children lists agree with parent links. */
  ghost predicate Linked(t: Tree)
    requires Valid(t)
  {
    && (t.rootId.Some? ==> t.nodes[t.rootId.value].parentId == None)
    && PathEdges(t) && ChildrenPointBack(t.nodes) && ParentsListChild(t.nodes)
  }

  ghost predicate PathEdges(t: Tree)
    requires Valid(t)
  {
    forall i :: 0 < i < |t.currentPath| ==>
      t.nodes[t.currentPath[i]].parentId == Some(t.currentPath[i - 1])
  }

  ghost predicate ChildrenPointBack(nodes: map<Id, Node>) {
    forall k, c :: k in nodes && c in nodes[k].children ==> c in nodes && nodes[c].parentId == Some(k)
  }

  ghost predicate ParentsListChild(nodes: map<Id, Node>) {
    forall k :: k in nodes && nodes[k].parentId.Some? ==>
      nodes[k].parentId.value in nodes && k in nodes[nodes[k].parentId.value].children
  }

  /** The current leaf, if the tree is not empty. */
  function Leaf(t: Tree): Option<Id> {
    if t.currentPath == [] then None else Some(t.currentPath[|t.currentPath| - 1])
  }

  /** `getCurrentMessages`: the messages along the active path, root first. */
  function GetCurrentMessages(t: Tree): seq<Message>
    requires Valid(t)
  {
    MessagesAlong(t.nodes, t.currentPath)
  }

  /** The messages stored at the ids of `path`, in path order. */
  function MessagesAlong(nodes: map<Id, Node>, path: seq<Id>): (ms: seq<Message>)
    requires forall i :: 0 <= i < |path| ==> path[i] in nodes
    ensures |ms| == |path|
    ensures forall i :: 0 <= i < |path| ==> ms[i] == nodes[path[i]].message
  {
    if path == [] then [] else MessagesAlong(nodes, path[..|path| - 1]) + [nodes[path[|path| - 1]].message]
  }

  /** `createConversationTree`: no nodes, empty path. */
  function Create(): (t: Tree)
    ensures Valid(t) && t.nodes == map[] && GetCurrentMessages(t) == []
  {
    Tree(map[], None, [], 0)
  }

  /** `appendMessage`: a fresh node holding `m` becomes a child of the leaf
      (or the root of an empty tree) and the new leaf of the path. Every
      stored message stays as it was; only the old leaf gains a child. */
  function AppendMessage(t: Tree, m: Message): (r: Tree)
    requires Valid(t)
    ensures Valid(r)
    ensures r.currentPath == t.currentPath + [t.nextId]
    ensures GetCurrentMessages(r) == GetCurrentMessages(t) + [m]
  {
    var id := t.nextId;
    if t.currentPath == [] then
      Tree(map[id := Node(id, m, None, [])], Some(id), [id], id + 1)
    else
      var p := t.currentPath[|t.currentPath| - 1];
      var r := Tree(Attach(t.nodes, p, id, m), t.rootId, t.currentPath + [id], id + 1);
      AttachValid(t, p, m, r);
      AttachMessages(t, p, m, r);
      r
  }

  /** What `appendMessage` does to the stored nodes: the fresh id was
      unused, the new node hangs under the old leaf with no children, every
      old node keeps its message and parent, and only the old leaf gains a
      child. */
  lemma AppendMessageNodes(t: Tree, m: Message)
    requires Valid(t)
    ensures var r := AppendMessage(t, m);
      && t.nextId !in t.nodes && r.nextId == t.nextId + 1
      && r.rootId == (if t.rootId.Some? then t.rootId else Some(t.nextId))
      && r.nodes.Keys == t.nodes.Keys + {t.nextId}
      && r.nodes[t.nextId] == Node(t.nextId, m, Leaf(t), [])
      && (forall k :: k in t.nodes ==>
            r.nodes[k].message == t.nodes[k].message && r.nodes[k].parentId == t.nodes[k].parentId)
      && (forall k :: k in t.nodes ==>
            r.nodes[k].children == t.nodes[k].children + (if Leaf(t) == Some(k) then [t.nextId] else []))
  {
    assert t.nextId !in t.nodes;
    if t.currentPath != [] {
      var p := t.currentPath[|t.currentPath| - 1];
      assert AppendMessage(t, m).nodes == Attach(t.nodes, p, t.nextId, m) && Leaf(t) == Some(p);
    }
  }

  /** The node map after adding node `id` holding `m` under `p`. */
  function Attach(nodes: map<Id, Node>, p: Id, id: Id, m: Message): map<Id, Node>
    requires p in nodes
  {
    nodes[p := nodes[p].(children := nodes[p].children + [id])][id := Node(id, m, Some(p), [])]
  }

  lemma AttachValid(t: Tree, p: Id, m: Message, r: Tree)
    requires Valid(t) && t.currentPath != [] && p == t.currentPath[|t.currentPath| - 1]
    requires r == Tree(Attach(t.nodes, p, t.nextId, m), t.rootId, t.currentPath + [t.nextId], t.nextId + 1)
    ensures Valid(r)
  {
    assert t.nextId !in t.nodes;
    assert forall i :: 0 <= i < |r.currentPath| ==> r.currentPath[i] in r.nodes;
  }

  /** `appendMessage` keeps the tree shape: the new node is linked both ways
      to the old leaf. */
  lemma AppendMessageKeepsLinks(t: Tree, m: Message)
    requires Valid(t) && Linked(t)
    ensures Linked(AppendMessage(t, m))
  {
    var r, id := AppendMessage(t, m), t.nextId;
    AppendMessageNodes(t, m);
    if t.currentPath != [] {
      var p := t.currentPath[|t.currentPath| - 1];
      assert r.nodes == Attach(t.nodes, p, id, m);
      assert t.rootId.value != id;
      AttachPathEdges(t, p, m, r);
      AttachChildrenPointBack(t.nodes, p, id, m);
      AttachParentsListChild(t.nodes, p, id, m);
    }
  }

  lemma AttachPathEdges(t: Tree, p: Id, m: Message, r: Tree)
    requires Valid(t) && PathEdges(t) && t.currentPath != [] && p == t.currentPath[|t.currentPath| - 1]
    requires r == Tree(Attach(t.nodes, p, t.nextId, m), t.rootId, t.currentPath + [t.nextId], t.nextId + 1)
    requires Valid(r)
    ensures PathEdges(r)
  {
    forall i | 0 < i < |r.currentPath|
      ensures r.nodes[r.currentPath[i]].parentId == Some(r.currentPath[i - 1])
    {
      if i < |t.currentPath| {
        assert r.currentPath[i] == t.currentPath[i] && r.currentPath[i - 1] == t.currentPath[i - 1];
        assert t.currentPath[i] != t.nextId;
      }
    }
  }

  lemma AttachChildrenPointBack(nodes: map<Id, Node>, p: Id, id: Id, m: Message)
    requires p in nodes && id !in nodes && ChildrenPointBack(nodes)
    ensures ChildrenPointBack(Attach(nodes, p, id, m))
  {
    var r := Attach(nodes, p, id, m);
    forall k, c | k in r && c in r[k].children
      ensures c in r && r[c].parentId == Some(k)
    {
      if k == p {
        if c != id { assert c in nodes[p].children; }
      } else if k != id {
        assert c in nodes[k].children;
      }
    }
  }

  lemma AttachParentsListChild(nodes: map<Id, Node>, p: Id, id: Id, m: Message)
    requires p in nodes && id !in nodes && ParentsListChild(nodes)
    ensures ParentsListChild(Attach(nodes, p, id, m))
  {
    var r := Attach(nodes, p, id, m);
    forall k | k in r && r[k].parentId.Some?
      ensures r[k].parentId.value in r && k in r[r[k].parentId.value].children
    {
      if k != id {
        var q := nodes[k].parentId.value;
        assert k in nodes[q].children;
      }
    }
  }

  lemma AttachMessages(t: Tree, p: Id, m: Message, r: Tree)
    requires Valid(t) && t.currentPath != [] && p == t.currentPath[|t.currentPath| - 1]
    requires r == Tree(Attach(t.nodes, p, t.nextId, m), t.rootId, t.currentPath + [t.nextId], t.nextId + 1)
    requires Valid(r)
    ensures GetCurrentMessages(r) == GetCurrentMessages(t) + [m]
  {
    assert r.currentPath[..|r.currentPath| - 1] == t.currentPath;
    MessagesAlongAgree(t.nodes, r.nodes, t.currentPath);
  }

  /** Two node maps that store the same messages at the ids of `path` give
      the same message list along it. */
  lemma MessagesAlongAgree(a: map<Id, Node>, b: map<Id, Node>, path: seq<Id>)
    requires forall i :: 0 <= i < |path| ==> path[i] in a && path[i] in b
    requires forall i :: 0 <= i < |path| ==> a[path[i]].message == b[path[i]].message
    ensures MessagesAlong(a, path) == MessagesAlong(b, path)
  {
    var x, y := MessagesAlong(a, path), MessagesAlong(b, path);
    assert forall i :: 0 <= i < |path| ==> x[i] == y[i];
  }

  /** Appending messages one after another, in order: the fold the legacy
      migration performs. The path gains exactly these messages. */
  function AppendAll(t: Tree, ms: seq<Message>): (r: Tree)
    requires Valid(t)
    ensures Valid(r)
    ensures GetCurrentMessages(r) == GetCurrentMessages(t) + ms
    decreases |ms|
  {
    if ms == [] then t
    else
      var front, last := ms[..|ms| - 1], ms[|ms| - 1];
      var t' := AppendAll(t, front);
      var r := AppendMessage(t', last);
      calc {
        GetCurrentMessages(r);
        GetCurrentMessages(t') + [last];
        (GetCurrentMessages(t) + front) + [last];
        { assert ms == front + [last]; }
        GetCurrentMessages(t) + ms;
      }
      r
  }

  /** Appending a list keeps the tree shape. */
  lemma {:induction false} AppendAllKeepsLinks(t: Tree, ms: seq<Message>)
    requires Valid(t) && Linked(t)
    ensures Linked(AppendAll(t, ms))
    decreases |ms|
  {
    if ms != [] {
      AppendAllKeepsLinks(t, ms[..|ms| - 1]);
      AppendMessageKeepsLinks(AppendAll(t, ms[..|ms| - 1]), ms[|ms| - 1]);
    }
  }
}
