/** How the chat page folds streamed chunks into the conversation tree: a
    chunk either grows the assistant message at the leaf of the active path
    or, when the leaf is not an assistant message, starts a new one. */
module ChunkFold {
  import opened ChatApi
  import opened ConversationTree

  /** One streamed increment of text and the clock reading when it arrived. */
  datatype Chunk = Chunk(text: string, at: nat)

  predicate EndsWithAssistant(ms: seq<Message>) {
    |ms| > 0 && ms[|ms| - 1].role == Assistant
  }

  /** The chunk updater: grow the assistant message at the leaf, or append
      a new assistant message holding the chunk, stamped `now`. */
  function ApplyChunk(t: Tree, chunk: string, now: nat): (r: Tree)
    requires Valid(t)
    ensures Valid(r)
  {
    var ms := GetCurrentMessages(t);
    if EndsWithAssistant(ms) then
      var r := GrowLeaf(t, chunk);
      ExtendedLeafMessages(t, r, ms[|ms| - 1].(content := ms[|ms| - 1].content + chunk));
      r
    else
      AppendMessage(t, Message(Assistant, chunk, Some(now)))
  }

  /** The tree whose leaf message has `chunk` added to its content. */
  function GrowLeaf(t: Tree, chunk: string): Tree
    requires Valid(t) && t.currentPath != []
  {
    var leaf := t.currentPath[|t.currentPath| - 1];
    var last := t.nodes[leaf].message;
    t.(nodes := t.nodes[leaf := t.nodes[leaf].(message := last.(content := last.content + chunk))])
  }

  /** When the last message on the path is an assistant message, a chunk
      changes only the leaf node: its content becomes the old content plus
      the chunk; its role and timestamp, the path, and every other node stay
      as they were. */
  lemma ChunkGrowsLeaf(t: Tree, chunk: string, now: nat)
    requires Valid(t) && EndsWithAssistant(GetCurrentMessages(t))
    ensures var r, ms := ApplyChunk(t, chunk, now), GetCurrentMessages(t);
      var leaf, last := t.currentPath[|t.currentPath| - 1], ms[|ms| - 1];
      && r.currentPath == t.currentPath && r.rootId == t.rootId && r.nextId == t.nextId
      && r.nodes.Keys == t.nodes.Keys
      && (forall k :: k in t.nodes && k != leaf ==> r.nodes[k] == t.nodes[k])
      && r.nodes[leaf] == t.nodes[leaf].(message := Message(Assistant, last.content + chunk, last.timestamp))
      && GetCurrentMessages(r) == ms[..|ms| - 1] + [Message(Assistant, last.content + chunk, last.timestamp)]
  {
    var ms := GetCurrentMessages(t);
    ExtendedLeafMessages(t, GrowLeaf(t, chunk), ms[|ms| - 1].(content := ms[|ms| - 1].content + chunk));
  }

  /** The chunk updater keeps the tree shape: growing the leaf touches no
      link, and a new reply is linked like any appended message. */
  lemma ApplyChunkKeepsLinks(t: Tree, chunk: string, now: nat)
    requires Valid(t) && Linked(t)
    ensures Linked(ApplyChunk(t, chunk, now))
  {
    if EndsWithAssistant(GetCurrentMessages(t)) {
      ChunkGrowsLeaf(t, chunk, now);
    } else {
      AppendMessageKeepsLinks(t, Message(Assistant, chunk, Some(now)));
    }
  }

  /** When the path is empty or its last message is not an assistant
      message, a chunk appends exactly one new assistant message whose
      content is the chunk; the path grows by that one node and no stored
      message changes. */
  lemma ChunkStartsReply(t: Tree, chunk: string, now: nat)
    requires Valid(t) && !EndsWithAssistant(GetCurrentMessages(t))
    ensures var r := ApplyChunk(t, chunk, now);
      && r.currentPath == t.currentPath + [t.nextId]
      && r.nodes.Keys == t.nodes.Keys + {t.nextId}
      && t.nextId !in t.nodes
      && (forall k :: k in t.nodes ==> r.nodes[k].message == t.nodes[k].message)
      && GetCurrentMessages(r) == GetCurrentMessages(t) + [Message(Assistant, chunk, Some(now))]
  {
    AppendMessageNodes(t, Message(Assistant, chunk, Some(now)));
  }

  lemma ExtendedLeafMessages(t: Tree, r: Tree, m: Message)
    requires Valid(t) && t.currentPath != []
    requires var leaf := t.currentPath[|t.currentPath| - 1];
      r == t.(nodes := t.nodes[leaf := t.nodes[leaf].(message := m)])
    ensures Valid(r)
    ensures GetCurrentMessages(r) == GetCurrentMessages(t)[..|t.currentPath| - 1] + [m]
  {
    var n := |t.currentPath|;
    var leaf := t.currentPath[n - 1];
    var x, y := GetCurrentMessages(t), GetCurrentMessages(r);
    forall i | 0 <= i < n ensures y[i] == (x[..n - 1] + [m])[i] {
      if i < n - 1 { assert t.currentPath[i] != leaf; }
    }
  }

  /** The reply text a run of chunks spells, in arrival order. */
  function ConcatChunks(cs: seq<Chunk>): string {
    if cs == [] then "" else ConcatChunks(cs[..|cs| - 1]) + cs[|cs| - 1].text
  }

  /** Applying the updater to each chunk in arrival order. */
  function FoldChunks(t: Tree, cs: seq<Chunk>): (r: Tree)
    requires Valid(t)
    ensures Valid(r)
    decreases |cs|
  {
    if cs == [] then t
    else
      var last := cs[|cs| - 1];
      ApplyChunk(FoldChunks(t, cs[..|cs| - 1]), last.text, last.at)
  }

  /** A chunk that follows a freshly appended assistant message gives the
      tree that appending the longer message in one go would give. */
  lemma ChunkAfterAppend(t: Tree, m: Message, chunk: string, now: nat)
    requires Valid(t) && m.role == Assistant
    ensures ApplyChunk(AppendMessage(t, m), chunk, now) == AppendMessage(t, m.(content := m.content + chunk))
  {
    var a := AppendMessage(t, m);
    var ms := GetCurrentMessages(a);
    assert ms[|ms| - 1] == m;
    AppendMessageNodes(t, m);
    assert a.currentPath[|a.currentPath| - 1] == t.nextId;
  }

  /** Folding chunks c1..cN onto a path that does not end in an assistant
      message gives exactly the tree that appending one assistant message
      with content c1 + ... + cN, stamped when c1 arrived, would give. */
  lemma {:induction false} FoldIsWholeReply(t: Tree, cs: seq<Chunk>)
    requires Valid(t) && !EndsWithAssistant(GetCurrentMessages(t)) && cs != []
    ensures FoldChunks(t, cs) == AppendMessage(t, Message(Assistant, ConcatChunks(cs), Some(cs[0].at)))
    decreases |cs|
  {
    var front, last := cs[..|cs| - 1], cs[|cs| - 1];
    if front == [] {
      assert ConcatChunks(cs) == last.text;
    } else {
      FoldIsWholeReply(t, front);
      assert front[0] == cs[0];
      ChunkAfterAppend(t, Message(Assistant, ConcatChunks(front), Some(cs[0].at)), last.text, last.at);
    }
  }

  /** Folding c1..cN after a user turn yields exactly one new assistant
      message on the path, with content c1 + ... + cN; every earlier message,
      on the path or off it, is unchanged. */
  lemma FoldReply(t: Tree, cs: seq<Chunk>)
    requires Valid(t) && !EndsWithAssistant(GetCurrentMessages(t)) && cs != []
    ensures var r := FoldChunks(t, cs);
      && r.currentPath == t.currentPath + [t.nextId]
      && r.nodes.Keys == t.nodes.Keys + {t.nextId}
      && (forall k :: k in t.nodes ==> r.nodes[k].message == t.nodes[k].message)
      && GetCurrentMessages(r) == GetCurrentMessages(t) + [Message(Assistant, ConcatChunks(cs), Some(cs[0].at))]
  {
    FoldIsWholeReply(t, cs);
    AppendMessageNodes(t, Message(Assistant, ConcatChunks(cs), Some(cs[0].at)));
  }

  /** Chunking invariance: how the reply was cut into chunks does not
      matter, only the text they spell and when the first one arrived. */
  lemma FoldIgnoresChunkBoundaries(t: Tree, cs: seq<Chunk>, ds: seq<Chunk>)
    requires Valid(t) && !EndsWithAssistant(GetCurrentMessages(t)) && cs != [] && ds != []
    requires ConcatChunks(cs) == ConcatChunks(ds) && cs[0].at == ds[0].at
    ensures FoldChunks(t, cs) == FoldChunks(t, ds)
  {
    FoldIsWholeReply(t, cs);
    FoldIsWholeReply(t, ds);
  }

  /** Chunks that arrive while the leaf already holds an assistant message
      (a stream resumed onto a restored or stopped reply) all grow that one
      message, as a single chunk of their concatenation would. */
  lemma {:induction false} FoldOntoAssistant(t: Tree, cs: seq<Chunk>)
    requires Valid(t) && EndsWithAssistant(GetCurrentMessages(t))
    ensures FoldChunks(t, cs) == GrowLeaf(t, ConcatChunks(cs))
    ensures EndsWithAssistant(GetCurrentMessages(FoldChunks(t, cs)))
    decreases |cs|
  {
    var leaf := t.currentPath[|t.currentPath| - 1];
    if cs == [] {
      var last := t.nodes[leaf].message;
      assert last.(content := last.content + "") == last;
      assert t.nodes[leaf].(message := last) == t.nodes[leaf];
      assert t.nodes[leaf := t.nodes[leaf]] == t.nodes;
    } else {
      var front, last := cs[..|cs| - 1], cs[|cs| - 1];
      FoldOntoAssistant(t, front);
      var g := GrowLeaf(t, ConcatChunks(front));
      var ms := GetCurrentMessages(t);
      ExtendedLeafMessages(t, g, ms[|ms| - 1].(content := ms[|ms| - 1].content + ConcatChunks(front)));
      var gs := GetCurrentMessages(g);
      ExtendedLeafMessages(g, GrowLeaf(g, last.text), gs[|gs| - 1].(content := gs[|gs| - 1].content + last.text));
      GrowLeafTwice(t, ConcatChunks(front), last.text);
    }
  }

  lemma GrowLeafTwice(t: Tree, a: string, b: string)
    requires Valid(t) && t.currentPath != []
    ensures GrowLeaf(GrowLeaf(t, a), b) == GrowLeaf(t, a + b)
  {
    var leaf := t.currentPath[|t.currentPath| - 1];
    var c := t.nodes[leaf].message.content;
    assert (c + a) + b == c + (a + b);
  }
}
