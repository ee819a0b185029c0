/** The chat page's own logic: the system prompt, the submission and
    streaming guard around the transport call, the chunk counter, the
    completion handler, new chat, and the restore of a conversation from the
    local cache (with the migration of the legacy flat message list). */
module AIChat {
  import opened ChatApi
  import opened JsString
  import opened ConversationTree
  import opened ChunkFold
  import ChatInput

  /** The seven topic categories of the selector, in menu order. */
  datatype Category = Infrastructure | Networking | OsMiddleware | DevCi | CloudAzure | Security | Troubleshooting

  function CategoryLabel(c: Category): string {
    match c
    case Infrastructure => "インフラ/サーバ"
    case Networking => "ネットワーク"
    case OsMiddleware => "OS/ミドルウェア"
    case DevCi => "開発/CI"
    case CloudAzure => "クラウド/Azure"
    case Security => "セキュリティ"
    case Troubleshooting => "トラブルシュート"
  }

  const SysPrefix := "あなたは"
  const SysSuffix := "領域のシステムエンジニアです。要件の聞き返し→前提の明確化→箇条書きの手順→最後に注意点の順で、簡潔かつ正確に答えてください。"

  /** The default system prompt for a category label. */
  function DefaultSys(cat: string): (r: string)
    ensures |r| == |SysPrefix| + |cat| + |SysSuffix|
    ensures r[..|SysPrefix|] == SysPrefix && r[|SysPrefix|..|SysPrefix| + |cat|] == cat
    ensures r[|SysPrefix| + |cat|..] == SysSuffix
  {
    SysPrefix + cat + SysSuffix
  }

  /** Each category yields its own system prompt. */
  lemma DefaultSysDistinguishesCategories(c: Category, d: Category)
    ensures DefaultSys(CategoryLabel(c)) == DefaultSys(CategoryLabel(d)) ==> c == d
  {
    var x, y := CategoryLabel(c), CategoryLabel(d);
    if DefaultSys(x) == DefaultSys(y) {
      assert |x| == |y|;
      assert x == DefaultSys(x)[|SysPrefix|..|SysPrefix| + |x|] == y;
    }
  }

  /** The optional style rule, three lines joined by newlines. */
  const KumaStyle := "出力ルール：すべての文末に必ず『クマ♡』を付けて返答してください。" + "\n"
    + "コード/コマンド/URL/ファイルパス/JSON/表の中には付けないでください。" + "\n"
    + "箇条書きでも各行の最後に付けてください。"

  /** The system prompt sent with every request: `sys`, followed by a blank
      line and the style rule when the style flag is on. */
  function SystemPrompt(sys: string, kuma: bool): (r: string)
    ensures |r| >= |sys| && r[..|sys|] == sys
    ensures r == sys <==> !kuma
    ensures kuma ==> r[|sys|..] == "\n\n" + KumaStyle
  {
    if kuma then sys + "\n\n" + KumaStyle else sys
  }

  /** The request handed to the transport: the system message first, then
      the history as given. */
  function BuildRequest(prompt: string, history: seq<Message>): (r: Request)
    ensures |r.messages| == |history| + 1
    ensures r.messages[0] == Message(System, prompt, None) && r.messages[1..] == history
  {
    Request([Message(System, prompt, None)] + history)
  }

  /** What the completion handler hands to speech when it reads tree `t`:
      the last message on the path if it is a non-empty assistant message. */
  function CompletionUtterance(t: Tree): (u: Option<string>)
    requires ConversationTree.Valid(t)
    ensures u.Some? <==> EndsWithAssistant(GetCurrentMessages(t)) && Last(GetCurrentMessages(t)).content != ""
    ensures u.Some? ==> u.value == Last(GetCurrentMessages(t)).content
  {
    var ms := GetCurrentMessages(t);
    if |ms| > 0 && ms[|ms| - 1].role == Assistant && ms[|ms| - 1].content != "" then Some(ms[|ms| - 1].content)
    else None
  }

  function Last(ms: seq<Message>): Message
    requires ms != []
  {
    ms[|ms| - 1]
  }

  /** A submitted request is the system message, then the conversation as it
      stood, then the one new user message holding the trimmed input. */
  lemma SubmittedRequestShape(t: Tree, sys: string, kuma: bool, input: string, now: nat)
    requires ConversationTree.Valid(t) && !Blank(input)
    ensures var updated := AppendMessage(t, Message(User, Trim(input), Some(now)));
      var r := BuildRequest(SystemPrompt(sys, kuma), GetCurrentMessages(updated));
      && |r.messages| == |GetCurrentMessages(t)| + 2
      && r.messages[0].role == System && r.messages[0].content[..|sys|] == sys
      && r.messages[1..|r.messages| - 1] == GetCurrentMessages(t)
      && r.messages[|r.messages| - 1] == Message(User, Trim(input), Some(now))
      && Trim(input) != "" && !IsWhitespace(Trim(input)[0])
  {
    var updated := AppendMessage(t, Message(User, Trim(input), Some(now)));
    var r := BuildRequest(SystemPrompt(sys, kuma), GetCurrentMessages(updated));
    assert r.messages[1..] == GetCurrentMessages(t) + [Message(User, Trim(input), Some(now))];
    assert r.messages[1..|r.messages| - 1] == r.messages[1..][..|r.messages| - 2];
  }

  /** After a reply has been folded onto a user turn, the current tree's
      completion utterance is the reply itself, if it is not empty. */
  lemma CompletionUtteranceIsReply(t: Tree, cs: seq<Chunk>)
    requires ConversationTree.Valid(t) && !EndsWithAssistant(GetCurrentMessages(t)) && cs != []
    ensures CompletionUtterance(FoldChunks(t, cs)) == if ConcatChunks(cs) == "" then None else Some(ConcatChunks(cs))
  {
    FoldReply(t, cs);
  }

  /** As written, the completion handler reads the tree captured when the
      request was sent, which is the tree before the user message was
      appended; what it hands to speech is whatever ended that older tree.
      The current tree would give the reply just streamed, and the two agree
      only when the earlier turn ended with that very text. */
  lemma StaleCompletionUtterance(t: Tree, text: string, now: nat, cs: seq<Chunk>)
    requires ConversationTree.Valid(t) && cs != [] && ConcatChunks(cs) != ""
    ensures var current := FoldChunks(AppendMessage(t, Message(User, text, Some(now))), cs);
      && CompletionUtterance(current) == Some(ConcatChunks(cs))
      && (CompletionUtterance(t) == CompletionUtterance(current) <==> CompletionUtterance(t) == Some(ConcatChunks(cs)))
  {
    var updated := AppendMessage(t, Message(User, text, Some(now)));
    assert Last(GetCurrentMessages(updated)).role == User;
    CompletionUtteranceIsReply(updated, cs);
  }

  /** The concrete case: on the first turn, "Hello" and a reply "Hi", the
      handler as written hands nothing to speech, the intended handler "Hi". */
  lemma FirstTurnStaleUtterance()
    ensures var t0 := Create();
      var t2 := FoldChunks(AppendMessage(t0, Message(User, "Hello", Some(0))), [Chunk("Hi", 1)]);
      CompletionUtterance(t0) == None && CompletionUtterance(t2) == Some("Hi")
  {
    var t1 := AppendMessage(Create(), Message(User, "Hello", Some(0)));
    assert Last(GetCurrentMessages(t1)).role == User;
    assert ConcatChunks([Chunk("Hi", 1)]) == "Hi" by {
      assert [Chunk("Hi", 1)][..0] == [];
    }
    CompletionUtteranceIsReply(t1, [Chunk("Hi", 1)]);
  }

  /** Legacy migration: the flat message list of the older cache format,
      appended one message at a time to an empty tree. The result is a
      linear, well-linked tree whose current messages are exactly the list. */
  method MigrateLegacy(msgs: seq<Message>) returns (t: Tree)
    ensures ConversationTree.Valid(t) && Linked(t)
    ensures t == AppendAll(Create(), msgs)
    ensures GetCurrentMessages(t) == msgs
  {
    t := Create();
    for i := 0 to |msgs|
      invariant ConversationTree.Valid(t) && Linked(t)
      invariant t == AppendAll(Create(), msgs[..i])
    {
      AppendMessageKeepsLinks(t, msgs[i]);
      AppendAllStep(msgs, i);
      t := AppendMessage(t, msgs[i]);
    }
    assert msgs[..|msgs|] == msgs;
  }

  lemma AppendAllStep(msgs: seq<Message>, i: nat)
    requires i < |msgs|
    ensures AppendAll(Create(), msgs[..i + 1]) == AppendMessage(AppendAll(Create(), msgs[..i]), msgs[i])
  {
    assert msgs[..i + 1][..i] == msgs[..i];
  }

  /** A cache entry as the page finds it: absent (or the empty string),
      present but failing to parse, or parsed. */
  datatype Blob<T> = Missing | Unreadable | Parsed(value: T)

  /** The local-cache branch of the conversation loader: a tree blob wins;
      without one the legacy flat list is migrated into a linear tree; any
      parse failure is swallowed and leaves the conversation as it was
      (`None`). */
  function RestoreFromCache(treeBlob: Blob<Tree>, legacy: Blob<seq<Message>>): (r: Option<Tree>)
    requires treeBlob.Parsed? ==> ConversationTree.Valid(treeBlob.value) && Linked(treeBlob.value)
    ensures r.Some? ==> ConversationTree.Valid(r.value) && Linked(r.value)
    ensures treeBlob.Parsed? ==> r == Some(treeBlob.value)
    ensures treeBlob.Unreadable? ==> r == None
    ensures treeBlob.Missing? ==> (r.Some? <==> legacy.Parsed?)
    ensures treeBlob.Missing? && legacy.Parsed? ==> GetCurrentMessages(r.value) == legacy.value
  {
    match treeBlob
    case Parsed(t) => Some(t)
    case Unreadable => None
    case Missing =>
      match legacy
      case Parsed(msgs) =>
        AppendAllKeepsLinks(Create(), msgs);
        Some(AppendAll(Create(), msgs))
      case _ => None
  }

  /** The chunk counter is the UTF-16 length of the chunks received. */
  ghost predicate CounterAgrees(count: nat, cs: seq<Chunk>) {
    count == Utf16Length(ConcatChunks(cs))
  }

  /** Everything the page keeps about the conversation, as one value: its
      state hooks (`conversationTree`, `input`, `category`, `sys`,
      `isStreaming`) and refs (`isSubmitting`, `streamStartRef`,
      `streamCharsRef`). Requests are numbered in send order from 0, and
      `captured[n]` is the tree that the callbacks of request n closed over
      when it was sent; each request keeps its own. */
  datatype Page = Page(
    tree: Tree, captured: seq<Tree>, input: string, category: Category, sys: string,
    isStreaming: bool, isSubmitting: bool, streamStart: nat, streamChars: nat)

  /** The tree, and every tree a request captured, is a well-formed and
      well-linked tree, and the render flag agrees with the synchronous
      guard flag. */
  ghost predicate PageValid(p: Page) {
    && ConversationTree.Valid(p.tree) && Linked(p.tree)
    && (forall n :: 0 <= n < |p.captured| ==> ConversationTree.Valid(p.captured[n]) && Linked(p.captured[n]))
    && p.isStreaming == p.isSubmitting
  }

  /** The guard of `sendMessage` and `onSubmit`: a send is under way. */
  predicate Busy(p: Page) {
    p.isStreaming || p.isSubmitting
  }

  /** The page as first rendered: an empty conversation, the first category
      and its default prompt, idle. */
  function Initial(): (p: Page)
    ensures PageValid(p) && !Busy(p)
    ensures GetCurrentMessages(p.tree) == [] && p.input == ""
    ensures p.sys == DefaultSys(CategoryLabel(p.category)) && p.category == Infrastructure
  {
    Page(Create(), [], "", Infrastructure, DefaultSys(CategoryLabel(Infrastructure)), false, false, 0, 0)
  }

  /** A page and, when an event handed one to the transport, the request. */
  datatype Sent = Sent(page: Page, request: Option<Request>)

  /** `sendMessage`: ignored while busy; otherwise both flags go up, the start
      stamp is taken, the counter restarts at 0, the callbacks capture the
      current tree, and exactly one request (system prompt, then `msgs`)
      goes to the transport. */
  function SendMessage(p: Page, msgs: seq<Message>, now: nat, kuma: bool): (r: Sent)
    requires PageValid(p)
    ensures PageValid(r.page)
    ensures r.request.Some? <==> !Busy(p)
    ensures r.request.None? ==> r.page == p
    ensures r.request.Some? ==>
      && Busy(r.page) && r.page.streamStart == now && r.page.streamChars == 0
      && r.page.captured == p.captured + [p.tree]
      && r.page.tree == p.tree && r.page.input == p.input && r.page.sys == p.sys && r.page.category == p.category
      && r.request.value.messages == [Message(System, SystemPrompt(p.sys, kuma), None)] + msgs
  {
    if p.isStreaming || p.isSubmitting then Sent(p, None)
    else
      Sent(p.(captured := p.captured + [p.tree], isSubmitting := true, isStreaming := true, streamStart := now, streamChars := 0),
           Some(BuildRequest(SystemPrompt(p.sys, kuma), msgs)))
  }

  /** `onSubmit`: a blank input or a busy page changes nothing and sends
      nothing. Otherwise the trimmed input becomes one user message at the
      end of the conversation, the input is cleared, and the request sent
      carries the system prompt followed by the whole updated conversation;
      its callbacks capture the tree from before the append. */
  function Submit(p: Page, now: nat, kuma: bool): (r: Sent)
    requires PageValid(p)
    ensures PageValid(r.page)
    ensures r.request.Some? <==> !Blank(p.input) && !Busy(p)
    ensures r.request.None? ==> r.page == p
    ensures r.request.Some? ==>
      && r.page.tree == AppendMessage(p.tree, Message(User, Trim(p.input), Some(now)))
      && GetCurrentMessages(r.page.tree) == GetCurrentMessages(p.tree) + [Message(User, Trim(p.input), Some(now))]
      && r.page.input == "" && r.page.captured == p.captured + [p.tree]
      && Busy(r.page) && r.page.streamStart == now && r.page.streamChars == 0
      && r.page.sys == p.sys && r.page.category == p.category
      && r.request.value == BuildRequest(SystemPrompt(p.sys, kuma), GetCurrentMessages(r.page.tree))
  {
    var text := Trim(p.input);
    if text == [] || p.isStreaming || p.isSubmitting then Sent(p, None)
    else
      var updated := AppendMessage(p.tree, Message(User, text, Some(now)));
      AppendMessageKeepsLinks(p.tree, Message(User, text, Some(now)));
      var s := SendMessage(p, GetCurrentMessages(updated), now, kuma);
      Sent(s.page.(tree := updated, input := ""), s.request)
  }

  /** The chunk callback: the counter grows by the chunk's UTF-16 length and
      the chunk is folded into the tree; nothing else changes. It keeps
      folding after `stop`, since stopping does not cancel the transport. */
  function Chunked(p: Page, chunk: string, now: nat): (r: Page)
    requires PageValid(p)
    ensures PageValid(r)
    ensures r.(tree := p.tree, streamChars := p.streamChars) == p
    ensures p.streamChars + |chunk| <= r.streamChars <= p.streamChars + 2 * |chunk|
  {
    ApplyChunkKeepsLinks(p.tree, chunk, now);
    p.(tree := ApplyChunk(p.tree, chunk, now), streamChars := p.streamChars + Utf16Length(chunk))
  }

  /** The page after a run of chunks, in arrival order. */
  function Streamed(p: Page, cs: seq<Chunk>): (r: Page)
    requires PageValid(p)
    ensures PageValid(r)
    decreases |cs|
  {
    if cs == [] then p
    else Chunked(Streamed(p, cs[..|cs| - 1]), cs[|cs| - 1].text, cs[|cs| - 1].at)
  }

  /** A chunk keeps the counter equal to the length of what was received. */
  lemma ChunkCounted(p: Page, cs: seq<Chunk>, chunk: string, now: nat)
    requires PageValid(p) && CounterAgrees(p.streamChars, cs)
    ensures CounterAgrees(Chunked(p, chunk, now).streamChars, cs + [Chunk(chunk, now)])
  {
    Utf16LengthAppend(ConcatChunks(cs), chunk);
    assert (cs + [Chunk(chunk, now)])[..|cs|] == cs;
  }

  /** A step that either changes nothing or starts a fresh send keeps the
      counter equal to the length of what was received since the last send. */
  lemma SendCounted(p: Page, s: Sent, cs: seq<Chunk>)
    requires CounterAgrees(p.streamChars, cs) && PageValid(s.page)
    requires s.request.None? ==> s.page == p
    requires s.request.Some? ==> s.page.streamChars == 0
    ensures PageValid(s.page) && CounterAgrees(s.page.streamChars, if s.request.Some? then [] else cs)
  {
  }

  /** Completion, error and `stop` all drop both flags and keep the rest. */
  function Idle(p: Page): (r: Page)
    requires PageValid(p)
    ensures PageValid(r) && !Busy(r)
    ensures r.(isStreaming := p.isStreaming, isSubmitting := p.isSubmitting) == p
  {
    p.(isStreaming := false, isSubmitting := false)
  }

  /** `newChat`: stops a running stream, then starts from an empty tree. */
  function NewChat(p: Page): (r: Page)
    requires PageValid(p)
    ensures PageValid(r) && !Busy(r)
    ensures GetCurrentMessages(r.tree) == [] && r.tree == Create()
    ensures r.(tree := p.tree, isStreaming := p.isStreaming, isSubmitting := p.isSubmitting) == p
  {
    var q := if p.isStreaming then Idle(p) else p;
    q.(tree := Create())
  }

  /** A stream only touches the tree and the counter: the counter is the
      UTF-16 length of the text received and the tree is the chunk fold. */
  lemma {:induction false} StreamedFolds(p: Page, cs: seq<Chunk>)
    requires PageValid(p)
    ensures var r := Streamed(p, cs);
      && r == p.(tree := FoldChunks(p.tree, cs), streamChars := p.streamChars + Utf16Length(ConcatChunks(cs)))
    decreases |cs|
  {
    if cs != [] {
      var front, last := cs[..|cs| - 1], cs[|cs| - 1];
      StreamedFolds(p, front);
      Utf16LengthAppend(ConcatChunks(front), last.text);
    }
  }

  /** While a reply streams, another submit or send is refused, whatever
      chunks have arrived; one accepted submit is one request per turn. */
  lemma OneRequestPerTurn(p: Page, now: nat, kuma: bool, cs: seq<Chunk>, later: nat, msgs: seq<Message>)
    requires PageValid(p)
    requires Submit(p, now, kuma).request.Some?
    ensures var q := Streamed(Submit(p, now, kuma).page, cs);
      && Busy(q)
      && Submit(q, later, kuma) == Sent(q, None)
      && SendMessage(q, msgs, later, kuma) == Sent(q, None)
  {
    StreamedFolds(Submit(p, now, kuma).page, cs);
  }

  /** Once the flags drop (completion, error or stop) the page accepts the
      next non-blank submit. */
  lemma IdleAcceptsNextSubmit(p: Page, now: nat, kuma: bool)
    requires PageValid(p) && !Blank(p.input)
    ensures Submit(Idle(p), now, kuma).request.Some?
  {
  }

  /** The completion guard as intended: only the completion of the latest
      request (number `|p.captured| - 1`) drops the flags; the late
      completion of a request that a newer send superseded changes nothing.
      Only the flags can change. */
  function CompleteRequest(p: Page, req: nat): (r: Page)
    requires PageValid(p)
    ensures PageValid(r)
    ensures !Busy(r) <==> !Busy(p) || req + 1 == |p.captured|
    ensures r.(isStreaming := p.isStreaming, isSubmitting := p.isSubmitting) == p
  {
    if req + 1 == |p.captured| then Idle(p) else p
  }

  /** The page of the overlap scenario below: request A is submitted, some
      of its reply streams, the user stops it, types `inputB` and submits
      request B, which is accepted. */
  function AfterSecondSubmit(p: Page, nowA: nat, cs: seq<Chunk>, inputB: string, nowB: nat, kuma: bool): (r: Sent)
    requires PageValid(p)
    ensures PageValid(r.page)
  {
    var stopped := Idle(Streamed(Submit(p, nowA, kuma).page, cs));
    Submit(stopped.(input := inputB), nowB, kuma)
  }

  /** As written, `stop` does not cancel request A, and A's completion
      callback clears both flags whenever it runs. If it runs while B is
      still streaming, the page is idle again and a third submit is
      accepted, so two streams fold into the same conversation. */
  lemma LateCompletionAsWritten(p: Page, nowA: nat, cs: seq<Chunk>, inputB: string, nowB: nat, kuma: bool,
                                inputC: string, nowC: nat)
    requires PageValid(p) && Submit(p, nowA, kuma).request.Some? && !Blank(inputB) && !Blank(inputC)
    ensures var b := AfterSecondSubmit(p, nowA, cs, inputB, nowB, kuma);
      && b.request.Some? && Busy(b.page)
      && !Busy(Idle(b.page))
      && Submit(Idle(b.page).(input := inputC), nowC, kuma).request.Some?
  {
    StreamedFolds(Submit(p, nowA, kuma).page, cs);
  }

  /** With the intended guard, A's late completion leaves B's stream
      running: the page stays busy and a third submit is refused; B's own
      completion then makes the page idle. */
  lemma LateCompletionIgnored(p: Page, nowA: nat, cs: seq<Chunk>, inputB: string, nowB: nat, kuma: bool,
                              inputC: string, nowC: nat)
    requires PageValid(p) && Submit(p, nowA, kuma).request.Some? && !Blank(inputB)
    ensures var b, reqA := AfterSecondSubmit(p, nowA, cs, inputB, nowB, kuma).page, |p.captured|;
      var late := CompleteRequest(b, reqA);
      && Busy(late)
      && Submit(late.(input := inputC), nowC, kuma) == Sent(late.(input := inputC), None)
      && !Busy(CompleteRequest(late, reqA + 1))
  {
    var a := Submit(p, nowA, kuma).page;
    StreamedFolds(a, cs);
    assert |a.captured| == |p.captured| + 1;
  }

  /** A stream that follows a user turn adds exactly one assistant message,
      the chunks' text stamped at the first chunk, and counts that text. */
  lemma StreamAfterUserTurn(p: Page, cs: seq<Chunk>)
    requires PageValid(p) && !EndsWithAssistant(GetCurrentMessages(p.tree)) && cs != []
    ensures var q := Streamed(p, cs);
      && GetCurrentMessages(q.tree) == GetCurrentMessages(p.tree) + [Message(Assistant, ConcatChunks(cs), Some(cs[0].at))]
      && q.streamChars == p.streamChars + Utf16Length(ConcatChunks(cs))
  {
    StreamedFolds(p, cs);
    FoldReply(p.tree, cs);
  }

  /** An accepted submit leaves the path ending in the new user message. */
  lemma SubmitEndsWithUser(p: Page, now: nat, kuma: bool)
    requires PageValid(p) && Submit(p, now, kuma).request.Some?
    ensures var q := Submit(p, now, kuma).page;
      && GetCurrentMessages(q.tree) != [] && Last(GetCurrentMessages(q.tree)) == Message(User, Trim(p.input), Some(now))
      && !EndsWithAssistant(GetCurrentMessages(q.tree)) && q.streamChars == 0
  {
    var ms := GetCurrentMessages(Submit(p, now, kuma).page.tree);
    assert ms[|ms| - 1] == Message(User, Trim(p.input), Some(now));
  }

  /** One whole turn: after an accepted submit and a non-empty stream of
      chunks, the conversation is the old one plus the trimmed question and
      one assistant message holding the chunks' text stamped at the first
      chunk; the counter is that text's UTF-16 length. */
  lemma TurnConversation(p: Page, now: nat, kuma: bool, cs: seq<Chunk>)
    requires PageValid(p) && Submit(p, now, kuma).request.Some? && cs != []
    ensures var q := Streamed(Submit(p, now, kuma).page, cs);
      && GetCurrentMessages(q.tree) == GetCurrentMessages(p.tree) +
           [Message(User, Trim(p.input), Some(now)), Message(Assistant, ConcatChunks(cs), Some(cs[0].at))]
      && q.streamChars == Utf16Length(ConcatChunks(cs))
  {
    var q := Submit(p, now, kuma).page;
    SubmitEndsWithUser(p, now, kuma);
    StreamAfterUserTurn(q, cs);
    AppendTwo(GetCurrentMessages(p.tree), Message(User, Trim(p.input), Some(now)),
              Message(Assistant, ConcatChunks(cs), Some(cs[0].at)));
  }

  lemma AppendTwo<T>(s: seq<T>, x: T, y: T)
    ensures s + [x] + [y] == s + [x, y]
  {
  }

  /** The chat page's state machine. The transport callbacks (chunk,
      completion, error) are the event methods, the request an accepted send
      hands to the transport is its result, and the clock is the `now`
      parameter of the events that read it. */
  class ChatSession {
    var page: Page
    const kumaEnabled: bool

    /** Chunks received since the last accepted send. */
    ghost var received: seq<Chunk>

    /** The page is well formed, and the counter is the UTF-16 length of
        what arrived since the last send. */
    ghost predicate Valid()
      reads this
    {
      PageValid(page) && CounterAgrees(page.streamChars, received)
    }

    constructor ()
      ensures Valid() && page == Initial() && !kumaEnabled && received == []
    {
      page := Initial();
      kumaEnabled := false;
      received := [];
    }

    /** Typing into the composer. */
    method SetInput(text: string)
      requires Valid()
      modifies this
      ensures Valid() && page == old(page).(input := text) && received == old(received)
    {
      page := page.(input := text);
    }

    /** Choosing a category replaces the system prompt with its default. */
    method SelectCategory(c: Category)
      requires Valid()
      modifies this
      ensures Valid() && received == old(received)
      ensures page == old(page).(category := c, sys := DefaultSys(CategoryLabel(c)))
    {
      page := page.(category := c, sys := DefaultSys(CategoryLabel(c)));
    }

    /** `sendMessage`, on this page. */
    method Send(msgs: seq<Message>, now: nat) returns (sent: Option<Request>)
      requires Valid()
      modifies this
      ensures Valid()
      ensures Sent(page, sent) == SendMessage(old(page), msgs, now, kumaEnabled)
      ensures received == if sent.Some? then [] else old(received)
    {
      var s := SendMessage(page, msgs, now, kumaEnabled);
      SendCounted(page, s, received);
      sent := Commit(s);
    }

    /** The form's `onSubmit`. */
    method OnSubmit(now: nat) returns (sent: Option<Request>)
      requires Valid()
      modifies this
      ensures Valid()
      ensures Sent(page, sent) == Submit(old(page), now, kumaEnabled)
      ensures received == if sent.Some? then [] else old(received)
    {
      var s := Submit(page, now, kumaEnabled);
      SendCounted(page, s, received);
      sent := Commit(s);
    }

    /** Installs the page a send step produced; an accepted send restarts
        the record of received chunks. */
    method Commit(s: Sent) returns (sent: Option<Request>)
      requires PageValid(s.page) && CounterAgrees(s.page.streamChars, if s.request.Some? then [] else received)
      modifies this
      ensures Valid() && page == s.page && sent == s.request
      ensures received == if s.request.Some? then [] else old(received)
    {
      page, sent, received := s.page, s.request, if s.request.Some? then [] else received;
    }

    /** The chunk callback. */
    method OnChunk(chunk: string, now: nat)
      requires Valid()
      modifies this
      ensures Valid()
      ensures page == Chunked(old(page), chunk, now)
      ensures received == old(received) + [Chunk(chunk, now)]
    {
      var next := Chunked(page, chunk, now);
      ChunkCounted(page, received, chunk, now);
      page, received := next, received + [Chunk(chunk, now)];
    }

    /** The completion callback of request `req`, as intended: only the
        latest request's completion drops the flags and hands the reply now
        at the leaf of the current tree to speech; a superseded request's
        completion is ignored. */
    method OnComplete(req: nat) returns (utterance: Option<string>)
      requires Valid()
      modifies this
      ensures Valid() && page == CompleteRequest(old(page), req) && received == old(received)
      ensures utterance == if req + 1 == |old(page).captured| then CompletionUtterance(page.tree) else None
    {
      page := CompleteRequest(page, req);
      utterance := if req + 1 == |page.captured| then CompletionUtterance(page.tree) else None;
    }

    /** The completion callback of request `req` as written: it reads the
        tree that request captured when it was sent. */
    method OnCompleteAsWritten(req: nat) returns (utterance: Option<string>)
      requires Valid() && req < |page.captured|
      modifies this
      ensures Valid() && page == Idle(old(page)) && received == old(received)
      ensures utterance == CompletionUtterance(page.captured[req])
    {
      page := Idle(page);
      utterance := CompletionUtterance(page.captured[req]);
    }

    /** The error callback: both flags drop; the error is only logged. */
    method OnError(err: ChatError)
      requires Valid()
      modifies this
      ensures Valid() && page == Idle(old(page)) && received == old(received)
    {
      page := Idle(page);
    }

    /** `stop`: both flags drop; the tree, with whatever partial reply it
        holds, is kept (and written to the cache, which is not modelled). */
    method Stop()
      requires Valid()
      modifies this
      ensures Valid() && page == Idle(old(page)) && received == old(received)
    {
      page := Idle(page);
    }

    /** `newChat`. */
    method StartNewChat()
      requires Valid()
      modifies this
      ensures Valid() && page == NewChat(old(page)) && received == old(received)
    {
      page := NewChat(page);
    }

    /** The composer's key handler: Enter without Shift prevents the default
        action and submits; every other key is left alone. Its outcome is the
        composer's own rule for the same key, input and busy flag. */
    method KeyDown(key: string, shiftKey: bool, now: nat) returns (preventDefault: bool, sent: Option<Request>)
      requires Valid()
      modifies this
      ensures Valid()
      ensures preventDefault == ChatInput.HandleKeyDown(key, shiftKey, old(page).input, old(page).isStreaming).preventDefault
      ensures sent.Some? == ChatInput.HandleKeyDown(key, shiftKey, old(page).input, old(page).isStreaming).submit
      ensures Sent(page, sent) == if preventDefault then Submit(old(page), now, kumaEnabled) else Sent(old(page), None)
      ensures received == if sent.Some? then [] else old(received)
    {
      preventDefault := key == "Enter" && !shiftKey;
      sent := None;
      if preventDefault {
        sent := OnSubmit(now);
      }
    }

    /** Replacing the conversation by one loaded from the cache, if any. */
    method Restore(loaded: Option<Tree>)
      requires Valid() && (loaded.Some? ==> ConversationTree.Valid(loaded.value) && Linked(loaded.value))
      modifies this
      ensures Valid() && received == old(received)
      ensures page == if loaded.Some? then old(page).(tree := loaded.value) else old(page)
    {
      if loaded.Some? {
        page := page.(tree := loaded.value);
      }
    }
  }

  /** The three chunks of the reply in the scenario below. */
  function ReplyChunks(): seq<Chunk> {
    [Chunk("Hi", 10), Chunk(" there", 20), Chunk("!", 30)]
  }

  lemma ReplyChunksSpell()
    ensures ConcatChunks(ReplyChunks()) == "Hi there!" && ReplyChunks()[0].at == 10
  {
    var c1, c2, c3 := Chunk("Hi", 10), Chunk(" there", 20), Chunk("!", 30);
    assert [c1, c2, c3][..2] == [c1, c2] && [c1, c2][..1] == [c1] && [c1][..0] == [];
    assert ConcatChunks([c1]) == "Hi";
    assert ConcatChunks([c1, c2]) == "Hi there";
  }

  lemma TrimHello()
    ensures Trim(" Hello ") == "Hello" && !Blank(" Hello ")
  {
    var s := " Hello ";
    assert IsWhitespace(s[0]) && !IsWhitespace(s[1]) && !IsWhitespace(s[5]) && IsWhitespace(s[6]);
    assert SkipLeading(s, 0) == SkipLeading(s, 1) == 1;
    assert SkipTrailing(s, 1, 7) == SkipTrailing(s, 1, 6) == 6;
    assert s[1..6] == "Hello";
  }

  /** The scenario below on any idle page with an empty conversation. */
  lemma HelloTurn(typed: Page)
    requires PageValid(typed) && !Busy(typed) && GetCurrentMessages(typed.tree) == [] && typed.input == " Hello "
    ensures var submit := Submit(typed, 0, false);
      var stopped := Idle(Streamed(submit.page, ReplyChunks()));
      && submit.request == Some(BuildRequest(typed.sys, [Message(User, "Hello", Some(0))]))
      && GetCurrentMessages(stopped.tree) == [Message(User, "Hello", Some(0)), Message(Assistant, "Hi there!", Some(10))]
      && !Busy(stopped)
  {
    TrimHello();
    ReplyChunksSpell();
    var submit := Submit(typed, 0, false);
    var hello := [Message(User, "Hello", Some(0))];
    assert GetCurrentMessages(submit.page.tree) == [] + hello == hello;
    assert SystemPrompt(typed.sys, false) == typed.sys;
    assert submit.request == Some(BuildRequest(typed.sys, hello));
    TurnConversation(typed, 0, false, ReplyChunks());
    assert [] + [Message(User, "Hello", Some(0)), Message(Assistant, "Hi there!", Some(10))]
        == [Message(User, "Hello", Some(0)), Message(Assistant, "Hi there!", Some(10))];
  }

  /** One turn end to end: the user types "Hello" with surrounding blanks,
      the reply streams as three chunks and the user presses stop. The
      conversation holds the trimmed question and the whole reply, the page
      is idle again and exactly one request went out. */
  lemma StoppedTurn()
    ensures var typed := Initial().(input := " Hello ");
      var submit := Submit(typed, 0, false);
      var stopped := Idle(Streamed(submit.page, ReplyChunks()));
      && submit.request == Some(BuildRequest(DefaultSys(CategoryLabel(Infrastructure)), [Message(User, "Hello", Some(0))]))
      && GetCurrentMessages(stopped.tree) == [Message(User, "Hello", Some(0)), Message(Assistant, "Hi there!", Some(10))]
      && !Busy(stopped)
  {
    HelloTurn(Initial().(input := " Hello "));
  }
}
