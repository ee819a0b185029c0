# Chat page core, modelled in Dafny

This project models the logic of the AI chat page of a React front end and
proves properties of it. The page holds a conversation as a tree of
messages. The user submits a question, the answer streams back in chunks,
and each chunk is folded into the tree. A guard built from two flags stops a
second request while one is running. A debounced loading indicator appears
only after a delay and then stays up for a minimum time. Conversations stored
in the older flat format are migrated into a tree. Three helper components
carry small decision rules: the branch counter, the error banner and the
composer.

Modules, one per file:

- `ChatApi` (`chatapi.dfy`): the transport's message, role, request and error records.
- `JsString` (`jsstring.dfy`): JavaScript's `trim`, using the whitespace set of ECMAScript, and `length` in UTF-16 code units.
- `ConversationTree` (`conversationtree.dfy`): the tree, `createConversationTree`, `appendMessage` and `getCurrentMessages`. `src/lib/conversationTree.ts` is not part of this model; these operations are modelled from how the page calls them.
- `ChunkFold` (`chunkfold.dfy`): the chunk updater inside `sendMessage`, and folds of whole replies.
- `AIChat` (`aichat.dfy`):
  - the categories and the system prompt;
  - the page state as the value `Page`, with one pure step function per event;
  - the `ChatSession` class, which holds one `Page` and runs the events;
  - the legacy migration and the local-cache restore decision.
- `LoaderDebounce` (`loaderdebounce.dfy`): the loading indicator's effect, on a logical millisecond clock with explicit timer events.
- `ChatInput`, `ErrorBanner`, `BranchIndicator`: the components' decision rules.

Modelling choices:

- Node ids are natural numbers drawn from a `nextId` counter.
- Time stamps are clock readings passed in as `now`.
- Requests are results: the method that accepts a send returns the request it hands to the transport.
- Requests are numbered in send order from 0. Each keeps the tree its callbacks closed over, so a completion that arrives late reads its own request's capture.

## Model

| member | source | states |
|---|---|---|
| JsString.SkipLeading | src/pages/AIChat.tsx:388 | the scan from the front stops at the first character that is not whitespace, or at the end; everything it passed is whitespace |
| JsString.SkipTrailing | src/pages/AIChat.tsx:388 | the scan from the back stops just past the last character that is not whitespace, or at its lower bound; everything it passed is whitespace |
| JsString.TrimStart | src/pages/AIChat.tsx:388 | the result is a suffix of the input; the dropped prefix is all whitespace; the result is empty or starts with a non-whitespace character |
| JsString.TrimEnd | src/pages/AIChat.tsx:388 | the result is a prefix of the input; the dropped suffix is all whitespace; the result is empty or ends with a non-whitespace character |
| JsString.Trim | src/pages/AIChat.tsx:388 | `trim` gives the infix of the input that starts where `TrimStart` does and is followed only by whitespace; it is empty exactly when the input is blank (both directions), and otherwise starts and ends with non-whitespace |
| JsString.TrimIsBothEnds | src/components/ChatInput.tsx:27 | `trim` equals trimming the end after trimming the start |
| JsString.Utf16Length | src/pages/AIChat.tsx:340 | `chunk.length` counts UTF-16 code units: at least one and at most two per code point |
| JsString.Utf16LengthAppend | src/pages/AIChat.tsx:340 | `length` adds up over concatenation, so adding up chunk lengths counts the text they spell |
| ConversationTree.MessagesAlong | src/pages/AIChat.tsx:155 | the messages along a path are those stored at its ids, in path order, one per id |
| ConversationTree.Create | src/pages/AIChat.tsx:122 | a new conversation is well formed and holds no nodes and no messages |
| ConversationTree.AppendMessage | src/pages/AIChat.tsx:394 | appending keeps the tree well formed, extends the current path by the fresh id, and adds exactly the message to the current messages |
| ConversationTree.AppendMessageNodes | src/pages/AIChat.tsx:394 | the fresh id was unused; its node holds the message under the old leaf (or becomes the root, with no children); every old node keeps its message and parent, and only the old leaf gains the child |
| ConversationTree.AppendMessageKeepsLinks | src/pages/AIChat.tsx:394 | appending keeps the parent and child links consistent in both directions, and keeps the path walking parent-to-child edges |
| ConversationTree.AppendAll | src/pages/AIChat.tsx:280-282 | appending a list in order keeps the tree well formed and adds exactly that list to the current messages |
| ConversationTree.AppendAllKeepsLinks | src/pages/AIChat.tsx:280-282 | appending a list keeps the parent and child links consistent and the path on parent-to-child edges |
| ChunkFold.ApplyChunk | src/pages/AIChat.tsx:342-363 | the chunk updater keeps the tree well formed |
| ChunkFold.ApplyChunkKeepsLinks | src/pages/AIChat.tsx:342-363 | the chunk updater keeps the parent and child links consistent and the path on parent-to-child edges, in both branches |
| ChunkFold.ChunkGrowsLeaf | src/pages/AIChat.tsx:343-355 | after an assistant message, a chunk changes only the leaf node: its content gains the chunk; the role, time stamp, path, id counter and every other node are unchanged |
| ChunkFold.ChunkStartsReply | src/pages/AIChat.tsx:356-362 | otherwise a chunk appends one assistant message holding exactly the chunk, stamped now, and the path grows by one |
| ChunkFold.ExtendedLeafMessages | src/pages/AIChat.tsx:347-354 | replacing the leaf's message replaces only the last current message |
| ChunkFold.ChunkAfterAppend | src/pages/AIChat.tsx:339-363 | a chunk after a freshly appended assistant message gives the tree that appending the longer message would |
| ChunkFold.FoldIsWholeReply | src/pages/AIChat.tsx:339-363 | after a non-assistant turn, folding c1..cN equals appending one assistant message c1+...+cN, stamped at c1 |
| ChunkFold.FoldReply | src/pages/AIChat.tsx:339-363 | folding after a user turn adds exactly one assistant message c1+...+cN to the path and one node; every earlier node's message is unchanged |
| ChunkFold.FoldIgnoresChunkBoundaries | src/pages/AIChat.tsx:339-363 | chunking invariance: two chunkings of the same text, with the same first stamp, give the same tree |
| ChunkFold.FoldOntoAssistant | src/pages/AIChat.tsx:343-355 | chunks after an assistant leaf only grow that leaf by their concatenation |
| ChunkFold.GrowLeafTwice | src/pages/AIChat.tsx:350-353 | growing the leaf by a then b equals growing it by a+b |
| AIChat.DefaultSys | src/pages/AIChat.tsx:42-43 | the default prompt is the fixed prefix, the category label, then the fixed suffix |
| AIChat.DefaultSysDistinguishesCategories | src/pages/AIChat.tsx:31-43 | different categories give different default prompts |
| AIChat.SystemPrompt | src/pages/AIChat.tsx:335 | the prompt starts with `sys`; it equals `sys` iff the style flag is off; otherwise `sys` is followed by a blank line and the three style lines |
| AIChat.BuildRequest | src/pages/AIChat.tsx:338 | the request is the system message, then the history unchanged |
| AIChat.CompletionUtterance | src/pages/AIChat.tsx:369-373 | speech gets the last message iff it is a non-empty assistant message, and then gets its content |
| AIChat.SubmittedRequestShape | src/pages/AIChat.tsx:386-397 | a submitted request is the system message (starting with `sys`), then the previous conversation, then one user message holding the trimmed, non-blank input |
| AIChat.CompletionUtteranceIsReply | src/pages/AIChat.tsx:365-374 | read from the current tree, the utterance after a streamed reply is that reply (none if it is empty) |
| AIChat.StaleCompletionUtterance | src/pages/AIChat.tsx:369 | the handler as written reads the tree captured at send time; the current tree would give the reply just streamed, and the captured one equals it only when the earlier turn ended with that very text |
| AIChat.FirstTurnStaleUtterance | src/pages/AIChat.tsx:369 | on the first turn the handler as written speaks nothing, while the current tree would give the reply "Hi" |
| AIChat.MigrateLegacy | src/pages/AIChat.tsx:276-283 | migrating a flat list gives a well-formed, well-linked tree whose current messages are exactly the list |
| AIChat.RestoreFromCache | src/pages/AIChat.tsx:271-288 | a stored tree wins; without one a legacy list is migrated, and its messages are kept; an unreadable blob changes nothing; the tree it yields is well formed and well linked |
| AIChat.Initial | src/pages/AIChat.tsx:122-131 | the first render is idle, with an empty conversation and input, the first category and its default prompt |
| AIChat.SendMessage | src/pages/AIChat.tsx:325-338 | a send is accepted iff the page is not busy; a refused send changes nothing; an accepted one raises both flags, stamps the start, zeroes the counter, records the current tree as this request's own capture after the earlier requests' captures, and sends the system prompt then `msgs` |
| AIChat.Submit | src/pages/AIChat.tsx:386-397 | accepted iff the input is not blank and the page is not busy, else nothing changes; when accepted: the tree is the old one with one user message holding the trimmed input appended (so every other branch is kept), the input is cleared, the request's capture is the tree from before the append, the page is busy with a zeroed counter, and the request is the system prompt then the whole updated conversation |
| AIChat.Chunked | src/pages/AIChat.tsx:339-341 | a chunk changes only the tree and the counter, and the counter grows by between one and two units per character |
| AIChat.Idle | src/pages/AIChat.tsx:318-380 | completion, error and stop leave the page idle and change nothing else |
| AIChat.NewChat | src/pages/AIChat.tsx:400-403 | a new chat is idle with an empty conversation, and everything else on the page is kept |
| AIChat.StreamedFolds | src/pages/AIChat.tsx:339-363 | a run of chunks changes only the tree, into the chunk fold, and the counter, by the UTF-16 length of the text they spell |
| AIChat.OneRequestPerTurn | src/pages/AIChat.tsx:386-397 | after an accepted submit, whatever chunks arrive, the page stays busy and refuses both another submit and another send |
| AIChat.IdleAcceptsNextSubmit | src/pages/AIChat.tsx:318-397 | once the flags drop, a non-blank submit is accepted again |
| AIChat.CompleteRequest | src/pages/AIChat.tsx:365-368 | the intended completion guard: the page is idle afterwards iff it was idle or the completing request is the latest one; only the flags change |
| AIChat.LateCompletionAsWritten | src/pages/AIChat.tsx:318-397 | as written: after submit A, chunks, stop and an accepted submit B, A's late completion leaves the page idle while B streams, and a third submit is accepted |
| AIChat.LateCompletionIgnored | src/pages/AIChat.tsx:318-397 | with the intended guard, A's late completion keeps the page busy and a third submit is refused; B's completion then leaves it idle |
| AIChat.StreamAfterUserTurn | src/pages/AIChat.tsx:339-363 | a stream after a user turn adds exactly one assistant message, and the counter grows by that message's UTF-16 length |
| AIChat.SubmitEndsWithUser | src/pages/AIChat.tsx:392-397 | an accepted submit leaves the path ending in the user's message with the trimmed input, stamped now, with the counter at 0 |
| AIChat.TurnConversation | src/pages/AIChat.tsx:339-397 | a whole turn adds the trimmed question and one assistant reply c1+...+cN, stamped at c1; the counter is the reply's UTF-16 length |
| AIChat.ChatSession.constructor | src/pages/AIChat.tsx:122-153 | the session starts in the initial page, with the style flag off |
| AIChat.ChatSession.SetInput | src/pages/AIChat.tsx:565 | typing replaces the input only |
| AIChat.ChatSession.SelectCategory | src/pages/AIChat.tsx:485-486 | choosing a category sets it and resets the prompt to its default |
| AIChat.ChatSession.Send | src/pages/AIChat.tsx:325-338 | the session steps by `SendMessage`; an accepted send restarts the received chunks, keeping the counter equal to their UTF-16 length |
| AIChat.ChatSession.OnSubmit | src/pages/AIChat.tsx:386-397 | the session steps by `Submit`, keeping the counter invariant |
| AIChat.ChatSession.OnChunk | src/pages/AIChat.tsx:339-363 | the session steps by `Chunked`; the chunk joins the received list and the counter still equals their UTF-16 length |
| AIChat.ChatSession.OnComplete | src/pages/AIChat.tsx:365-374 | intended completion of request `req`: the page steps by `CompleteRequest`; for the latest request speech gets the utterance of the current tree, for a superseded one nothing |
| AIChat.ChatSession.OnCompleteAsWritten | src/pages/AIChat.tsx:365-374 | completion of request `req` as written: the page goes idle, and speech gets the utterance of the tree that request captured when it was sent |
| AIChat.ChatSession.OnError | src/pages/AIChat.tsx:376-380 | an error leaves the page idle |
| AIChat.ChatSession.Stop | src/pages/AIChat.tsx:318-323 | stop leaves the page idle and keeps the partial reply |
| AIChat.ChatSession.StartNewChat | src/pages/AIChat.tsx:400-403 | the session steps by `NewChat` |
| AIChat.ChatSession.KeyDown | src/pages/AIChat.tsx:568-573 | the page's Enter handler agrees with the composer's rule, for both preventing the default and submitting; an accepted key submits by `Submit` |
| AIChat.ChatSession.Restore | src/pages/AIChat.tsx:271-285 | a loaded, well-linked tree replaces the conversation; no tree changes nothing |
| AIChat.HelloTurn | src/pages/AIChat.tsx:318-397 | on any idle, empty page: " Hello " is submitted as "Hello"; then "Hi", " there", "!" stream and stop is pressed; the result is one request and the conversation [Hello, Hi there!], idle |
| AIChat.StoppedTurn | src/pages/AIChat.tsx:122-131 | the same turn from the first render: one request, carrying the default prompt of the first category |
| LoaderDebounce.Remaining | src/pages/AIChat.tsx:173-174 | the remaining display time is 0 iff 300 ms have passed since the stamp, and otherwise reaches exactly stamp + 300 |
| LoaderDebounce.LoaderDebouncer.constructor | src/pages/AIChat.tsx:137-150 | hidden, no stamp, no timers |
| LoaderDebounce.LoaderDebouncer.RunEffect | src/pages/AIChat.tsx:158-192 | the cleanup clears both timers. Streaming arms the delay timer for now + 150. Going idle while shown either hides at once (300 ms already passed) or arms the hide timer for stamp + 300. Otherwise nothing changes. |
| LoaderDebounce.LoaderDebouncer.SetStreaming | src/pages/AIChat.tsx:158-192 | the invariant is kept. Starting to stream arms only the delay timer. Stopping before the loader shows clears it and the loader never shows. Stopping while shown hides it no earlier than 300 ms after it appeared. Streaming never shows the loader by itself. |
| LoaderDebounce.LoaderDebouncer.AdvanceClock | src/pages/AIChat.tsx:158-192 | time passing before any deadline keeps the invariant |
| LoaderDebounce.LoaderDebouncer.FireTimer | src/pages/AIChat.tsx:161-180 | the delay timer, firing while streaming exactly 150 ms after the start, shows and stamps the loader (re-arming once on the page as written); the hide timer hides it, no earlier than 300 ms after it appeared |
| LoaderDebounce.QuickReply | src/pages/AIChat.tsx:158-192 | a 100 ms reply never shows the loader |
| LoaderDebounce.SlowReplyAsWritten | src/pages/AIChat.tsx:158-192 | as written, a 500 ms reply shows the loader at 150, restamps it at 300 and hides it at 600 |
| LoaderDebounce.SlowReplyIntended | src/pages/AIChat.tsx:158-192 | without the re-arm, the same reply shows at 150 and hides at 500 |
| ChatInput.HandleKeyDown | src/components/ChatInput.tsx:24-30 | Enter without Shift always prevents the default; it submits iff the value is not blank and the composer is enabled; no other key submits |
| ChatInput.ClampHeight | src/components/ChatInput.tsx:20 | the height is `min(scrollHeight, 120)`: never above 120 or the content height, and equal to one of them |
| ChatInput.Render | src/components/ChatInput.tsx:52-77 | send is disabled iff the value is blank or the composer is disabled, and styled active exactly otherwise; the textarea and both other buttons follow `disabled` |
| ChatInput.EnterMatchesSendButton | src/components/ChatInput.tsx:24-30 | Enter submits exactly when the send button is enabled |
| ErrorBanner.Icon | src/components/ErrorBanner.tsx:14-23 | total; the default icon appears iff the code is not one of the five known codes |
| ErrorBanner.BgColor | src/components/ErrorBanner.tsx:25-31 | the accent style iff the code is RATE_LIMIT, the destructive style otherwise (AUTH included) |
| ErrorBanner.Render | src/components/ErrorBanner.tsx:12-69 | no error renders nothing. Otherwise: the message; the status line iff status > 0, showing it; retry iff retryable and a handler is given; dismiss always; the classified icon and colour. |
| ErrorBanner.KnownIconsDistinct | src/components/ErrorBanner.tsx:15-20 | the five known codes have pairwise different icons |
| BranchIndicator.Entries | src/components/BranchIndicator.tsx:64-65 | one entry per branch with its node and preview; entry idx is active iff idx + 1 == currentIndex |
| BranchIndicator.Render | src/components/BranchIndicator.tsx:15-57 | no branches render nothing. Otherwise: total is branches + 1; position is currentIndex + 1; the menu shows iff open; the header marker iff currentIndex == 0. |
| BranchIndicator.ActiveEntries | src/components/BranchIndicator.tsx:65 | exactly one entry is active when 1 <= currentIndex <= branches, else none |
| BranchIndicator.OneCurrentMarker | src/components/BranchIndicator.tsx:57-65 | an open menu marks exactly one row (header or entry) iff 0 <= currentIndex <= branches, else none |
| BranchIndicator.MenuStep | src/components/BranchIndicator.tsx:13-73 | the menu is open after an event exactly when the event was a click on the counter button while it was closed; the backdrop and every entry close it |
| BranchIndicator.ToggleTwice | src/components/BranchIndicator.tsx:23 | two clicks on the counter button leave the menu as it was |
| BranchIndicator.SelectEntry | src/components/BranchIndicator.tsx:70-73 | selecting an entry switches to exactly its node and closes the menu |
| BranchIndicator.SelectRenderedEntry | src/components/BranchIndicator.tsx:64-73 | selecting rendered entry idx switches to branch idx's own node |

## Left out

- Transport, network and persistence:
  - `streamChat` is modelled only through its callbacks, as events.
  - The remote load and save of conversations, the 2-second autosave, and every `localStorage` read and write (including the save inside `stop`) are I/O.
  - A stored tree is taken as already parsed into a well-formed, well-linked tree; a stored blob with dangling ids or broken links is not modelled.
- `serializeTree`, `deserializeTree`, `listBranches` and `switchBranch` belong to the tree library, which is not part of this model. `BranchIndicator` takes its branch list as given.
- Speech output (Web Speech, VOICEVOX) is a browser and network API. The model returns the text that would be spoken, whether or not speech is enabled.
- `Date.now()` and the random conversation id: the clock is the `now` parameter, and the id is not modelled.
- React scheduling: each event runs to completion and sees the state left by the previous one. So the render flag `isStreaming` and the ref `isSubmitting` always agree, and the double-click window the ref guards against (two events in one render) is not modelled.
- AIChat.ChatSession: the page's hooks and refs are held as one `Page` record. Each event replaces it with the result of a step function, so the model does not separate a ref write from a state update.
- AIChat.Chunked: `stop` only clears the two flags and never cancels the transport, so the transport can keep delivering chunks after it, and each of them is still folded into the tree. The model does not end the stream at `stop`.
- AIChat.ChatSession.OnError: it follows the code: an error from a superseded request also clears both flags. The latest-request guard of `CompleteRequest` is modelled for completion only.
- AIChat.ChatSession.OnComplete: no reasoning metadata is attached to the reply, since the code's completion callback takes no arguments.
- JsString.Utf16Length counts code units per code point. A surrogate pair split across two chunks is not modelled, since Dafny strings are sequences of code points.
- The page's inline composer (its textarea, buttons and Enter handler) repeats the rules of `ChatInput`. `ChatSession.KeyDown` ties the two together instead of modelling the markup twice.
- Rendering:
  - The loader's extra render condition (the last message is from the user) is not modelled.
  - Neither are the message list, the markdown, copy-to-clipboard, auto-scroll, the focus styles or the branch menu's dates.
- Decorative components are not modelled: the logos and their animation, the background, the overlays, the typing indicator, the message bubbles, routing and the theme toggle.

## Findings

| source | as written | input that shows it | evidently intended | confidence | as-written member | corrected member |
|---|---|---|---|---|---|---|
| src/pages/AIChat.tsx:365-374 | the completion callback reads `conversationTree` as captured when `sendMessage` was created, which is the tree before the user's message was appended | first turn: submit "Hello", reply "Hi"; the captured tree is empty, so nothing is spoken | speak the reply just streamed, read from the current tree | not executed | AIChat.FirstTurnStaleUtterance | AIChat.ChatSession.OnComplete |
| src/pages/AIChat.tsx:365-368 | every request's completion callback clears `isStreaming` and `isSubmitting`, and `stop` (:318-323) does not cancel the transport | submit A, stop it, submit B; A then completes while B streams: the page is idle and a third submit is accepted | only the latest request's completion ends the stream, so one stream runs at a time | not executed | AIChat.LateCompletionAsWritten | AIChat.CompleteRequest |
| src/pages/AIChat.tsx:158-192 | the effect depends on `showLoader`, so showing the loader re-runs it while streaming; that arms a second 150 ms timer, which restamps `loaderShownAt` | a reply streaming from 0 to 500 ms: shown at 150, restamped at 300, hidden at 600 | the stamp is the moment the loader appeared; it hides at 500, 350 ms after appearing | not executed | LoaderDebounce.SlowReplyAsWritten | LoaderDebounce.SlowReplyIntended |
