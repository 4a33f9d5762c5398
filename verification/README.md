# Verification model of ChatGPT Cursor Bridge

A Dafny model of the parts of the browser extension and its Local Bridge whose behaviour is hard to
see from one function: the streaming chat pipeline, the chat and approval protocols of the
extension, the staged credential store, impact analysis over the code index, and the parsers and
logs around them.
`dafny verify dfyconfig.toml` checks the whole project.

## How it is built

Code that changes state is a class or a method with a loop, as in the program; each such method is
tied to a function of the old state, and the results are proved about runs of those functions.

- **Streaming** (`Stream`). The Bridge frames events, the client reads chunks into a rolling buffer.
  JSON is a pair of parameters; the only assumption is that a serialised payload parses back and
  holds no raw newline (RFC 8259, section 7).
- **Chat** (`Conversations`, `ChatStore`, `ChatController`, `ChatProtocol`, `ChatSafety`, `ChatSettle`,
  `ChatTranscript`, `ChatRetry`, `ChatLateDelivery`, `ChatHistory`, `ChatReplies`, `ChatReload`). A handler runs to its network
  await in one step; what a request delivers and how it settles are further steps, in any order with every
  click. An aborted request stays in flight and may still deliver.
- **Approvals** (`Approvals`, `ApprovalSafety`, `ApprovalOutcomes`, `ApprovalController`, `Observer`). The same
  style: clicks, replies, page reloads and a trace of what went to the Bridge and came back.
- **Credentials** (`Base64`, `Envelope`, `Credentials`, `CredentialStore`). The table as rows in
  insertion order, refined by a vault of keys in the clear. The cipher is a parameter; the only
  assumption is that opening inverts sealing for the same nonce and data under one key.
- **Code index** (`ModuleResolution`, `CodeIndex`, `DependencyQuery`, `Order`, `Impact`). Parser output
  is part of a scan; tables, path arithmetic, queries and the search are concrete.
- **Action blocks** (`ActionScanner`, `ActionSchema`, `ActionParser`, `Fingerprint`), **Markdown**
  (`Markdown`, `MarkdownWriting`), **audit log** (`Audit`), **extension state** (`Persistence`).
- `Options`, `Sequences` and `Text` are shared vocabulary.

## Where the code does less than its comments say

Each of these is a lemma with the exact condition or a general counterexample.

- With twenty pinned chats, New Chat drops the chat it opens; the active id then points nowhere, a
  send posts an empty transcript, and unpinning later does not repair it
  (`ChatSafety.ActiveChatIsLostExactlyWhen`, `ChatTranscript.SendPostsTheText`,
  `ChatSafety.LostChatStaysLostAfterUnpinning`).
- A stopped request clears, when it settles, even a page captured after Stop
  (`ChatSafety.StoppedRequestForgetsLaterCapture`); the page stays exactly under the last condition of
  `OnlyOwnTurnAndPage` in `ChatSafety.StaleRequestIsInert`: the request carried no page, or there is none to clear.
- A reload in the middle of a stream keeps the turn's streaming mark although its request is gone
  (`ChatReload.ReloadIsProperExactlyWhen`). A second turn can then come to stream, exactly after such reloads
  (`ChatReload.ReloadIsSafeExactlyWhen`); whether the next send or Retry does it has exact conditions too
  (`ChatReload.SendAfterUnsafeReload`, `ChatReload.RetryAfterUnsafeReload`).
- A late delivery of a stopped request into an earlier turn changes the messages Retry resends, exactly if
  it delivers text (`ChatLateDelivery.DeliveryIntoBase`, `ChatLateDelivery.DeliveryIntoBaseIsReachable`).
- A card that was approving when the page was reloaded shows "approving" for good; only that makes a card stuck
  (`ApprovalSafety.StrandedExactlyWhen`, `ApprovalSafety.ReloadStrandsApprovingCards`).
- A text whose action tags are all in capitals matches the pattern but is skipped by the check in
  front of it (`ActionParser.OtherCaseAloneIsIgnored`, `ActionParser.CapitalTagsAreLost`).
- Relative imports of script files never resolve (`ModuleResolution.ScriptRelativeImportsNeverResolve`).
  The number of leading dots of a Python import is ignored, so one finds the right file exactly with one dot
  (`ModuleResolution.RelativeImportIsRightExactlyWhen`).
- Reading the audit log with limit zero returns every line (`Audit.LimitZeroReadsEverything`).
- Envelope parsing accepts more than is ever written; it is exact for canonical text only
  (`Envelope.ReadingIsExactExactlyWhen`).
- Reading stored extension state filters credential-shaped keys but not transient ones; a blob that an
  older build wrote can bring one back (`Persistence.ReadingResetsExactlyWhen`).

## Model

| member | source | states |
|---|---|---|
| Stream.Emit | browser-extension/src/bridge/client.ts:852-863 | A frame delivers exactly the parsed payloads of its `data:` lines, in order; blank payloads and payloads that do not parse are dropped |
| Stream.ReadChunks | browser-extension/src/bridge/client.ts:870-879 | After any chunks, wherever they were cut, the text received so far is cut at its blank lines, all pieces but the last have been delivered and the last is buffered; a text ending in a blank line has been shown completely |
| Stream.SplitCutsAtBlankLines | browser-extension/src/bridge/client.ts:876-877 | No closed frame holds a blank line or makes one with the boundary after it, and the open tail holds none, so no blank line is overlooked, the one at the very end included |
| Stream.OnlyOneCut | browser-extension/src/bridge/client.ts:876-877 | Those rules fix the frames: no other cut of the text meets them |
| Stream.ClosedTextIsShown | browser-extension/src/bridge/client.ts:874-878 | A text just closed by a blank line is shown completely, without waiting for more |
| Stream.LinesShowTheirPayload | browser-extension/src/bridge/client.ts:852-863 | A `data:` line shows what its payload parses to, whatever blanks stand around it; a blank payload and any other line show nothing |
| Stream.SplitFramesExtends | browser-extension/src/bridge/client.ts:876-877 | Frame boundaries found in a prefix are final: more text only extends the open tail, cuts inside `\n\n` included |
| Stream.FramesEventsOfText | browser-extension/src/bridge/client.ts:852-878 | Delivering frame by frame is delivering the whole text at once |
| Stream.AssistantChatStream | browser-extension/src/bridge/client.ts:865-881 | Chunk independence: the reader path delivers what the no-reader path delivers on the whole text, for every chunking |
| Stream.DeliveryIsPrefix | browser-extension/src/bridge/client.ts:872-880 | A stream cut off at any point has shown a prefix of what the complete stream shows |
| Stream.Generate | local-bridge/app/assistant/routes.py:317-326 | The Bridge writes the first event, the iterator's events and, exactly when the iterator raised, one final error event |
| Stream.SentInOrder | local-bridge/app/assistant/routes.py:317-326 | What is sent starts with the first event if there is one, goes on with the rest in order, and is one longer, ending in the error event, exactly when the iterator raised |
| Stream.WireDecodes | local-bridge/app/assistant/routes.py:317-326 | Framing then decoding is the identity on every list of events whose payloads hold no raw newline and parse back |
| Stream.EndToEnd | browser-extension/src/bridge/client.ts:865-881 | Under any re-chunking the client shows exactly the provider's events in order, then one error event exactly when the provider broke off |
| Conversations.CapConversations | browser-extension/src/state/store.ts:239-252 | The two loops over the dropped ids and the final filter compute the capped list, for distinct ids |
| Conversations.CappedKeepsTheRightEntries | browser-extension/src/state/store.ts:235-252 | Capping gives an order-preserving sublist of exactly min(n, 20) entries, drops the oldest unpinned first, and drops a pinned one only when no unpinned one is kept |
| Conversations.NewestSurvives | browser-extension/src/state/store.ts:664-678 | A new unpinned chat survives its own capping exactly when the list is not full or holds an unpinned chat |
| ChatStore.ExtensionStore.NewAssistantConversation | browser-extension/src/state/store.ts:664-678 | New Chat appends, caps and activates the new id, even when capping dropped it |
| ChatStore.ExtensionStore.SelectAssistantConversation | browser-extension/src/state/store.ts:680-685 | Afterwards the id is active exactly if it is listed or already was; nothing else changes, and a listed active chat stays listed |
| ChatStore.ExtensionStore.RemoveAssistantConversation | browser-extension/src/state/store.ts:693-706 | The chat is gone, every other chat is kept in order; if it was active the last remaining chat becomes active or none, otherwise the active chat stays |
| ChatStore.ExtensionStore.ToggleAssistantConversationPinned | browser-extension/src/state/store.ts:754-769 | Exactly the chat with the id changes its pin; turns, ids and order stay |
| ChatStore.ExtensionStore.EnsureConversation | browser-extension/src/state/store.ts:771-776 | A listed active chat is kept, otherwise a new one is opened |
| ChatStore.ExtensionStore.AppendAssistantTurn | browser-extension/src/state/store.ts:778-795 | The turn goes to the end of the ensured chat and nowhere else |
| ChatStore.ExtensionStore.PatchAssistantTurn | browser-extension/src/state/store.ts:797-804 | Exactly the turns with the id get the text and tool calls; identity, stopped marks and the flags not given stay, as do all other turns |
| ChatStore.ExtensionStore.StopAssistantStreaming | browser-extension/src/state/store.ts:816-828 | No turn streams afterwards, exactly the streaming ones became stopped, and every turn keeps all else |
| ChatStore.ExtensionStore.FailAssistantStreaming | browser-extension/src/state/store.ts:847-859 | No turn streams afterwards, exactly the streaming ones became failed, every turn keeps all else, and the message is shown |
| ChatStore.ExtensionStore.DropFailedAssistantTail | browser-extension/src/state/store.ts:869-884 | The loop pops exactly the trailing failed assistant turns of the active chat |
| ChatStore.ExtensionStore.LastAssistantUserMessage | browser-extension/src/state/store.ts:896-904 | The backward search finds the most recent user turn that is not blank, or nothing |
| ChatStore.LastUserTextIsTheLast | browser-extension/src/state/store.ts:896-904 | The text found is that of a user turn that is not blank, with only blank ones after it; nothing is found exactly if all are blank |
| ChatController.Controller.StopAssistant | browser-extension/src/content/controller.ts:456-461 | Afterwards no turn of any chat streams and no request is current, while the requests in flight and what was posted stay as they were |
| ChatController.Controller.SendAssistantMessage | browser-extension/src/content/controller.ts:475-523 | The handler up to its network await is the sending step, also while a turn streams; called while none does it keeps the protocol invariant |
| ChatController.Controller.Submit | browser-extension/src/assistant/chat-view.ts:399-406 | The composer guard in front of the handler is the protocol's Send step |
| ChatController.Controller.RetryAssistant | browser-extension/src/content/controller.ts:591-598 | The handler is the protocol's Retry step, its guard included |
| ChatController.Controller.Settle | browser-extension/src/content/controller.ts:541-581 | The code after the awaited stream is one protocol step; if the request is current, its answer ends complete without an error event, and failed with one or on rejection, with the text back in the composer and the message shown |
| ChatSettle.SettlingEnds | browser-extension/src/content/controller.ts:541-581 | Field by field: without an error event the current request's turn neither streams nor is stopped or failed and shows its reply and calls; with one, or rejected, it is failed, the sent text is the draft, the message is shown and the page stays; no other turn changes |
| ChatSettle.AnswersEndAsTold | browser-extension/src/content/controller.ts:524-581 | Over every run the steps alone tell the marks of an answer: it streams until Stop, its rejection or its resolution, whichever comes first, and ends stopped, failed, or complete unless an error event came before |
| ChatSettle.ErrorIsNamedSafely | browser-extension/src/content/controller.ts:524-534 | An error event changes nothing but the request's error, and that is one of the known sentences, its own if it is among them |
| ChatSettle.NothingToSend | browser-extension/src/assistant/chat-view.ts:399-406 | A blank text, a running stream or, for Retry, no user message: nothing is sent and nothing changes |
| ChatSettle.RetryOpens | browser-extension/src/content/controller.ts:591-598 | When Retry sends, a new current request carries the last user message and the page if it is included |
| ChatSettle.FailedSendGivesTheTextBack | browser-extension/src/content/controller.ts:475-573 | A send empties the composer; if its request is rejected, whatever happened in between, the composer holds the sent text again |
| ChatSafety.OpenedActive | browser-extension/src/content/controller.ts:480-497 | The user turn and the placeholder both land at the end of the active chat, or neither does, exactly if the chat they opened was dropped |
| ChatProtocol.StepKeeps | browser-extension/src/content/controller.ts:442-682 | Every step of every handler keeps the protocol invariant |
| ChatProtocol.RunKeeps | browser-extension/src/content/controller.ts:442-682 | The invariant holds after every interleaving of clicks, events and settling requests |
| ChatSafety.AtMostOneTurnStreams | browser-extension/src/content/controller.ts:475-582 | From every state that meets the invariant, in every interleaving, at most one turn streams, and only while the store's flag is set |
| ChatSafety.PageOpenedIsProper | browser-extension/src/content/content.ts:26-41 | A page load on any stored list without a streaming turn meets the invariant |
| ChatSafety.TurnStatusIsFinal | browser-extension/src/state/store.ts:797-859 | Over every run a turn that no longer streams keeps its stopped and failed marks, and a stopped turn never becomes failed |
| ChatSafety.StopEndsStreaming | browser-extension/src/state/store.ts:816-828 | After Stop nothing streams, exactly the streaming turn became stopped with its partial text kept, and nothing was posted |
| ChatSafety.StaleForever | browser-extension/src/content/controller.ts:505-506 | A request that is not current never becomes current again |
| ChatSafety.StaleRequestIsInert | browser-extension/src/content/controller.ts:541-581 | However late, a stale request changes no streaming flag, status, draft or post; it can only write text into its own turn and clear the page context it was sent with |
| ChatSafety.StoppedRequestForgetsLaterCapture | browser-extension/src/content/controller.ts:574-579 | A stopped request that carried a page clears, when it settles, even a page captured after Stop |
| ChatSafety.AppendTurnActive | browser-extension/src/state/store.ts:771-795 | An appended turn lands at the end of the active chat exactly unless the chat it opened was dropped at once |
| ChatSafety.ActiveChatIsLostExactlyWhen | browser-extension/src/state/store.ts:664-678 | A step moves the active id out of the list exactly when it opens a chat while twenty pinned chats fill the list |
| ChatSafety.ListIsBounded | browser-extension/src/state/store.ts:664-776 | Over every run at most 20 chats with distinct ids, and the active chat is listed unless a chat was opened over twenty pinned ones |
| ChatSafety.LostChatStaysLostAfterUnpinning | browser-extension/src/state/store.ts:664-678 | The number of pinned chats at the end is not a guard: a chat lost while all were pinned stays lost after unpinning |
| ChatReload.ReloadIsProperExactlyWhen | browser-extension/src/state/store.ts:301-309 | A reload meets the invariant again exactly if no turn was streaming |
| ChatReload.AtMostOneTurnStreamsAfterReload | browser-extension/src/state/store.ts:301-309 | After a reload with no streaming turn, at most one turn streams over every later run |
| ChatReload.ReloadIsSafeExactlyWhen | browser-extension/src/state/store.ts:301-309 | No run after a reload ever makes two turns stream, exactly if no turn was streaming at the reload |
| ChatReload.SendAfterUnsafeReload | browser-extension/src/content/controller.ts:475-497 | After a reload in the middle of a stream the next send makes a second turn stream, exactly if the active chat is listed, or opening a chat neither is lost on twenty pinned ones nor displaces the streaming chat |
| ChatReload.RetryAfterUnsafeReload | browser-extension/src/content/controller.ts:591-598 | After a reload in the middle of a stream Retry makes a second turn stream, exactly if the active chat has a user turn to resend |
| ChatReload.UnguardedSendMakesTwoStream | browser-extension/src/content/controller.ts:475-497 | The handler without its callers' guards would make two turns stream, under the same exact condition; with them a send or Retry does nothing while a turn streams |
| ChatReload.FullOfPinnedIsReachable | browser-extension/src/state/store.ts:664-769 | Twenty New Chats and pins lead from an empty store to a list of twenty pinned chats, where the next New Chat is lost |
| ChatReload.StreamWithPageIsReachable | browser-extension/src/content/controller.ts:442-523 | Ask AI and a send lead from an empty store to a current request that carries the page, whose reload is not proper |
| ChatTranscript.BeginSendPosts | browser-extension/src/content/controller.ts:475-521 | One request is posted, with the page only if included, carrying the active transcript or nothing if the chat it opened was dropped |
| ChatTranscript.SendPostsTheText | browser-extension/src/content/controller.ts:480-503 | Send posts the old transcript and the typed text, exactly unless no listed chat is active and twenty pinned chats fill the list; then it posts an empty transcript |
| ChatTranscript.PostedPagesWereCaptured | browser-extension/src/content/controller.ts:442-521 | Over every run a page leaves the extension only if it was captured by Ask AI, in the run or before it |
| ChatTranscript.CapturedPageIsSent | browser-extension/src/content/controller.ts:442-521 | Ask AI sends nothing; the next message carries exactly the captured page |
| ChatTranscript.ClearedPageIsNotSent | browser-extension/src/content/controller.ts:450-454 | After Clear, over every run, nothing carries a page until one is captured again |
| ChatTranscript.ExcludedPageIsNotSent | browser-extension/src/content/controller.ts:475-521 | With the page switched off, over every run, nothing carries one until it is switched on or captured again |
| ChatTranscript.RetryReopens | browser-extension/src/state/store.ts:869-884 | Dropping the failed tail leaves exactly the transcript to resend |
| ChatRetry.AttemptsResend | browser-extension/src/content/controller.ts:475-598 | While a chat waits for its answer and stays listed, through every run that neither writes into it nor completes or stops its reply, each Retry in it posts its base transcript with the page of the moment, and nothing else is posted but what other chats send |
| ChatRetry.RetryResendsTheSameTranscript | browser-extension/src/content/controller.ts:475-598 | However often attempts fail and whatever is interleaved (visits to other chats, sends and stops there, pins, removals, pages, late deliveries outside the base), Retry in the chat posts the messages of the first attempt, and its page while the page is the same |
| ChatLateDelivery.DeliveryIntoBase | browser-extension/src/content/controller.ts:524-598 | After a late delivery to an earlier turn, Retry posts the transcript with the text added; the messages are the same exactly if the text is empty, and the turns exactly if there is no tool call either |
| ChatLateDelivery.DeliveryIntoBaseIsReachable | browser-extension/src/content/controller.ts:475-598 | From an empty store: a message is stopped, the next one fails, the first one's request delivers at last, and Retry posts three messages where the attempt had posted two |
| ChatHistory.UserTurnsAreSends | browser-extension/src/content/controller.ts:475-598 | Over every run the user turns of a listed chat are those it started with followed by the sends to it, none lost, repeated or reordered |
| ChatReplies.TurnsSayWhatWasDelivered | browser-extension/src/content/controller.ts:524-538 | Over every run each turn's text and tool calls are those it started with followed by exactly what was delivered to it, in order, whatever was stopped, failed, retried or settled late |
| ChatReplies.AnswersSayWhatWasDelivered | browser-extension/src/content/controller.ts:475-581 | After any run from a page load, the answer to a send says exactly what its request delivered, over every further run |
| ApprovalController.ApprovalHandlers.HandleParseResults | browser-extension/src/content/controller.ts:684-713 | The loop over parse results is the protocol's Capture step |
| ApprovalOutcomes.CaptureAddsTheNewBlocks | browser-extension/src/content/controller.ts:684-713 | The cards there are stay; one pending card is added, in order, for each valid block whose fingerprint is new, with its fingerprint and kind, and nothing is sent |
| Approvals.StepKeeps | browser-extension/src/content/controller.ts:684-887 | Every click and every reply keeps the approval invariant |
| Approvals.RunKeeps | browser-extension/src/content/controller.ts:684-887 | The invariant holds over all interleavings of clicks and replies |
| ApprovalOutcomes.ApproveStarts | browser-extension/src/content/controller.ts:751-818 | Approve on a pending card makes it approving and sends the staging call of a write or the read; no other card changes |
| ApprovalOutcomes.RejectDecides | browser-extension/src/content/controller.ts:846-859 | Reject on a pending card makes it rejected and sends nothing; no other card changes |
| ApprovalOutcomes.StagingSettles | browser-extension/src/content/controller.ts:816-841 | A returned staging puts its request on the card and sends the approve call; a refused one fails the card |
| ApprovalOutcomes.ApproveSettles | browser-extension/src/content/controller.ts:826-841 | The awaited approve reply makes the card approved and is recorded if it is a success, and makes it failed if not |
| ApprovalOutcomes.ReadSettles | browser-extension/src/content/controller.ts:758-811 | The same for the read of a card that changes nothing |
| ApprovalOutcomes.CardsLiveAlone | browser-extension/src/content/controller.ts:684-887 | Over every run what becomes of a card is told by the clicks and replies about it and the reloads alone |
| ApprovalOutcomes.OutcomeIsTheReply | browser-extension/src/content/controller.ts:751-859 | Over every run a card not yet settled ends approved exactly if a reply its handler waited for was a success, and failed exactly if one was a refusal |
| ApprovalSafety.ReloadStrandsApprovingCards | browser-extension/src/state/store.ts:301-309 | A card that was approving at a reload stays approving in every later run, and its block is not offered again |
| ApprovalSafety.StrandedExactlyWhen | browser-extension/src/state/store.ts:301-309 | Over every run a card is stuck approving exactly if some reload came while it was being approved |
| ApprovalSafety.StrandingIsReachable | browser-extension/src/content/controller.ts:751-787 | One captured block, one click on Approve and a reload strand a card |
| ApprovalSafety.StagedAtMostOnce | browser-extension/src/content/controller.ts:751-818 | In every interleaving each captured action is staged at most once |
| ApprovalSafety.ApproveCarriesItsOwnStaging | browser-extension/src/content/controller.ts:816-826 | An approve call goes out at most once per action and carries the request id its own staging has just returned |
| ApprovalSafety.ApprovedMeansExecuted | browser-extension/src/content/controller.ts:794-834 | An approved card's own approve or read call was sent and then succeeded |
| ApprovalSafety.UnapprovedNeverReachesTheBridge | browser-extension/src/content/controller.ts:846-859 | Nothing about a pending or rejected card was ever sent |
| ApprovalSafety.PendingFingerprintsStayDistinct | browser-extension/src/state/store.ts:560-566 | Over every run cards have pairwise distinct fingerprints and ids: a re-rendered block never comes back |
| ApprovalSafety.CardsAreStable | browser-extension/src/state/store.ts:568-574 | Approved, rejected and failed are absorbing with no further traffic, and no step changes what a card stands for |
| Observer.ConversationObserver.Scan | browser-extension/src/content/dom-observer.ts:76-98 | A scan delivers the results not seen before, first occurrence first, and remembers all of them |
| Observer.UnseenDeliversOnce | browser-extension/src/content/dom-observer.ts:87-91 | One scan delivers exactly the fingerprints not seen before, each once |
| Observer.EveryBlockIsDeliveredOnce | browser-extension/src/content/dom-observer.ts:76-98 | Across all scans every block fingerprint that ever appeared is delivered exactly once |
| Base64.EncodeShape | local-bridge/app/assistant/crypto.py:102-103 | The encoding is ASCII without a colon and has four characters for every three bytes begun |
| Base64.DecodeEncode | local-bridge/app/assistant/crypto.py:98-113 | Decoding inverts encoding for every byte string |
| Base64.JunkIsSkipped | local-bridge/app/assistant/crypto.py:113 | The reader skips every character that is neither in the alphabet nor padding, wherever it stands |
| Base64.CanonicalIsReadExactly | local-bridge/app/assistant/crypto.py:98-115 | Of all texts the lenient reader accepts, exactly the canonical ones (groups of four, alphabet only, padding only at the end, spare bits zero) are written back as they were read |
| Base64.UnpaddedIsReadExactlyWhen | local-bridge/app/assistant/crypto.py:113 | Symbols without padding are read exactly if they come in groups of four: nothing is cut off silently |
| Envelope.ParseSerialize | local-bridge/app/assistant/crypto.py:98-115 | Parsing inverts serialising for every nonce and ciphertext |
| Envelope.SerializeIsInjective | local-bridge/app/assistant/crypto.py:98-105 | Different envelopes are stored differently |
| Envelope.StrayCharactersAreAccepted | local-bridge/app/assistant/crypto.py:107-115 | A concrete other text for every envelope: one stray character more reads the same |
| Envelope.ReadingIsExactExactlyWhen | local-bridge/app/assistant/crypto.py:98-115 | A text parses and is written back unchanged exactly if it is the version and two canonical Base 64 parts between colons |
| Envelope.DecryptEncrypt | local-bridge/app/assistant/crypto.py:159-174 | A sealed key opens to itself under the same data, and its stored form is never empty |
| Envelope.OnlyEmptyIsRefused | local-bridge/app/assistant/crypto.py:159-165 | Sealing refuses the empty key and nothing else |
| Envelope.OpeningFailsExactlyWhen | local-bridge/app/assistant/crypto.py:107-174 | Opening fails exactly if the stored form is not the version and two readable Base 64 parts, or the cipher does not open what they hold |
| Envelope.EnvelopeBoxSeals | local-bridge/app/assistant/crypto.py:118-174 | Sealing never yields the stored form that means "no key", and opening inverts it for the same data |
| Envelope.MaskedHint | local-bridge/app/assistant/crypto.py:83-88 | The hint is empty only for no key and never longer than eight characters |
| CredentialStore.AssistantSettingsStore.StageCredential | local-bridge/app/assistant/store.py:175-235 | Staging returns a new staged, untested record with the given provider, model and base URL, which has a key exactly if one was given or an active one is kept; a key that cannot be sealed is not stored at all |
| CredentialStore.AssistantSettingsStore.ActivateCredential | local-bridge/app/assistant/store.py:237-263 | Activation succeeds exactly for a staged id and returns its record, now active under the given approval, connected exactly if it has a key, all else unchanged |
| CredentialStore.AssistantSettingsStore.ForgetProvider | local-bridge/app/assistant/store.py:309-315 | All rows of the provider go; the answer is whether there were any |
| CredentialStore.AssistantSettingsStore.RecordConnectionStatus | local-bridge/app/assistant/store.py:317-327 | Exactly the provider's active rows get the status and the time; no row is lost or added |
| Credentials.Newest | local-bridge/app/assistant/store.py:272-282 | An active row of the provider with the greatest update time, none exactly when there is none |
| Credentials.Delete | local-bridge/app/assistant/store.py:208-211 | Exactly the rows the clause does not hit remain |
| Credentials.StepRepresents | local-bridge/app/assistant/store.py:175-327 | Every call on the encrypted table is the same call on a vault of clear keys |
| Credentials.TableRefinesVault | local-bridge/app/assistant/store.py:175-327 | Over every run revealing never fails and yields the key last activated for the provider |
| Credentials.EnvelopeTableRefinesVault | local-bridge/app/assistant/crypto.py:91-174 | The same for the real box, an authenticated cipher behind the serialised envelope |
| Credentials.OneStagedAndOneActive | local-bridge/app/assistant/store.py:205-263 | Over every run at most one staged and at most one active row per provider |
| Credentials.EveryEnvelopeOpens | local-bridge/app/assistant/store.py:186-203 | Over every run each stored envelope opens under its own row's provider, and the fingerprint and hint shown are that key's |
| Credentials.OnlyStagedBecomesActive | local-bridge/app/assistant/store.py:237-263 | A row becomes active only by an activation, and only if it is staged at that moment |
| Credentials.WaitingLeavesTheActiveKey | local-bridge/app/assistant/store.py:205-263 | While a credential waits for approval the provider's key in use cannot change |
| Credentials.ActivationRevealsTheStagedKey | local-bridge/app/assistant/store.py:175-263 | Any number of steps after staging, activation reveals the staged key, the kept key or none; until then nothing changed |
| Credentials.KeepExistingKeeps | local-bridge/app/assistant/store.py:193-203 | From every reachable table, over all steps up to approval, keep-existing leaves the revealed key unchanged |
| Credentials.ForgottenStaysForgotten | local-bridge/app/assistant/store.py:309-315 | After forgetting, no pending approval brings a key back until the provider is staged again |
| Impact.ReverseEdges | local-bridge/app/code_intelligence/dependency.py:8-10 | The dictionary maps each target to exactly its sources |
| Impact.Expand | local-bridge/app/code_intelligence/dependency.py:15-18 | Exactly the unseen dependents are marked and queued, each once |
| Impact.FrontierRound | local-bridge/app/code_intelligence/dependency.py:13-18 | One round keeps the search a frontier between two distances |
| Impact.FrontierIsClosestFirst | local-bridge/app/code_intelligence/dependency.py:13-19 | A frontier is closest-first, and with an empty queue it is the whole reachable set |
| Impact.ReverseImpact | local-bridge/app/code_intelligence/dependency.py:6-19 | The loop ends; the answer is sorted without duplicates, reachable and unchanged files only, never holds a file while a nearer one is missing, is exact below the limit, and goes over it by at most the dependents of one file; empty if the changed files alone reach the limit |
| Order.Sorted | local-bridge/app/code_intelligence/dependency.py:15-19 | A set's elements in ascending order, each once |
| ModuleResolution.ResolvesToTheFirstKnown | local-bridge/app/code_intelligence/index.py:43-47 | An import resolves to the candidate that no indexed one precedes, and stays as written exactly if no candidate is indexed |
| ModuleResolution.DottedModuleResolves | local-bridge/app/code_intelligence/index.py:41-47 | An absolute dotted import finds its module file |
| ModuleResolution.AbsoluteImportFindsModuleOrPackage | local-bridge/app/code_intelligence/index.py:41-47 | An absolute import finds the first indexed of the module in the five languages and the package, and stays as written exactly if none is |
| ModuleResolution.BlanksAreIgnored | local-bridge/app/code_intelligence/index.py:37 | Blanks around an import do not change where it is looked for |
| ModuleResolution.DotLevelsAreIgnored | local-bridge/app/code_intelligence/index.py:38-40 | One more leading dot never changes what is looked up, whatever follows the dots |
| ModuleResolution.RelativeImportIsLookedUpBesideItsSource | local-bridge/app/code_intelligence/index.py:37-42 | With any number of dots and plain names, the import is looked up in the source's own directory |
| ModuleResolution.RelativeImportIsRightExactlyWhen | local-bridge/app/code_intelligence/index.py:37-47 | It finds what Python would import, and nothing when that lies outside the project, whatever is indexed, exactly with one dot |
| ModuleResolution.SiblingModuleResolves | local-bridge/app/code_intelligence/index.py:37-47 | A relative import of a module file beside its source resolves to that file |
| ModuleResolution.ScriptRelativeImportsNeverResolve | local-bridge/app/code_intelligence/index.py:38-47 | A script's `./x` or `../x` never resolves to an indexed file |
| CodeIndex.Index.IndexProject | local-bridge/app/code_intelligence/index.py:22-61 | The nested loops leave the other projects' rows followed by exactly the scan's rows, and count declarations and imports |
| CodeIndex.IndexHoldsTheScan | local-bridge/app/code_intelligence/index.py:22-61 | Afterwards each scanned file has its row with its language, digest and time, its declarations in order stand under that row, and the project has no other files |
| CodeIndex.DependenciesAreTheImports | local-bridge/app/code_intelligence/index.py:55-57 | The project's dependency rows are exactly its resolved imports, each once |
| CodeIndex.TargetsAreIndexedOrRaw | local-bridge/app/code_intelligence/index.py:55-57 | Every target is an indexed path or the raw import of its source |
| CodeIndex.IndexingKeepsTheSchema | local-bridge/app/code_intelligence/storage.py:14-45 | Over every run of jobs the keys stay unique and no symbol dangles |
| CodeIndex.OtherProjectsUntouched | local-bridge/app/code_intelligence/index.py:27-29 | Indexing one project leaves all rows of the others as they were, in order |
| CodeIndex.RebuildForgetsTheLastScan | local-bridge/app/code_intelligence/index.py:22-61 | A rebuild depends on the new scan only, up to the file ids used |
| DependencyQuery.DependenciesAreTheFirstRows | local-bridge/app/code_intelligence/index.py:78-83 | The query returns the project's rows, those that touch the path if one is given, in order; the limit drops only later rows, and none below it |
| DependencyQuery.RowsAreReturnedOnce | local-bridge/app/code_intelligence/index.py:78-83 | Each row asked for is returned as often as the table holds it, and no other |
| DependencyQuery.ProjectImpact | local-bridge/app/code_intelligence/dependency.py:6-19 | Whatever the number of rows, every answer depends on a change in the project's whole import graph, and the answers are exact for the rows queried; up to 2000 rows that is the whole graph |
| Fingerprint.SignedStep | browser-extension/src/content/action-parser.ts:55-56 | One signed 32-bit step is the unsigned step modulo 2 to the 32 |
| Fingerprint.Fingerprint | browser-extension/src/content/action-parser.ts:52-59 | The signed loop computes the unsigned fold and prints it |
| Fingerprint.PublishedValues | browser-extension/src/content/action-parser.ts:52-59 | The published FNV-1a values of the empty text and of "a", which fix the constants and the order of the two operations |
| Fingerprint.MultiplicationIsInjective | browser-extension/src/content/action-parser.ts:56 | Multiplying by the prime loses nothing modulo 2 to the 32 |
| Fingerprint.XorCancels | browser-extension/src/content/action-parser.ts:55 | Exclusive or undoes itself |
| Fingerprint.PrintedIsInjective | browser-extension/src/content/action-parser.ts:58 | Different hashes print differently |
| Fingerprint.FingerprintShape | browser-extension/src/content/action-parser.ts:58 | Every fingerprint has twelve characters |
| Fingerprint.OneUnitApartNeverCollides | browser-extension/src/content/action-parser.ts:52-59 | Texts of equal length that differ in exactly one code unit never share a fingerprint |
| ActionScanner.Find | browser-extension/src/content/action-parser.ts:25 | The first place where the tag occurs in any ASCII case, or nowhere |
| ActionScanner.ScanFindsWhatWasEmbedded | browser-extension/src/content/action-parser.ts:261-289 | Bodies without a closing tag, between gaps without an opening tag, are found trimmed and in order |
| ActionParser.ParseActions | browser-extension/src/content/action-parser.ts:253-292 | The pattern loop judges each block once, in order; a result is a failure exactly if the body is empty, too long, does not parse, or says no well-formed action, and otherwise returns just the action said with the block's text and fingerprint |
| ActionParser.ParsingFindsWhatWasEmbedded | browser-extension/src/content/action-parser.ts:253-292 | Parsing a text with embedded blocks judges exactly those blocks |
| ActionParser.EmbeddedActionIsReturned | browser-extension/src/content/action-parser.ts:253-292 | A well-formed action written into any block of a text comes back as it is, at that block's place, with its text and fingerprint |
| ActionParser.OtherCaseAloneIsIgnored | browser-extension/src/content/action-parser.ts:254-256 | The first look for a lower-case tag loses blocks exactly when no opening tag is lower-case |
| ActionParser.CapitalTagsAreLost | browser-extension/src/content/action-parser.ts:253-256 | A block in capital tags matches the pattern but yields no result |
| ActionParser.EveryActionNeedsApproval | browser-extension/src/content/action-parser.ts:235-249 | Every action that parsing returns is well formed and requires approval |
| ActionSchema.AcceptedIsWellFormed | browser-extension/src/content/action-parser.ts:163-250 | Every accepted action is trimmed, within limits, from the closed lists, and requires approval |
| ActionSchema.AcceptedExactlyWhen | browser-extension/src/content/action-parser.ts:163-250 | A value is accepted as an action exactly if it says that action and the action is well formed |
| ActionSchema.WellFormedIsFixed | browser-extension/src/content/action-parser.ts:163-250 | Validation accepts every well-formed action and returns it unchanged |
| ActionSchema.ValidationIsIdempotent | browser-extension/src/content/action-parser.ts:163-250 | Validating an accepted action again returns it |
| ActionSchema.AcceptedPathStaysUnderRoot | browser-extension/src/content/action-parser.ts:71-80 | Resolved segment by segment, with slashes alone or both separators, with blanks kept or ignored, an accepted path never leaves its root |
| Markdown.ReadCode | browser-extension/src/assistant/markdown.ts:47-52 | The inner loop takes the lines up to the next fence |
| Markdown.ReadQuote | browser-extension/src/assistant/markdown.ts:70-75 | The inner loop takes the run of quote lines |
| Markdown.ReadList | browser-extension/src/assistant/markdown.ts:85-92 | The inner loop takes the run of list lines of one kind |
| Markdown.ParseMarkdown | browser-extension/src/assistant/markdown.ts:31-108 | The line loop computes the recursive parse |
| MarkdownWriting.WrittenAllIsRead | browser-extension/src/assistant/markdown.ts:41-107 | Any sequence of headings, quotes, lists, code and paragraphs, written with empty lines in between, is read back as it was |
| MarkdownWriting.WritingThenParsing | browser-extension/src/assistant/markdown.ts:31-108 | The same round trip on text |
| Markdown.PiecesCoverTheSource | browser-extension/src/assistant/markdown.ts:41-107 | Blocks partition the source lines in order: none lost or used twice, unused lines are blank, and each block says what its own lines say |
| Markdown.ParsingIsCompositional | browser-extension/src/assistant/markdown.ts:41-107 | Parsing A, a blank line, then B gives both parses one after the other exactly when A has an even number of fence lines |
| Markdown.TextsAreParsedApartExactlyWhen | browser-extension/src/assistant/markdown.ts:31-108 | The same as an equivalence on source texts, for an empty line in any line-ending style |
| Markdown.AnyEmptyLineParsesApart | browser-extension/src/assistant/markdown.ts:31-108 | The equivalence for each of the three line-ending styles by name |
| Markdown.TextsAreParsedApart | browser-extension/src/assistant/markdown.ts:31-108 | With two newlines between texts the parses stand one after the other if the first leaves no fence open, even when it ends in a carriage return |
| Markdown.AppendInline | browser-extension/src/assistant/markdown.ts:116-130 | The loop over the parts appends the specified nodes |
| Markdown.SpanIsRendered | browser-extension/src/assistant/markdown.ts:116-130 | What stands between the first two ticks becomes a code element, the text before stays, and what follows is rendered like a new text |
| Markdown.LonelyTickIsText | browser-extension/src/assistant/markdown.ts:116-130 | A text without ticks is itself, and a single tick stays in the text |
| Markdown.InlineNodesRestoreTheText | browser-extension/src/assistant/markdown.ts:116-130 | With the ticks put back the nodes spell the text, an unmatched tick included |
| Markdown.SpansHoldNoTick | browser-extension/src/assistant/markdown.ts:117-124 | A code element never holds a tick |
| Audit.FirstFree | local-bridge/app/audit/logger.py:34-39 | The name search ends on an unused name, the first one tried that is |
| Audit.OneLessToTry | local-bridge/app/audit/logger.py:36-39 | Every taken name is a new one, so the search terminates |
| Audit.AuditLogger.RotateIfNeeded | local-bridge/app/audit/logger.py:30-40 | A full live file becomes a new archive, nothing else changes |
| Audit.AuditLogger.Record | local-bridge/app/audit/logger.py:73-78 | One line is appended, after rotating if it would not fit |
| Audit.AuditLogger.ReadEntries | local-bridge/app/audit/logger.py:80-94 | The readable entries of the lines the limit selects |
| Audit.RecordConserves | local-bridge/app/audit/logger.py:73-78 | A record puts its line last and leaves every archive as it was |
| Audit.RotatesExactlyWhen | local-bridge/app/audit/logger.py:30-78 | A record starts a new file exactly if the live one would grow beyond the limit; then all of it becomes one archive under the first unused name, otherwise the archives stay and the live file grows |
| Audit.RunsFromEmptyArePacked | local-bridge/app/audit/logger.py:30-78 | Over every run from an empty log each archive is as full as the lines that came allowed: the next line would not have fitted |
| Audit.ReadableLinesAreRead | local-bridge/app/audit/logger.py:87-94 | Readable lines are all read, in order |
| Audit.UnreadableLineIsSkipped | local-bridge/app/audit/logger.py:87-94 | An unreadable line is skipped and hides no other |
| Audit.RunsConserve | local-bridge/app/audit/logger.py:30-78 | Over every run archives in rotation order and then the live file hold exactly the recorded lines, and no archive is overwritten |
| Audit.RunsStayBounded | local-bridge/app/audit/logger.py:30-40 | Over every run no file exceeds the limit unless it is one oversized line |
| Audit.LiveFileBound | local-bridge/app/audit/logger.py:30-40 | The live file never exceeds the limit or its own last line, whichever is more |
| Audit.TailIsTheNewest | local-bridge/app/audit/logger.py:83-86 | A positive limit reads a suffix of everything recorded, from the live file only |
| Audit.LimitZeroReadsEverything | local-bridge/app/audit/logger.py:86 | The limit bounds the answer exactly when it is positive or the file is empty: zero reads everything |
| Persistence.StripForbiddenKeys | browser-extension/src/state/store.ts:317-324 | Exactly the entries whose key is not credential-shaped remain |
| Persistence.PersistentStore.Hydrate | browser-extension/src/state/store.ts:501-518 | Reading merges the filtered blob over the initial state; an unreadable one leaves the initial state |
| Persistence.PersistentStore.ApplyPatch | browser-extension/src/state/store.ts:534-539 | The filtered patch is merged and written |
| Persistence.UpdateAppliesThePatch | browser-extension/src/state/store.ts:534-539 | Key by key: a patched key that is not credential-shaped takes its new value, every other keeps its own, and storage, if written, holds the same but for the transient keys |
| Persistence.NoForbiddenKeyInMemory | browser-extension/src/state/store.ts:501-539 | Over every run no credential-shaped key is in memory, whatever storage held |
| Persistence.StorageIsCleanExactlyWhen | browser-extension/src/state/store.ts:524-539 | After a run storage holds neither a credential-shaped nor a transient key, exactly if it held neither before or the run has written once |
| Persistence.ReloadRestores | browser-extension/src/state/store.ts:501-539 | A reload restores every key but the transient ones, which start over |
| Persistence.ReadingResetsExactlyWhen | browser-extension/src/state/store.ts:505-512 | Reading starts a transient key over exactly if the blob does not hold it, holds its initial value, or the credential filter hits it |
| Persistence.TransientKeysStartOver | browser-extension/src/state/store.ts:501-539 | Over every run on storage this build has written, at the start or in the run, every reload starts every transient key over |

## Left out

- ChatController.Controller.SendAssistantMessage: called while a turn streams it keeps only distinct ids, as the program does; the guards of its two callers (the composer and Retry) give the rest.
- Stream.WireDecodes: JSON text is not modelled; the round trip is stated for payloads that parse back and hold no raw newline.
- Envelope.DecryptEncrypt: AES-256-GCM is a parameter whose opening inverts its sealing; that a wrong key or provider is rejected is not stated.
- CodeIndex.Index.IndexProject: requires distinct paths, which the scanner's directory walk gives; duplicate paths would raise the table's constraint error.
- ModuleResolution.ResolvesToTheFirstKnown: paths follow POSIX `pathlib`; Windows paths are not modelled.
- ActionSchema.ValidationIsIdempotent: the host's `toLowerCase` is a parameter that leaves the five document names alone.
- Audit.AuditLogger.ReadEntries: stripping a line and parsing its JSON is one parameter.
- Storage awaits: `storage.set` is instantaneous, so a Stop between two storage awaits of one send is not modelled.
- Several tabs: the store has no storage listener, so each tab works on its own copy of the stored chats and cards; the chat and approval results are about one page.
- Threads and SQLite locking: store methods are atomic steps.
- Clocks, random ids and nonces: fresh or arbitrary values passed in.
- Reloads between chat steps: a chat reload is a function on its own with its exact condition, not a step of the chat protocol's runs; for the approvals it is a step.
- Building an audit entry and its JSON line; a line is opaque text here.
- Project, provider and model of a request: read from the settings at each send, not part of a post here.
- Titles, renaming, the searched and reordered History view, and the log entries written beside each step: display only.
- Text decoding of byte chunks: chunks are characters; lone surrogates do not occur in the model's strings.
- Error vocabulary: the sentences an error is mapped to, and the values interpolated into validation errors.
- Source parsing: Python's `ast` and the per-language patterns; a scan carries their results.
- Redaction patterns, key files, SHA-256, provider calls, HTTP handlers, onboarding, dashboards and all DOM rendering.
- The Bridge's own approval dispatch and its managers.
