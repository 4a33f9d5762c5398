/** The controller's handlers, each up to its next network await. */
module ChatController {
  import opened Options
  import opened Text
  import opened Conversations
  import opened ChatStore
  import opened ChatProtocol
  import opened ChatSafety
  import opened ChatSettle

  class Controller {
    const store: ExtensionStore
    /** The live stream, aborted by Stop. */
    var assistantAbort: Option<Id>
    var inflight: map<Id, Request>
    var counter: Id
    var posted: seq<Post>

    /** A page load on a hydrated store; ids from `n` on are unused. */
    constructor (store: ExtensionStore, n: Id)
      ensures this.store == store
      ensures State() == PageOpened(store.state, n)
      ensures ListInv(store.state.conversations, None, n) && !store.state.streaming ==> Inv(State())
    {
      this.store := store;
      assistantAbort, inflight, counter, posted := None, map[], n, [];
      new;
      if ListInv(store.state.conversations, None, n) && !store.state.streaming {
        PageOpenedIsProper(store.state, n);
      }
    }

    ghost function State(): World
      reads this, store
    {
      World(store.state, assistantAbort, inflight, counter, posted)
    }

    method NextId() returns (id: Id)
      modifies this`counter
      ensures id == old(counter) && counter == id + 1
    {
      id := counter;
      counter := counter + 1;
    }

    /** Drop the current request and mark its turn; the request itself stays in flight. */
    method StopAssistant()
      modifies this, store
      ensures State() == Next(old(State()), Stop)
      ensures assistantAbort == None && !store.state.streaming
      ensures inflight == old(inflight) && posted == old(posted) && counter == old(counter)
      ensures forall i, k :: !StreamingAt(store.state.conversations, i, k)
    {
      assistantAbort := None;
      store.StopAssistantStreaming();
    }

    /** The two turns of a send, the streaming flag and the emptied composer. */
    method OpenTurns(text: string, appendUserTurn: bool, n: Id)
      requires DistinctIds(store.state.conversations) && IdsBelow(store.state.conversations, n)
      modifies store
      ensures store.state == Opened(old(store.state), text, appendUserTurn, n)
    {
      hide AppendTurn;
      if appendUserTurn {
        AppendKeepsIds(store.state, UserTurn(n, text), n + 1, n, n + 2);
        store.AppendAssistantTurn(UserTurn(n, text), n + 1);
      }
      store.AppendAssistantTurn(Placeholder(n + 2), n + 3);
      store.SetAssistantStreaming(true, "");
      store.SetAssistantDraft("");
    }

    /** Send one message, up to the request. Tool calls that come back later stay proposals. */
    method SendAssistantMessage(text: string, appendUserTurn: bool)
      requires DistinctIds(store.state.conversations) && IdsBelow(store.state.conversations, counter)
      modifies this, store
      ensures State() == BeginSend(old(State()), text, appendUserTurn)
      ensures old(Inv(State()) && !store.state.streaming) ==> Inv(State())
    {
      hide Inv, Opened, ListInv, Origins, Transcript, ActiveConversation, DistinctIds, IdsBelow;
      if Inv(State()) && !store.state.streaming {
        BeginSendKeeps(State(), text, appendUserTurn);
      }
      var webContext := if store.state.includeContext then store.state.webContext else None;
      var turnId, abort := counter + 2, counter + 4;
      OpenTurns(text, appendUserTurn, counter);
      counter := counter + 5;
      var conversation := ActiveConversation(store.state);
      var turns := if conversation.Some? then conversation.value.turns else [];
      assistantAbort := Some(abort);
      inflight := inflight[abort := Request(turnId, text, webContext, "", [], "")];
      posted := posted + [Post(Transcript(turns, turnId), webContext)];
    }

    /** The composer's guard in front of `SendAssistantMessage`. */
    method Submit(input: string)
      requires Inv(State())
      modifies this, store
      ensures State() == Next(old(State()), Send(input)) && Inv(State())
    {
      if store.state.streaming {
        return;
      }
      var value := Trim(input);
      if value == [] {
        return;
      }
      InvFacts(State());
      SendAssistantMessage(value, true);
    }

    /** Send the last user message of the active chat once more, without its failed replies. */
    method RetryAssistant()
      requires Inv(State())
      modifies this, store
      ensures State() == Next(old(State()), Retry) && Inv(State())
    {
      StepKeeps(State(), Retry);
      if store.state.streaming {
        return;
      }
      var text := store.LastAssistantUserMessage();
      if text.None? || text.value == [] {
        return;
      }
      InvFacts(State());
      DropTailKeeps(store.state, CurrentTurn(State()), inflight, counter);
      store.DropFailedAssistantTail();
      store.SetAssistantDraft("");
      SendAssistantMessage(text.value, false);
    }

    method OnStreamEvent(id: Id, event: StreamEvent)
      requires id in inflight
      modifies this, store
      ensures State() == Next(old(State()), Receive(id, event))
    {
      var request := inflight[id];
      match event {
        case ErrorEvent(content) =>
          var streamError := if content in SAFE_MESSAGES then content else PROVIDER_UNAVAILABLE;
          inflight := inflight[id := request.(streamError := streamError)];
        case Delta(content, toolCall) =>
          var toolCalls, reply := request.toolCalls, request.reply;
          if toolCall.Some? {
            toolCalls := toolCalls + [toolCall.value];
          }
          reply := reply + content;
          inflight := inflight[id := request.(reply := reply, toolCalls := toolCalls)];
          store.PatchAssistantTurn(request.turnId, Patch(reply, toolCalls, None, None));
      }
    }

    /** The code after the awaited stream: `rejection` is what it threw, if it threw. */
    method Settle(id: Id, rejection: Option<string>)
      requires id in inflight
      modifies this, store
      ensures State() == Next(old(State()), if rejection.Some? then Reject(id, rejection.value) else Resolve(id))
      ensures old(Inv(State()) && assistantAbort == Some(id) && inflight[id].streamError == "") && rejection.None? ==>
                Answered(old(State()), State(), id)
      ensures old(Inv(State()) && assistantAbort == Some(id) && inflight[id].streamError != "") && rejection.None? ==>
                Failed(old(State()), State(), id, old(inflight[id].streamError))
      ensures old(Inv(State()) && assistantAbort == Some(id)) && rejection.Some? ==>
                Failed(old(State()), State(), id, rejection.value)
    {
      hide Inv, Answered, Failed;
      if Inv(State()) && assistantAbort == Some(id) {
        SettlingEnds(State(), id, if rejection.Some? then rejection.value else "");
      }
      var request := inflight[id];
      var failed := false;
      if assistantAbort == Some(id) {
        var message := if rejection.Some? then rejection.value else request.streamError;
        if rejection.Some? || request.streamError != [] {
          failed := true;
          store.PatchAssistantTurn(request.turnId, Patch(request.reply, request.toolCalls, Some(false), Some(true)));
          store.SetAssistantDraft(request.text);
          store.FailAssistantStreaming(message);
        } else {
          store.PatchAssistantTurn(request.turnId, Patch(request.reply, request.toolCalls, Some(false), None));
          store.SetAssistantStreaming(false, if request.toolCalls != [] then TOOL_PROPOSAL else "");
        }
      }
      if assistantAbort == Some(id) {
        assistantAbort := None;
      }
      if request.webContext.Some? && !failed {
        store.SetAssistantWebContext(None);
      }
      inflight := inflight - {id};
    }

    method NewConversationClicked()
      requires Inv(State())
      modifies this, store
      ensures State() == Next(old(State()), NewChat)
    {
      var id := NextId();
      store.NewAssistantConversation(id);
    }

    /** Ask AI: collecting a page is not sending it. */
    method AskAiClicked(bundle: Bundle)
      modifies store
      ensures State() == Next(old(State()), AskAi(bundle))
    {
      store.SetAssistantWebContext(Some(bundle));
      store.SetAssistantStatus(PAGE_CONTEXT_READY);
    }
  }
}
