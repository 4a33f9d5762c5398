/** What the assistant's turns say: exactly the text and tool proposals that were delivered to them. */
module ChatReplies {
  import opened Options
  import opened Sequences
  import opened Text
  import opened Conversations
  import opened ChatStore
  import opened ChatProtocol
  import opened ChatSafety

  datatype Words = Words(text: string, calls: seq<ToolCall>)

  const NOTHING := Words("", [])

  function Then(a: Words, b: Words): Words {
    Words(a.text + b.text, a.calls + b.calls)
  }

  /** Wherever turn `id` is listed, it says `words`. */
  ghost predicate Says(list: seq<Conversation>, id: Id, words: Words) {
    forall i, k | 0 <= i < |list| && 0 <= k < |list[i].turns| && list[i].turns[k].id == id ::
      Words(list[i].turns[k].content, list[i].turns[k].toolCalls) == words
  }

  /** What one step delivers to turn `id`. */
  function Delivered(w: World, step: Step, id: Id): Words {
    if step.Receive? && step.event.Delta? && step.request in w.inflight && w.inflight[step.request].turnId == id
    then Words(step.event.content, if step.event.toolCall.Some? then [step.event.toolCall.value] else [])
    else NOTHING
  }

  /** What a run delivers to turn `id`, in order. */
  function DeliveredTo(w: World, steps: seq<Step>, id: Id): Words
    decreases steps
  {
    if steps == [] then NOTHING
    else Then(Delivered(w, steps[0], id), DeliveredTo(Next(w, steps[0]), steps[1..], id))
  }

  /** A request holds what its turn says. */
  ghost predicate RepliesOk(w: World) {
    forall r | r in w.inflight ::
      Says(w.store.conversations, w.inflight[r].turnId, Words(w.inflight[r].reply, w.inflight[r].toolCalls))
  }

  lemma ThenNothing(a: Words)
    ensures Then(a, NOTHING) == a && Then(NOTHING, a) == a
  {
  }

  lemma ThenAssoc(a: Words, b: Words, c: Words)
    ensures Then(Then(a, b), c) == Then(a, Then(b, c))
  {
    Assoc(a.text, b.text, c.text);
    Assoc(a.calls, b.calls, c.calls);
  }

  // -------------------------------------------------------------- the store operations

  lemma SaysInShrunk(before: seq<Conversation>, after: seq<Conversation>, id: Id, words: Words)
    requires Shrunk(before, after) && Says(before, id, words)
    ensures Says(after, id, words)
  {
    forall i, k | 0 <= i < |after| && 0 <= k < |after[i].turns| && after[i].turns[k].id == id
      ensures Words(after[i].turns[k].content, after[i].turns[k].toolCalls) == words
    {
      assert Kept(before, after[i]);
      var j :| 0 <= j < |before| && before[j].id == after[i].id && after[i].turns <= before[j].turns;
      assert before[j].turns[k] == after[i].turns[k];
    }
  }

  lemma OpeningShrinks(s: ChatState, newId: Id)
    requires DistinctIds(s.conversations) && IdsBelow(s.conversations, newId)
    ensures Shrunk(s.conversations, NewConversation(s, newId).conversations)
  {
    var all := s.conversations + [Conversation(newId, [], false)];
    var after := NewConversation(s, newId).conversations;
    CappedMembers(all);
    forall i | 0 <= i < |after|
      ensures after[i].turns == [] || Kept(s.conversations, after[i])
    {
      MemberOfExtended(s.conversations, newId, after[i]);
    }
  }

  lemma RemovingShrinks(s: ChatState, id: Id)
    ensures Shrunk(s.conversations, RemoveConversation(s, id).conversations)
  {
    var after := RemoveConversation(s, id).conversations;
    WithoutSublist(s.conversations, {id});
    forall i | 0 <= i < |after|
      ensures Kept(s.conversations, after[i])
    {
      assert after[i] in s.conversations;
    }
  }

  lemma PinningShrinks(s: ChatState, id: Id)
    ensures Shrunk(s.conversations, TogglePinned(s, id).conversations)
  {
    var after := TogglePinned(s, id).conversations;
    forall i | 0 <= i < |after|
      ensures Kept(s.conversations, after[i])
    {
      assert s.conversations[i].id == after[i].id && after[i].turns == s.conversations[i].turns;
    }
  }

  lemma DroppingShrinks(s: ChatState)
    ensures Shrunk(s.conversations, DropFailedTail(s).conversations)
  {
    var after := DropFailedTail(s).conversations;
    forall i | 0 <= i < |after|
      ensures Kept(s.conversations, after[i])
    {
      FailedTailPrefix(s.conversations[i].turns);
      assert s.conversations[i].id == after[i].id && after[i].turns <= s.conversations[i].turns;
    }
  }

  lemma SaysAfterAdd(s: ChatState, chat: Id, turn: Turn, id: Id, words: Words)
    requires Says(s.conversations, id, words)
    requires turn.id == id ==> Words(turn.content, turn.toolCalls) == words
    ensures Says(AddTurn(s, chat, turn).conversations, id, words)
  {
    var before, after := s.conversations, AddTurn(s, chat, turn).conversations;
    forall i, k | 0 <= i < |after| && 0 <= k < |after[i].turns| && after[i].turns[k].id == id
      ensures Words(after[i].turns[k].content, after[i].turns[k].toolCalls) == words
    {
      assert k < |before[i].turns| ==> after[i].turns[k] == before[i].turns[k];
    }
  }

  lemma SaysAfterAppend(s: ChatState, turn: Turn, newId: Id, id: Id, words: Words, n: Id)
    requires DistinctIds(s.conversations) && IdsBelow(s.conversations, n) && n <= newId
    requires Says(s.conversations, id, words)
    requires turn.id == id ==> Words(turn.content, turn.toolCalls) == words
    ensures Says(AppendTurn(s, turn, newId).conversations, id, words)
  {
    hide NewConversation, AddTurn, Says, Shrunk, DistinctIds;
    if s.active.Some? && Present(s, s.active.value) {
      SaysAfterAdd(s, s.active.value, turn, id, words);
    } else {
      OpeningShrinks(s, newId);
      SaysInShrunk(s.conversations, NewConversation(s, newId).conversations, id, words);
      SaysAfterAdd(NewConversation(s, newId), newId, turn, id, words);
    }
  }

  /** Both turns of a send leave every turn's words alone; the new placeholder says nothing yet. */
  lemma SaysAfterOpened(s: ChatState, text: string, appendUserTurn: bool, n: Id, id: Id, words: Words)
    requires DistinctIds(s.conversations) && IdsBelow(s.conversations, n)
    requires Says(s.conversations, id, words)
    requires id < n || (id == n + 2 && words == NOTHING)
    ensures Says(Opened(s, text, appendUserTurn, n).conversations, id, words)
  {
    hide AppendTurn, Says, DistinctIds, IdsBelow;
    var s1 := WithUserTurn(s, text, appendUserTurn, n);
    if appendUserTurn {
      AppendKeepsIds(s, UserTurn(n, text), n + 1, n, n + 2);
      SaysAfterAppend(s, UserTurn(n, text), n + 1, id, words, n);
    }
    assert DistinctIds(s1.conversations) && IdsBelow(s1.conversations, n + 2) by {
      if !appendUserTurn {
        HigherBound(s.conversations, n, n + 2);
      }
    }
    SaysAfterAppend(s1, Placeholder(n + 2), n + 3, id, words, n + 2);
  }

  lemma HigherBound(list: seq<Conversation>, n: Id, m: Id)
    requires IdsBelow(list, n) && n <= m
    ensures IdsBelow(list, m)
  {
  }

  lemma SaysNowhere(list: seq<Conversation>, id: Id, words: Words)
    requires IdsBelow(list, id)
    ensures Says(list, id, words)
  {
  }

  lemma SaysAfterPatch(s: ChatState, turnId: Id, patch: Patch, id: Id, words: Words, now: Words)
    requires Says(s.conversations, id, words)
    requires Says(s.conversations, turnId, now)
    ensures turnId != id ==> Says(PatchTurn(s, turnId, patch).conversations, id, words)
    ensures turnId == id && now == Words(patch.content, patch.toolCalls) ==>
      Says(PatchTurn(s, turnId, patch).conversations, id, words)
    ensures forall more | turnId == id && Then(now, more) == Words(patch.content, patch.toolCalls) ::
      Says(PatchTurn(s, turnId, patch).conversations, id, Then(words, more))
  {
    var before, after := s.conversations, PatchTurn(s, turnId, patch).conversations;
    forall i, k | 0 <= i < |after| && 0 <= k < |after[i].turns|
      ensures after[i].turns[k] == if before[i].turns[k].id == turnId then Patched(before[i].turns[k], patch)
                                   else before[i].turns[k]
    {
    }
  }

  lemma SaysAfterFlags(list: seq<Conversation>, change: Turn -> Turn, id: Id, words: Words)
    requires Says(list, id, words)
    requires forall t: Turn ::
      change(t).id == t.id && change(t).content == t.content && change(t).toolCalls == t.toolCalls
    ensures Says(MapTurns(list, change), id, words)
  {
  }

  // ------------------------------------------------------------------------ one step

  lemma Facts(w: World)
    requires Inv(w)
    ensures DistinctIds(w.store.conversations) && IdsBelow(w.store.conversations, w.nextId)
    ensures forall r | r in w.inflight :: r < w.nextId && w.inflight[r].turnId < w.nextId
    ensures forall r, q | r in w.inflight && q in w.inflight && w.inflight[r].turnId == w.inflight[q].turnId :: r == q
  {
  }

  lemma SaysAfterEvent(w: World, r: Id, event: StreamEvent, id: Id, words: Words)
    requires RepliesOk(w) && r in w.inflight && Says(w.store.conversations, id, words)
    ensures Says(OnEvent(w, r, event).store.conversations, id, Then(words, Delivered(w, Receive(r, event), id)))
  {
    hide Says, PatchTurn;
    var request := w.inflight[r];
    ThenNothing(words);
    if event.Delta? {
      var more := Words(event.content, if event.toolCall.Some? then [event.toolCall.value] else []);
      var calls := if event.toolCall.Some? then request.toolCalls + [event.toolCall.value] else request.toolCalls;
      assert Then(Words(request.reply, request.toolCalls), more) == Words(request.reply + event.content, calls);
      SaysAfterPatch(w.store, request.turnId, Patch(request.reply + event.content, calls, None, None), id, words,
                     Words(request.reply, request.toolCalls));
    }
  }

  lemma SaysAfterSettling(w: World, r: Id, message: string, id: Id, words: Words)
    requires RepliesOk(w) && r in w.inflight && Says(w.store.conversations, id, words)
    ensures Says(SettleStale(w, r).store.conversations, id, words)
    ensures Says(SettleFailed(w, r, message).store.conversations, id, words)
    ensures Says(SettleDone(w, r).store.conversations, id, words)
  {
    hide Says, PatchTurn;
    var request := w.inflight[r];
    var now := Words(request.reply, request.toolCalls);
    var failed := Patch(request.reply, request.toolCalls, Some(false), Some(true));
    SaysAfterPatch(w.store, request.turnId, Patch(request.reply, request.toolCalls, Some(false), None), id, words, now);
    SaysAfterPatch(w.store, request.turnId, failed, id, words, now);
    SaysAfterFlags(PatchTurn(w.store, request.turnId, failed).conversations,
                   (t: Turn) => if t.streaming then t.(streaming := false, failed := true) else t, id, words);
  }

  lemma SaysAfterRetry(w: World, id: Id, words: Words)
    requires Inv(w) && Says(w.store.conversations, id, words)
    requires id < w.nextId || (id == w.nextId + 2 && words == NOTHING)
    ensures Says(BeginRetry(w).store.conversations, id, words)
  {
    hide Inv, ListInv, RequestsInv, Says, Shrunk, Opened, DropFailedTail, Origins;
    var text := LastUserMessage(w.store);
    if !w.store.streaming && text.Some? && text.value != [] {
      var s := SetDraft(DropFailedTail(w.store), "");
      assert ListInv(w.store.conversations, CurrentTurn(w), w.nextId)
          && RequestsInv(w.store.conversations, w.inflight, w.nextId) by { InvFacts(w); InvUnfolds(w); }
      DroppingShrinks(w.store);
      SaysInShrunk(w.store.conversations, s.conversations, id, words);
      DropTailKeeps(w.store, CurrentTurn(w), w.inflight, w.nextId);
      ListInvUnfolds(s.conversations, CurrentTurn(w), w.nextId);
      SaysAfterOpened(s, text.value, false, w.nextId, id, words);
    }
  }

  lemma InvUnfolds(w: World)
    requires Inv(w)
    ensures ListInv(w.store.conversations, CurrentTurn(w), w.nextId)
    ensures RequestsInv(w.store.conversations, w.inflight, w.nextId)
  {
  }

  lemma ListInvUnfolds(list: seq<Conversation>, current: Option<Id>, n: Id)
    requires ListInv(list, current, n)
    ensures DistinctIds(list) && IdsBelow(list, n)
  {
  }

  /** A step adds to what a turn says exactly what it delivers to it. */
  lemma StepDelivers(w: World, step: Step, id: Id, words: Words)
    requires Inv(w) && RepliesOk(w) && Says(w.store.conversations, id, words)
    requires id < w.nextId || (id == w.nextId + 2 && words == NOTHING)
    ensures Says(Next(w, step).store.conversations, id, Then(words, Delivered(w, step, id)))
  {
    hide Inv, Says, RepliesOk, Shrunk, Opened, BeginRetry, OnEvent, SettleStale, SettleFailed, SettleDone,
         DistinctIds, IdsBelow, NewConversation, RemoveConversation, TogglePinned;
    Facts(w);
    ThenNothing(words);
    match step
    case Send(text) =>
      if !w.store.streaming && Trim(text) != [] {
        SaysAfterOpened(w.store, Trim(text), true, w.nextId, id, words);
      }
    case Retry => SaysAfterRetry(w, id, words);
    case Stop =>
      SaysAfterFlags(w.store.conversations,
                     (t: Turn) => if t.streaming then t.(streaming := false, stopped := true) else t, id, words);
    case Receive(r, event) =>
      if r in w.inflight {
        SaysAfterEvent(w, r, event, id, words);
      }
    case Resolve(r) =>
      if r in w.inflight {
        SaysAfterSettling(w, r, w.inflight[r].streamError, id, words);
      }
    case Reject(r, message) =>
      if r in w.inflight {
        SaysAfterSettling(w, r, message, id, words);
      }
    case NewChat =>
      OpeningShrinks(w.store, w.nextId);
      SaysInShrunk(w.store.conversations, NewConversation(w.store, w.nextId).conversations, id, words);
    case RemoveChat(chat) =>
      RemovingShrinks(w.store, chat);
      SaysInShrunk(w.store.conversations, RemoveConversation(w.store, chat).conversations, id, words);
    case TogglePin(chat) =>
      PinningShrinks(w.store, chat);
      SaysInShrunk(w.store.conversations, TogglePinned(w.store, chat).conversations, id, words);
    case _ =>
  }

  /** The requests after a step: one new one with nothing said, or those there were, grown by what was delivered. */
  lemma RequestsAfter(w: World, step: Step, r: Id)
    requires r in Next(w, step).inflight && forall q | q in w.inflight :: q < w.nextId
    ensures var request := Next(w, step).inflight[r];
      if r in w.inflight
      then && request.turnId == w.inflight[r].turnId
           && Words(request.reply, request.toolCalls)
              == Then(Words(w.inflight[r].reply, w.inflight[r].toolCalls),
                      if step.Receive? && step.request == r then Delivered(w, step, request.turnId) else NOTHING)
      else request.turnId == w.nextId + 2 && Words(request.reply, request.toolCalls) == NOTHING
  {
    hide Opened, PatchTurn, LastUserMessage, DropFailedTail, Transcript, ActiveTurns, FailStreaming, Trim;
    if r in w.inflight {
      ThenNothing(Words(w.inflight[r].reply, w.inflight[r].toolCalls));
    }
  }

  lemma StepKeepsReplies(w: World, step: Step)
    requires Inv(w) && RepliesOk(w)
    ensures RepliesOk(Next(w, step))
  {
    hide Inv, Says, Next, Delivered;
    var v := Next(w, step);
    Facts(w);
    forall r | r in v.inflight
      ensures Says(v.store.conversations, v.inflight[r].turnId, Words(v.inflight[r].reply, v.inflight[r].toolCalls))
    {
      RequestsAfter(w, step, r);
      if r in w.inflight {
        var words := Words(w.inflight[r].reply, w.inflight[r].toolCalls);
        StepDelivers(w, step, w.inflight[r].turnId, words);
        ThenNothing(words);
        if !(step.Receive? && step.request == r) {
          DeliversNothing(w, step, r);
        }
      } else {
        HigherBound(w.store.conversations, w.nextId, w.nextId + 2);
        SaysNowhere(w.store.conversations, w.nextId + 2, NOTHING);
        StepDelivers(w, step, w.nextId + 2, NOTHING);
        NothingForTheNew(w, step);
        ThenNothing(NOTHING);
      }
    }
  }

  lemma DeliversNothing(w: World, step: Step, r: Id)
    requires Inv(w) && r in w.inflight && !(step.Receive? && step.request == r)
    ensures Delivered(w, step, w.inflight[r].turnId) == NOTHING
  {
  }

  lemma NothingForTheNew(w: World, step: Step)
    requires Inv(w)
    ensures Delivered(w, step, w.nextId + 2) == NOTHING
  {
  }

  // ------------------------------------------------------------------------ over a run

  /**
   * Over every run each turn says what it said at the start followed by exactly what was delivered to it, in
   * order, whatever was stopped, failed, retried or settled late in between.
   */
  lemma {:induction false} TurnsSayWhatWasDelivered(w: World, steps: seq<Step>, id: Id, words: Words)
    requires Inv(w) && RepliesOk(w) && id < w.nextId && Says(w.store.conversations, id, words)
    ensures Says(Run(w, steps).store.conversations, id, Then(words, DeliveredTo(w, steps, id)))
    decreases steps
  {
    hide Inv, Says, Next, Delivered, RepliesOk;
    ThenNothing(words);
    if steps != [] {
      var v, now := Next(w, steps[0]), Delivered(w, steps[0], id);
      StepDelivers(w, steps[0], id, words);
      StepKeepsReplies(w, steps[0]);
      StepKeeps(w, steps[0]);
      IdsGrow(w, steps[0]);
      TurnsSayWhatWasDelivered(v, steps[1..], id, Then(words, now));
      ThenAssoc(words, now, DeliveredTo(v, steps[1..], id));
    }
  }

  lemma IdsGrow(w: World, step: Step)
    ensures w.nextId <= Next(w, step).nextId
  {
  }

  /** A page load has no request in flight, so its requests hold what their turns say. */
  lemma PageOpenedReplies(stored: ChatState, n: Id)
    ensures RepliesOk(PageOpened(stored, n))
  {
  }

  lemma {:induction false} RunKeepsReplies(w: World, steps: seq<Step>)
    requires Inv(w) && RepliesOk(w)
    ensures RepliesOk(Run(w, steps))
    decreases steps
  {
    hide Inv, Next, RepliesOk;
    if steps != [] {
      StepKeepsReplies(w, steps[0]);
      StepKeeps(w, steps[0]);
      RunKeepsReplies(Next(w, steps[0]), steps[1..]);
    }
  }

  /**
   * The answer to a message: after any run from a page load, a send, and any further run, the turn opened for
   * the answer says exactly what its request delivered.
   */
  lemma AnswersSayWhatWasDelivered(stored: ChatState, n: Id, before: seq<Step>, text: string, after: seq<Step>)
    requires ListInv(stored.conversations, None, n) && !stored.streaming && Trim(text) != []
    requires !Run(PageOpened(stored, n), before).store.streaming
    ensures var w := Run(PageOpened(stored, n), before);
      var v := Next(w, Send(text));
      Says(Run(v, after).store.conversations, w.nextId + 2, DeliveredTo(v, after, w.nextId + 2))
  {
    hide Inv, ListInv, Says, RepliesOk, Opened, Run, DeliveredTo, IdsBelow, DistinctIds;
    var w := Run(PageOpened(stored, n), before);
    var v := Next(w, Send(text));
    PageOpenedIsProper(stored, n);
    PageOpenedReplies(stored, n);
    RunKeeps(PageOpened(stored, n), before);
    RunKeepsReplies(PageOpened(stored, n), before);
    Facts(w);
    HigherBound(w.store.conversations, w.nextId, w.nextId + 2);
    SaysNowhere(w.store.conversations, w.nextId + 2, NOTHING);
    SaysAfterOpened(w.store, Trim(text), true, w.nextId, w.nextId + 2, NOTHING);
    StepKeeps(w, Send(text));
    StepKeepsReplies(w, Send(text));
    TurnsSayWhatWasDelivered(v, after, w.nextId + 2, NOTHING);
    ThenNothing(DeliveredTo(v, after, w.nextId + 2));
  }
}
