/** What every run of the chat protocol keeps. */
module ChatSafety {
  import opened Options
  import opened Text
  import opened Conversations
  import opened ChatStore
  import opened ChatProtocol

  /** The world of a page load: what was stored, no request in flight. `n` is the first unused id. */
  function PageOpened(stored: ChatState, n: Id): World {
    World(stored, None, map[], n, [])
  }

  /** A page load that finds no streaming turn is a proper start. */
  lemma PageOpenedIsProper(stored: ChatState, n: Id)
    requires ListInv(stored.conversations, None, n) && !stored.streaming
    ensures Inv(PageOpened(stored, n))
  {
  }

  /** The page load that finds nothing in storage. */
  const START: World := PageOpened(ChatState([], None, false, "", "", None, true), 0)

  // -------------------------------------------------- streaming and stopping

  ghost predicate StreamingAt(list: seq<Conversation>, i: int, k: int) {
    0 <= i < |list| && 0 <= k < |list[i].turns| && list[i].turns[k].streaming
  }

  /** In every interleaving, from any proper start, at most one turn streams, and only while the store says so. */
  lemma AtMostOneTurnStreams(w: World, steps: seq<Step>, i: int, k: int, j: int, l: int)
    requires Inv(w)
    requires StreamingAt(Run(w, steps).store.conversations, i, k)
    requires StreamingAt(Run(w, steps).store.conversations, j, l)
    ensures i == j && k == l && Run(w, steps).store.streaming
  {
    RunKeeps(w, steps);
    var list, current := Run(w, steps).store.conversations, CurrentTurn(Run(w, steps));
    assert TurnOk(list[i].turns[k], current) && TurnOk(list[j].turns[l], current);
  }

  /** Once a turn no longer streams, its status is final: stopped stays stopped, failed stays failed. */
  lemma TurnStatusIsFinal(w: World, steps: seq<Step>, i: nat, k: nat, j: nat, l: nat)
    requires Inv(w)
    requires i < |w.store.conversations| && k < |w.store.conversations[i].turns|
    requires var after := Run(w, steps).store.conversations; j < |after| && l < |after[j].turns|
    requires w.store.conversations[i].turns[k].id == Run(w, steps).store.conversations[j].turns[l].id
    requires !w.store.conversations[i].turns[k].streaming
    ensures var was, now := w.store.conversations[i].turns[k], Run(w, steps).store.conversations[j].turns[l];
      && !now.streaming && now.stopped == was.stopped && now.failed == was.failed
      && (was.stopped ==> !now.failed)
  {
    RunKeeps(w, steps);
    var list, now := w.store.conversations, Run(w, steps).store.conversations[j].turns[l];
    assert HasOrigin(list, now);
    var p, q :| 0 <= p < |list| && 0 <= q < |list[p].turns| && Evolved(list[p].turns[q], now);
    assert p == i && q == k;
    assert TurnOk(list[i].turns[k], CurrentTurn(w));
  }

  /** Stop ends the stream at once: nothing streams, and the turn that did is marked stopped. */
  lemma StopEndsStreaming(w: World, i: nat, k: nat)
    requires Inv(w) && i < |w.store.conversations| && k < |w.store.conversations[i].turns|
    ensures var v := Next(w, Stop);
      && !v.store.streaming && v.abort == None && v.store.status == STREAMING_STOPPED && v.posted == w.posted
      && |v.store.conversations| == |w.store.conversations|
      && |v.store.conversations[i].turns| == |w.store.conversations[i].turns|
      && !v.store.conversations[i].turns[k].streaming
      && v.store.conversations[i].turns[k].content == w.store.conversations[i].turns[k].content
      && (v.store.conversations[i].turns[k].stopped
          <==> w.store.conversations[i].turns[k].stopped || w.store.conversations[i].turns[k].streaming)
  {
  }

  // ---------------------------------------------------------- stale requests

  /** A request that is not current never becomes current again. */
  lemma {:induction false} StaleForever(w: World, steps: seq<Step>, id: Id)
    requires id < w.nextId && w.abort != Some(id)
    ensures Run(w, steps).abort != Some(id)
    decreases steps
  {
    if steps != [] {
      StaleForever(Next(w, steps[0]), steps[1..], id);
    }
  }

  predicate StepOf(step: Step, id: Id) {
    match step
    case Receive(request, _) => request == id
    case Resolve(request) => request == id
    case Reject(request, _) => request == id
    case _ => false
  }

  ghost predicate SameFlags(a: Turn, b: Turn) {
    a.id == b.id && a.role == b.role && a.streaming == b.streaming && a.stopped == b.stopped && a.failed == b.failed
  }

  /** All that step `step` of a stale request `id` may change, from `w` to `v`. */
  ghost predicate OnlyOwnTurnAndPage(w: World, v: World, step: Step, id: Id)
    requires id in w.inflight
  {
    && v.store.streaming == w.store.streaming && v.store.status == w.store.status
    && v.store.draft == w.store.draft && v.store.active == w.store.active
    && v.abort == w.abort && v.posted == w.posted
    && SameTurnsBut(w.store.conversations, v.store.conversations, w.inflight[id].turnId)
    && (!step.Receive? ==> v.store.conversations == w.store.conversations)
    && ((step.Receive? || w.inflight[id].webContext.None? || (w.store.webContext.None? && !w.store.includeContext))
        <==> (v.store.webContext == w.store.webContext && v.store.includeContext == w.store.includeContext))
  }

  ghost predicate SameTurnsBut(before: seq<Conversation>, after: seq<Conversation>, turnId: Id) {
    && |after| == |before|
    && (forall i | 0 <= i < |before| :: |after[i].turns| == |before[i].turns|)
    && (forall i, k | 0 <= i < |before| && 0 <= k < |before[i].turns| ::
          SameFlags(before[i].turns[k], after[i].turns[k])
          && (before[i].turns[k].id != turnId ==> after[i].turns[k] == before[i].turns[k]))
  }

  lemma StaleStep(w: World, step: Step, id: Id)
    requires Inv(w) && id in w.inflight && w.abort != Some(id) && StepOf(step, id)
    ensures OnlyOwnTurnAndPage(w, Next(w, step), step, id)
  {
  }

  /**
   * Once a request is no longer current, nothing it delivers or settles with, however much later,
   * changes a streaming flag, a turn's status, the status line, the draft or what was posted. It
   * can write text and tool proposals into its own turn, and settling clears the page context if
   * the request was sent with one.
   */
  lemma StaleRequestIsInert(w: World, steps: seq<Step>, step: Step, id: Id)
    requires Inv(w) && id < w.nextId && w.abort != Some(id)
    requires id in Run(w, steps).inflight && StepOf(step, id)
    ensures var v := Run(w, steps);
      v.abort != Some(id) && OnlyOwnTurnAndPage(v, Next(v, step), step, id)
  {
    RunKeeps(w, steps);
    StaleForever(w, steps, id);
    StaleStep(Run(w, steps), step, id);
  }

  /**
   * A stopped request that carried a page clears the page context when it settles, even one the
   * user captured after pressing Stop.
   */
  lemma StoppedRequestForgetsLaterCapture(w: World, id: Id, bundle: Bundle, message: string)
    requires Inv(w) && w.abort == Some(id) && w.inflight[id].webContext.Some?
    ensures Run(w, [Stop, AskAi(bundle)]).store.webContext == Some(bundle)
    ensures Run(w, [Stop, AskAi(bundle), Reject(id, message)]).store.webContext == None
  {
    var v := Next(Next(w, Stop), AskAi(bundle));
    assert [Stop, AskAi(bundle)][1..] == [AskAi(bundle)];
    assert Run(w, [Stop, AskAi(bundle)]) == Run(Next(w, Stop), [AskAi(bundle)]) == v;
    RunAppend(w, [Stop, AskAi(bundle)], [Reject(id, message)]);
    assert [Stop, AskAi(bundle)] + [Reject(id, message)] == [Stop, AskAi(bundle), Reject(id, message)];
    assert Run(v, [Reject(id, message)]) == Next(v, Reject(id, message));
  }

  // ---------------------------------------------------------- the active chat

  predicate FullOfPinned(s: ChatState) {
    |s.conversations| == MAX_ASSISTANT_CONVERSATIONS && Unpinned(s.conversations) == []
  }

  /** The steps that open a new conversation. */
  predicate OpensChat(w: World, step: Step) {
    match step
    case NewChat => true
    case Send(text) =>
      !w.store.streaming && Trim(text) != [] && !(w.store.active.Some? && Present(w.store, w.store.active.value))
    case _ => false
  }

  lemma NewConversationPresent(s: ChatState, n: Id, newId: Id)
    requires DistinctIds(s.conversations) && |s.conversations| <= MAX_ASSISTANT_CONVERSATIONS
    requires IdsBelow(s.conversations, n) && n <= newId
    ensures Present(NewConversation(s, newId), newId) <==> !FullOfPinned(s)
    ensures forall i | 0 <= i < |NewConversation(s, newId).conversations| &&
              NewConversation(s, newId).conversations[i].id == newId ::
              NewConversation(s, newId).conversations[i].turns == []
  {
    var newest := Conversation(newId, [], false);
    NewestSurvives(s.conversations, newest);
    CappedMembers(s.conversations + [newest]);
    var after := NewConversation(s, newId);
    assert Present(after, newId) <==> newId in Ids(after.conversations);
    forall i | 0 <= i < |after.conversations| && after.conversations[i].id == newId
      ensures after.conversations[i].turns == []
    {
      MemberOfExtended(s.conversations, newId, after.conversations[i]);
    }
  }

  lemma AddTurnPresence(s: ChatState, id: Id, turn: Turn, c: Id)
    ensures Present(AddTurn(s, id, turn), c) <==> Present(s, c)
  {
    var after := AddTurn(s, id, turn);
    if Present(s, c) {
      var i :| 0 <= i < |s.conversations| && s.conversations[i].id == c;
      assert after.conversations[i].id == c;
    }
    if Present(after, c) {
      var i :| 0 <= i < |after.conversations| && after.conversations[i].id == c;
      assert s.conversations[i].id == c;
    }
  }

  lemma MapPresence(s: ChatState, t: ChatState, c: Id)
    requires |t.conversations| == |s.conversations|
    requires forall i | 0 <= i < |s.conversations| :: t.conversations[i].id == s.conversations[i].id
    ensures Present(t, c) <==> Present(s, c)
  {
    if Present(s, c) {
      var i :| 0 <= i < |s.conversations| && s.conversations[i].id == c;
      assert t.conversations[i].id == c;
    }
    if Present(t, c) {
      var i :| 0 <= i < |t.conversations| && t.conversations[i].id == c;
      assert s.conversations[i].id == c;
    }
  }

  lemma ActiveTurnsAt(s: ChatState, i: nat)
    requires DistinctIds(s.conversations) && i < |s.conversations|
    requires s.active == Some(s.conversations[i].id)
    ensures Present(s, s.active.value) && ActiveTurns(s) == s.conversations[i].turns
    ensures ActiveConversation(s) == Some(s.conversations[i])
  {
    var j := IndexOf(s.conversations, s.active.value);
    assert j.Some? && j.value == i;
  }

  lemma NoActiveTurns(s: ChatState)
    requires s.active.Some? ==> !Present(s, s.active.value)
    ensures ActiveTurns(s) == [] && ActiveConversation(s) == None
  {
  }

  lemma AppendToListed(s: ChatState, turn: Turn, newId: Id)
    requires DistinctIds(s.conversations) && s.active.Some? && Present(s, s.active.value)
    ensures var after := AppendTurn(s, turn, newId);
      after.active == s.active && Present(after, s.active.value) && ActiveTurns(after) == ActiveTurns(s) + [turn]
  {
    var after := AppendTurn(s, turn, newId);
    var i :| 0 <= i < |s.conversations| && s.conversations[i].id == s.active.value;
    ActiveTurnsAt(s, i);
    assert after.conversations[i].turns == s.conversations[i].turns + [turn];
    ActiveTurnsAt(after, i);
  }

  /** With twenty pinned chats in the list, opening a chat leaves the list as it was. */
  lemma OpeningIsLost(s: ChatState, newId: Id)
    requires FullOfPinned(s)
    ensures NewConversation(s, newId).conversations == s.conversations
  {
    var newest := Conversation(newId, [], false);
    DropOne(s.conversations, newest);
    UnpinnedAppend(s.conversations, [newest]);
    assert Unpinned([newest]) == [newest] + Unpinned([newest][1..]);
  }

  lemma AppendToNew(s: ChatState, turn: Turn, newId: Id, n: Id)
    requires DistinctIds(s.conversations) && |s.conversations| <= MAX_ASSISTANT_CONVERSATIONS
    requires IdsBelow(s.conversations, n) && n <= newId
    requires s.active.Some? ==> !Present(s, s.active.value)
    ensures var after := AppendTurn(s, turn, newId);
      && after.active == Some(newId)
      && if FullOfPinned(s)
         then !Present(after, newId) && after.conversations == s.conversations
         else Present(after, newId) && ActiveTurns(after) == [turn]
  {
    hide NewConversation, AddTurn, FullOfPinned, Present, DistinctIds, IdsBelow, ActiveTurns;
    var mid, after := NewConversation(s, newId), AppendTurn(s, turn, newId);
    NewConversationPresent(s, n, newId);
    NewConversationKeepsIds(s, n, newId, newId + 1);
    AddTurnPresence(mid, newId, turn, newId);
    AppendedToNew(s, turn, newId);
    if FullOfPinned(s) {
      OpeningIsLost(s, newId);
      AddTurnToNobody(mid, newId, turn);
    } else {
      AddTurnToEmpty(mid, newId, turn);
    }
  }

  lemma AppendedToNew(s: ChatState, turn: Turn, newId: Id)
    requires s.active.Some? ==> !Present(s, s.active.value)
    ensures AppendTurn(s, turn, newId) == AddTurn(NewConversation(s, newId), newId, turn)
    ensures NewConversation(s, newId).active == Some(newId) == AppendTurn(s, turn, newId).active
  {
  }

  lemma AddTurnToNobody(s: ChatState, id: Id, turn: Turn)
    requires !Present(s, id)
    ensures AddTurn(s, id, turn).conversations == s.conversations
  {
  }

  lemma AddTurnToEmpty(s: ChatState, id: Id, turn: Turn)
    requires DistinctIds(s.conversations) && Present(s, id) && s.active == Some(id)
    requires forall i | 0 <= i < |s.conversations| && s.conversations[i].id == id :: s.conversations[i].turns == []
    ensures ActiveTurns(AddTurn(s, id, turn)) == [turn]
  {
    var after := AddTurn(s, id, turn);
    var i :| 0 <= i < |s.conversations| && s.conversations[i].id == id;
    assert after.conversations[i].turns == [turn];
    ActiveTurnsAt(after, i);
  }

  /** Appending to the active chat: the turn lands at its end unless the chat it opened was dropped at once. */
  lemma AppendTurnActive(s: ChatState, turn: Turn, newId: Id, n: Id)
    requires DistinctIds(s.conversations) && |s.conversations| <= MAX_ASSISTANT_CONVERSATIONS
    requires IdsBelow(s.conversations, n) && n <= newId
    ensures var after := AppendTurn(s, turn, newId);
      && after.active.Some?
      && (s.active.Some? && Present(s, s.active.value) ==> after.active == s.active)
      && if (s.active.Some? && Present(s, s.active.value)) || !FullOfPinned(s)
         then Present(after, after.active.value) && ActiveTurns(after) == ActiveTurns(s) + [turn]
         else !Present(after, after.active.value) && FullOfPinned(after) && after.conversations == s.conversations
  {
    hide AppendTurn, ActiveTurns, Present;
    if s.active.Some? && Present(s, s.active.value) {
      AppendToListed(s, turn, newId);
    } else {
      NoActiveTurns(s);
      AppendToNew(s, turn, newId, n);
    }
  }

  ghost predicate Listed(s: ChatState) {
    s.active.Some? && Present(s, s.active.value)
  }

  function WithUserTurn(s: ChatState, text: string, appendUserTurn: bool, n: Id): ChatState {
    if appendUserTurn then AppendTurn(s, UserTurn(n, text), n + 1) else s
  }

  function OpenedBase(s: ChatState, text: string, appendUserTurn: bool, n: Id): seq<Turn> {
    ActiveTurns(s) + if appendUserTurn then [UserTurn(n, text)] else []
  }

  lemma UserTurnLands(s: ChatState, text: string, appendUserTurn: bool, n: Id)
    requires ListInv(s.conversations, None, n)
    requires appendUserTurn || Listed(s)
    ensures var s1 := WithUserTurn(s, text, appendUserTurn, n);
      && ListInv(s1.conversations, None, n + 2)
      && if Listed(s) || !FullOfPinned(s)
         then Listed(s1) && ActiveTurns(s1) == OpenedBase(s, text, appendUserTurn, n)
         else !Listed(s1) && FullOfPinned(s1)
  {
    if appendUserTurn {
      AppendTurnActive(s, UserTurn(n, text), n + 1, n);
      AppendKeeps(s, UserTurn(n, text), n + 1, None, None, map[], n, n + 2);
    } else {
      WeakerBound(s.conversations, None, map[], n, n + 2);
    }
  }

  /** Both turns land in the active chat, or neither does. */
  lemma OpenedActive(s: ChatState, text: string, appendUserTurn: bool, n: Id)
    requires ListInv(s.conversations, None, n)
    requires appendUserTurn || Listed(s)
    ensures var after := Opened(s, text, appendUserTurn, n);
      && after.active.Some?
      && if Listed(s) || !FullOfPinned(s)
         then Listed(after) && ActiveTurns(after) == OpenedBase(s, text, appendUserTurn, n) + [Placeholder(n + 2)]
         else !Listed(after) && ActiveTurns(after) == []
  {
    var s1 := WithUserTurn(s, text, appendUserTurn, n);
    UserTurnLands(s, text, appendUserTurn, n);
    AppendTurnActive(s1, Placeholder(n + 2), n + 3, n + 2);
    var s2 := AppendTurn(s1, Placeholder(n + 2), n + 3);
    SameChats(s2, Opened(s, text, appendUserTurn, n));
    if !Listed(s2) {
      NoActiveTurns(s2);
    }
  }

  lemma SameChats(s: ChatState, t: ChatState)
    requires t.conversations == s.conversations && t.active == s.active
    ensures ActiveTurns(t) == ActiveTurns(s) && (Listed(t) <==> Listed(s))
  {
  }

  /**
   * From a store whose active chat is in the list, one step leaves it outside exactly when the
   * step opens a new chat while twenty pinned chats fill the list.
   */
  lemma ActiveChatIsLostExactlyWhen(w: World, step: Step)
    requires Inv(w) && ActiveOk(w.store)
    ensures ActiveOk(Next(w, step).store) <==> !(OpensChat(w, step) && FullOfPinned(w.store))
  {
    InvFacts(w);
    hide Inv, ListInv, BeginSend, BeginRetry, FullOfPinned;
    match step
    case Send(text) => SendKeepsActive(w, text);
    case Retry => RetryKeepsActive(w);
    case NewChat => NewConversationPresent(w.store, w.nextId, w.nextId);
    case RemoveChat(id) => RemovalKeepsTheOthers(w.store, id);
    case _ => SameListKeepsActive(w, step);
  }

  lemma SendKeepsActive(w: World, text: string)
    requires Inv(w) && ActiveOk(w.store)
    ensures ActiveOk(Next(w, Send(text)).store) <==> !(OpensChat(w, Send(text)) && FullOfPinned(w.store))
  {
    InvFacts(w);
    if !w.store.streaming && Trim(text) != [] {
      OpenedActive(w.store, Trim(text), true, w.nextId);
      hide Opened, FullOfPinned;
    }
  }

  lemma SameListKeepsActive(w: World, step: Step)
    requires Inv(w) && ActiveOk(w.store)
    requires !step.Send? && !step.Retry? && !step.NewChat? && !step.RemoveChat?
    ensures ActiveOk(Next(w, step).store)
  {
    var v := Next(w, step);
    if !step.SelectChat? && w.store.active.Some? {
      MapPresence(w.store, v.store, w.store.active.value);
    }
  }

  lemma RetryKeepsActive(w: World)
    requires Inv(w) && ActiveOk(w.store)
    ensures ActiveOk(BeginRetry(w).store)
  {
    var text := LastUserMessage(w.store);
    if !w.store.streaming && text.Some? && text.value != [] {
      var s := SetDraft(DropFailedTail(w.store), "");
      DropTailKeeps(w.store, CurrentTurn(w), w.inflight, w.nextId);
      MapPresence(w.store, s, w.store.active.value);
      OpenedActive(s, text.value, false, w.nextId);
    }
  }

  /** No step of the run opens a chat while twenty pinned chats fill the list. */
  predicate NeverOverfilled(w: World, steps: seq<Step>)
    decreases steps
  {
    steps == [] ||
    (!(OpensChat(w, steps[0]) && FullOfPinned(w.store)) && NeverOverfilled(Next(w, steps[0]), steps[1..]))
  }

  /** Over every run the list is bounded with distinct ids, and the active chat is listed unless the list overfilled. */
  lemma {:induction false} ListIsBounded(w: World, steps: seq<Step>)
    requires Inv(w) && ActiveOk(w.store)
    ensures |Run(w, steps).store.conversations| <= MAX_ASSISTANT_CONVERSATIONS
    ensures DistinctIds(Run(w, steps).store.conversations)
    ensures NeverOverfilled(w, steps) ==> ActiveOk(Run(w, steps).store)
    decreases steps
  {
    if steps == [] {
    } else if NeverOverfilled(w, steps) {
      ActiveChatIsLostExactlyWhen(w, steps[0]);
      StepKeeps(w, steps[0]);
      ListIsBounded(Next(w, steps[0]), steps[1..]);
    } else {
      RunKeeps(w, steps);
    }
  }

  /**
   * The pin count of the final state is not the right guard: a chat lost while all twenty were
   * pinned stays lost after one of them is unpinned.
   */
  lemma LostChatStaysLostAfterUnpinning(w: World, id: Id)
    requires Inv(w) && FullOfPinned(w.store) && Present(w.store, id)
    ensures var v := Run(w, [NewChat, TogglePin(id)]);
      !ActiveOk(v.store) && !FullOfPinned(v.store)
  {
    hide FullOfPinned, NewConversation, TogglePinned, Present, Unpinned;
    NewConversationPresent(w.store, w.nextId, w.nextId);
    OpeningIsLost(w.store, w.nextId);
    var w1 := Next(w, NewChat);
    var w2 := Next(w1, TogglePin(id));
    assert [NewChat, TogglePin(id)][1..] == [TogglePin(id)];
    assert Run(w1, [TogglePin(id)]) == w2;
    OpeningActivates(w.store, w.nextId);
    SameListSamePresence(w.store, w1.store);
    UnpinningFreesAPlace(w1.store, id);
    MapPresence(w1.store, w2.store, w.nextId);
  }

  lemma OpeningActivates(s: ChatState, newId: Id)
    ensures NewConversation(s, newId).active == Some(newId)
  {
  }

  lemma SameListSamePresence(s: ChatState, t: ChatState)
    requires t.conversations == s.conversations
    ensures FullOfPinned(t) <==> FullOfPinned(s)
    ensures forall c :: Present(t, c) <==> Present(s, c)
  {
  }

  /** Unpinning one of twenty pinned chats keeps the chats and leaves one that capping may drop. */
  lemma UnpinningFreesAPlace(s: ChatState, id: Id)
    requires FullOfPinned(s) && Present(s, id)
    ensures var t := TogglePinned(s, id);
      && !FullOfPinned(t) && t.active == s.active && |t.conversations| == |s.conversations|
      && forall i | 0 <= i < |s.conversations| :: t.conversations[i].id == s.conversations[i].id
  {
    var t := TogglePinned(s, id);
    var i := IndexOf(s.conversations, id).value;
    NoUnpinned(s.conversations, i);
    assert !t.conversations[i].pinned;
    if Unpinned(t.conversations) == [] {
      NoUnpinned(t.conversations, i);
    }
  }

  lemma {:induction false} NoUnpinned(list: seq<Conversation>, i: nat)
    requires i < |list| && Unpinned(list) == []
    ensures list[i].pinned
  {
    if i > 0 {
      NoUnpinned(list[1..], i - 1);
    }
  }
}
