/** Retry after failures, with everything else that may happen in between. */
module ChatRetry {
  import opened Options
  import opened Sequences
  import opened Text
  import opened Conversations
  import opened ChatStore
  import opened ChatProtocol
  import opened ChatSafety
  import opened ChatTranscript
  import opened ChatHistory
  import opened ChatReplies

  /** The turns of chat `c`; none if there is no such chat. */
  function TurnsOf(s: ChatState, c: Id): seq<Turn> {
    var i := IndexOf(s.conversations, c);
    if i.Some? then s.conversations[i.value].turns else []
  }

  predicate InBase(base: seq<Turn>, id: Id) {
    exists k | 0 <= k < |base| :: base[k].id == id
  }

  predicate StreamsIn(s: ChatState, c: Id) {
    exists k | 0 <= k < |TurnsOf(s, c)| :: TurnsOf(s, c)[k].streaming
  }

  /** The page a request started now would carry. */
  function PageOf(w: World): Option<Bundle> {
    if w.store.includeContext then w.store.webContext else None
  }

  /** Chat `c` still waits for its answer: it holds `base`, then only replies that stream or have failed. */
  ghost predicate Unanswered(w: World, c: Id, base: seq<Turn>) {
    && Inv(w) && EndsWithUser(base) && Present(w.store, c)
    && base <= TurnsOf(w.store, c)
    && (forall k | 0 <= k < |base| :: !base[k].streaming)
    && (forall k | |base| <= k < |TurnsOf(w.store, c)| :: IsAttempt(TurnsOf(w.store, c)[k]))
  }

  predicate IsAttempt(t: Turn) {
    t.role.Assistant? && (t.streaming || t.failed)
  }

  /**
   * The steps that leave chat `c` waiting: none sends into it, stops or completes its reply, or delivers into
   * `base`. Other chats may be opened, visited, written to, answered and removed.
   */
  predicate Spares(w: World, c: Id, base: seq<Turn>, step: Step) {
    match step
    case Send(text) => w.store.streaming || Trim(text) == [] || w.store.active != Some(c)
    case Stop => !StreamsIn(w.store, c)
    case Receive(id, _) => id in w.inflight ==> !InBase(base, w.inflight[id].turnId)
    case Resolve(id) =>
      w.abort == Some(id) && id in w.inflight && w.inflight[id].streamError == [] ==> !StreamsIn(w.store, c)
    case _ => true
  }

  /** Every step of the run spares chat `c`, and the chat stays on the list. */
  predicate AllSpare(w: World, c: Id, base: seq<Turn>, steps: seq<Step>)
    decreases steps
  {
    steps == [] ||
    (Spares(w, c, base, steps[0]) && Present(Next(w, steps[0]).store, c)
     && AllSpare(Next(w, steps[0]), c, base, steps[1..]))
  }

  predicate RetriesIn(w: World, c: Id, step: Step) {
    step.Retry? && w.store.active == Some(c) && !w.store.streaming
  }

  /** The posts of a step; a step appends to what was posted before. */
  function NewPosts(w: World, step: Step): seq<Post> {
    var v := Next(w, step);
    if w.posted <= v.posted then v.posted[|w.posted|..] else []
  }

  predicate SendsElsewhere(w: World, c: Id, step: Step) {
    (step.Send? || step.Retry?) && w.store.active != Some(c)
  }

  /** What a run posts if each Retry in chat `c` resends `base`, and besides only other chats send. */
  function Resent(w: World, c: Id, base: seq<Turn>, steps: seq<Step>): seq<Post>
    decreases steps
  {
    if steps == [] then []
    else PostsOf(w, c, base, steps[0]) + Resent(Next(w, steps[0]), c, base, steps[1..])
  }

  function PostsOf(w: World, c: Id, base: seq<Turn>, step: Step): seq<Post> {
    if RetriesIn(w, c, step) then [Post(Messages(base), PageOf(w))]
    else if SendsElsewhere(w, c, step) then NewPosts(w, step)
    else []
  }

  // ------------------------------------------------------------- the turns of one chat

  lemma TurnsAt(s: ChatState, i: nat)
    requires DistinctIds(s.conversations) && i < |s.conversations|
    ensures TurnsOf(s, s.conversations[i].id) == s.conversations[i].turns
  {
    var j := IndexOf(s.conversations, s.conversations[i].id);
    assert j.Some? && j.value == i;
  }

  lemma IndexAt(s: ChatState, c: Id) returns (i: nat)
    requires DistinctIds(s.conversations) && Present(s, c)
    ensures i < |s.conversations| && s.conversations[i].id == c && TurnsOf(s, c) == s.conversations[i].turns
  {
    i :| 0 <= i < |s.conversations| && s.conversations[i].id == c;
    TurnsAt(s, i);
  }

  lemma ActiveTurnsAreTurnsOf(s: ChatState)
    requires s.active.Some?
    ensures ActiveTurns(s) == TurnsOf(s, s.active.value)
  {
  }

  /** If chat `c` is in the new list only as it was in the old one, its turns are the same. */
  lemma SameTurns(s: ChatState, t: ChatState, c: Id)
    requires DistinctIds(s.conversations) && DistinctIds(t.conversations) && Present(t, c)
    requires forall j | 0 <= j < |t.conversations| && t.conversations[j].id == c ::
      exists i | 0 <= i < |s.conversations| ::
        s.conversations[i].id == c && s.conversations[i].turns == t.conversations[j].turns
    ensures Present(s, c) && TurnsOf(t, c) == TurnsOf(s, c)
  {
    var j := IndexAt(t, c);
    var i :| 0 <= i < |s.conversations|
             && s.conversations[i].id == c && s.conversations[i].turns == t.conversations[j].turns;
    TurnsAt(s, i);
  }

  lemma SameChatsSameTurns(s: ChatState, t: ChatState, c: Id)
    requires s.conversations == t.conversations
    ensures TurnsOf(s, c) == TurnsOf(t, c) && (Present(s, c) <==> Present(t, c))
  {
  }

  lemma MapTurnsOf(s: ChatState, t: ChatState, change: Turn -> Turn, c: Id)
    requires DistinctIds(s.conversations) && Present(s, c)
    requires t.conversations == MapTurns(s.conversations, change)
    ensures Present(t, c) && TurnsOf(t, c) == ChangedTurns(TurnsOf(s, c), change)
  {
    var i := IndexAt(s, c);
    assert t.conversations[i].id == c;
    TurnsAt(t, i);
  }

  lemma OpeningKeepsTurns(s: ChatState, newId: Id, c: Id)
    requires DistinctIds(s.conversations) && IdsBelow(s.conversations, newId) && c != newId
    requires Present(NewConversation(s, newId), c)
    ensures Present(s, c) && TurnsOf(NewConversation(s, newId), c) == TurnsOf(s, c)
  {
    var newest := Conversation(newId, [], false);
    assert DistinctIds(s.conversations + [newest]);
    CappedMembers(s.conversations + [newest]);
    var after := NewConversation(s, newId);
    hide Capped, DistinctIds, TurnsOf;
    forall j | 0 <= j < |after.conversations| && after.conversations[j].id == c
      ensures exists i | 0 <= i < |s.conversations| ::
        s.conversations[i].id == c && s.conversations[i].turns == after.conversations[j].turns
    {
      assert after.conversations[j] in s.conversations + [newest];
      var i :| 0 <= i < |s.conversations + [newest]| && (s.conversations + [newest])[i] == after.conversations[j];
      assert i < |s.conversations|;
    }
    SameTurns(s, after, c);
  }

  lemma AddingElsewhereKeepsTurns(s: ChatState, chat: Id, turn: Turn, c: Id)
    requires DistinctIds(s.conversations) && c != chat && Present(AddTurn(s, chat, turn), c)
    ensures Present(s, c) && TurnsOf(AddTurn(s, chat, turn), c) == TurnsOf(s, c)
  {
    var after := AddTurn(s, chat, turn);
    forall j | 0 <= j < |after.conversations| && after.conversations[j].id == c
      ensures s.conversations[j].id == c && s.conversations[j].turns == after.conversations[j].turns
    {
    }
    assert DistinctIds(after.conversations);
    SameTurns(s, after, c);
  }

  lemma AppendingElsewhere(s: ChatState, turn: Turn, newId: Id, c: Id, n: Id)
    requires DistinctIds(s.conversations) && IdsBelow(s.conversations, n) && c < n <= newId && s.active != Some(c)
    requires Present(AppendTurn(s, turn, newId), c)
    ensures Present(s, c) && TurnsOf(AppendTurn(s, turn, newId), c) == TurnsOf(s, c)
  {
    hide NewConversation, AddTurn, TurnsOf, DistinctIds, IdsBelow;
    if s.active.Some? && Present(s, s.active.value) {
      AddingElsewhereKeepsTurns(s, s.active.value, turn, c);
    } else {
      var mid := NewConversation(s, newId);
      HigherBound(s.conversations, n, newId);
      NewConversationKeepsIds(s, n, newId, newId + 1);
      AddingElsewhereKeepsTurns(mid, newId, turn, c);
      OpeningKeepsTurns(s, newId, c);
    }
  }

  lemma AppendStaysElsewhere(s: ChatState, turn: Turn, newId: Id, c: Id)
    requires c != newId && s.active != Some(c)
    ensures AppendTurn(s, turn, newId).active != Some(c)
  {
  }

  /** A send in another chat leaves chat `c` as it is, unless it displaces it. */
  lemma OpenedElsewhere(s: ChatState, text: string, appendUserTurn: bool, n: Id, c: Id)
    requires DistinctIds(s.conversations) && IdsBelow(s.conversations, n) && c < n && s.active != Some(c)
    requires Present(Opened(s, text, appendUserTurn, n), c)
    ensures Present(s, c) && TurnsOf(Opened(s, text, appendUserTurn, n), c) == TurnsOf(s, c)
  {
    hide AppendTurn, TurnsOf, DistinctIds, IdsBelow, Present;
    var s1 := WithUserTurn(s, text, appendUserTurn, n);
    if appendUserTurn {
      AppendKeepsIds(s, UserTurn(n, text), n + 1, n, n + 2);
      AppendStaysElsewhere(s, UserTurn(n, text), n + 1, c);
    } else {
      HigherBound(s.conversations, n, n + 2);
    }
    var s2 := AppendTurn(s1, Placeholder(n + 2), n + 3);
    SameChatsSameTurns(s2, Opened(s, text, appendUserTurn, n), c);
    AppendingElsewhere(s1, Placeholder(n + 2), n + 3, c, n + 2);
    if appendUserTurn {
      AppendingElsewhere(s, UserTurn(n, text), n + 1, c, n);
    }
  }

  lemma RetryElsewhere(w: World, c: Id)
    requires Inv(w) && w.store.active != Some(c) && Present(w.store, c) && Present(BeginRetry(w).store, c)
    ensures TurnsOf(BeginRetry(w).store, c) == TurnsOf(w.store, c)
  {
    var text := LastUserMessage(w.store);
    InvFacts(w);
    if !w.store.streaming && text.Some? && text.value != [] {
      var s := SetDraft(DropFailedTail(w.store), "");
      DropTailKeeps(w.store, CurrentTurn(w), w.inflight, w.nextId);
      PresentIsOld(w.store, c, w.nextId);
      assert DistinctIds(s.conversations) && IdsBelow(s.conversations, w.nextId);
      hide Inv, ListInv, Opened, TurnsOf, Origins, RequestsInv;
      OpenedElsewhere(s, text.value, false, w.nextId, c);
      DroppingElsewhere(w.store, c);
      SameChatsSameTurns(DropFailedTail(w.store), s, c);
    }
  }

  lemma PresentIsOld(s: ChatState, c: Id, n: Id)
    requires IdsBelow(s.conversations, n) && Present(s, c)
    ensures c < n
  {
  }

  lemma DroppingElsewhere(s: ChatState, c: Id)
    requires DistinctIds(s.conversations) && Present(s, c) && s.active != Some(c)
    ensures TurnsOf(DropFailedTail(s), c) == TurnsOf(s, c)
  {
    var t := DropFailedTail(s);
    var i := IndexAt(s, c);
    assert t.conversations[i] == s.conversations[i];
    assert DistinctIds(t.conversations);
    TurnsAt(t, i);
  }

  lemma RemovingKeepsTurns(s: ChatState, id: Id, c: Id)
    requires DistinctIds(s.conversations) && DistinctIds(RemoveConversation(s, id).conversations)
    requires Present(RemoveConversation(s, id), c)
    ensures TurnsOf(RemoveConversation(s, id), c) == TurnsOf(s, c)
  {
    var after := RemoveConversation(s, id);
    WithoutSublist(s.conversations, {id});
    hide DistinctIds, TurnsOf;
    forall j | 0 <= j < |after.conversations| && after.conversations[j].id == c
      ensures exists i | 0 <= i < |s.conversations| ::
        s.conversations[i].id == c && s.conversations[i].turns == after.conversations[j].turns
    {
      assert after.conversations[j] in s.conversations;
    }
    SameTurns(s, after, c);
  }

  lemma PinningKeepsTurns(s: ChatState, id: Id, c: Id)
    requires DistinctIds(s.conversations) && Present(s, c)
    ensures TurnsOf(TogglePinned(s, id), c) == TurnsOf(s, c)
  {
    var t := TogglePinned(s, id);
    var i := IndexAt(s, c);
    assert t.conversations[i].id == c && t.conversations[i].turns == s.conversations[i].turns;
    assert DistinctIds(t.conversations);
    TurnsAt(t, i);
  }

  // -------------------------------------------------------------- steps and the waiting chat

  lemma UnansweredFacts(w: World, c: Id, base: seq<Turn>)
    requires Unanswered(w, c, base)
    ensures Inv(w) && Present(w.store, c) && EndsWithUser(base) && base <= TurnsOf(w.store, c)
    ensures DistinctIds(w.store.conversations) && IdsBelow(w.store.conversations, w.nextId) && c < w.nextId
    ensures w.store.streaming <==> w.abort.Some?
    ensures w.abort.Some? ==> w.abort.value in w.inflight
  {
    hide TurnsOf, EndsWithUser;
    InvFacts(w);
    PresentIsOld(w.store, c, w.nextId);
  }

  /** Within one chat turn ids are distinct, and exactly the current turn streams. */
  lemma TurnFacts(w: World, c: Id)
    requires Inv(w) && Present(w.store, c)
    ensures forall k | 0 <= k < |TurnsOf(w.store, c)| :: TurnOk(TurnsOf(w.store, c)[k], CurrentTurn(w))
    ensures forall k, l | 0 <= k < |TurnsOf(w.store, c)| && 0 <= l < |TurnsOf(w.store, c)|
              && TurnsOf(w.store, c)[k].id == TurnsOf(w.store, c)[l].id :: k == l
  {
    InvFacts(w);
    var i := IndexAt(w.store, c);
    var turns := w.store.conversations[i].turns;
    forall k | 0 <= k < |turns|
      ensures TurnOk(turns[k], CurrentTurn(w))
    {
    }
    forall k, l | 0 <= k < |turns| && 0 <= l < |turns| && turns[k].id == turns[l].id
      ensures k == l
    {
    }
  }

  /** A step after which chat `c` has the turns it had leaves it waiting. */
  lemma SameTurnsStayUnanswered(w: World, v: World, c: Id, base: seq<Turn>)
    requires Unanswered(w, c, base) && Inv(v) && Present(v.store, c) && TurnsOf(v.store, c) == TurnsOf(w.store, c)
    ensures Unanswered(v, c, base)
  {
    hide Inv, Present, TurnsOf, EndsWithUser;
  }

  /** A step that changes the turns of chat `c` one by one leaves it waiting if it changes no turn of the base. */
  lemma ChangedStayUnanswered(w: World, v: World, c: Id, base: seq<Turn>, change: Turn -> Turn)
    requires Unanswered(w, c, base) && Inv(v) && Present(v.store, c)
    requires TurnsOf(v.store, c) == ChangedTurns(TurnsOf(w.store, c), change)
    requires forall k | 0 <= k < |TurnsOf(w.store, c)| ::
      if k < |base| then change(TurnsOf(w.store, c)[k]) == TurnsOf(w.store, c)[k]
      else IsAttempt(change(TurnsOf(w.store, c)[k]))
    ensures Unanswered(v, c, base)
  {
    hide Inv, Present, TurnsOf, EndsWithUser;
    var was, now := TurnsOf(w.store, c), TurnsOf(v.store, c);
    forall k | 0 <= k < |base|
      ensures now[k] == base[k]
    {
      assert was[k] == base[k];
    }
  }

  lemma ReceiveSpares(w: World, c: Id, base: seq<Turn>, id: Id, event: StreamEvent)
    requires Unanswered(w, c, base) && Spares(w, c, base, Receive(id, event))
    ensures Unanswered(Next(w, Receive(id, event)), c, base)
  {
    hide Inv, TurnsOf, Present, EndsWithUser, PatchTurn, Unanswered;
    var v := Next(w, Receive(id, event));
    UnansweredFacts(w, c, base);
    StepKeeps(w, Receive(id, event));
    if id !in w.inflight || event.ErrorEvent? {
      SameChatsSameTurns(w.store, v.store, c);
      SameTurnsStayUnanswered(w, v, c, base);
    } else {
      var turnId := w.inflight[id].turnId;
      var patch := Patch(v.inflight[id].reply, v.inflight[id].toolCalls, None, None);
      assert v.store == PatchTurn(w.store, turnId, patch);
      PatchMapsTurns(w.store, turnId, patch, c);
      PatchedAttempts(w, c, base, turnId, patch);
      ChangedStayUnanswered(w, v, c, base, (t: Turn) => if t.id == turnId then Patched(t, patch) else t);
    }
  }

  lemma PatchMapsTurns(s: ChatState, turnId: Id, patch: Patch, c: Id)
    requires DistinctIds(s.conversations) && Present(s, c)
    ensures var t := PatchTurn(s, turnId, patch);
      Present(t, c)
      && TurnsOf(t, c) == ChangedTurns(TurnsOf(s, c), (t: Turn) => if t.id == turnId then Patched(t, patch) else t)
  {
    MapTurnsOf(s, PatchTurn(s, turnId, patch), (t: Turn) => if t.id == turnId then Patched(t, patch) else t, c);
  }

  lemma PatchedAttempts(w: World, c: Id, base: seq<Turn>, turnId: Id, patch: Patch)
    requires Unanswered(w, c, base) && !InBase(base, turnId) && patch.streaming.None? && patch.failed.None?
    ensures forall k | 0 <= k < |TurnsOf(w.store, c)| ::
      var t := TurnsOf(w.store, c)[k];
      if k < |base| then t.id != turnId else IsAttempt(t) && IsAttempt(Patched(t, patch))
  {
    hide Inv, TurnsOf, Present, EndsWithUser;
    var turns := TurnsOf(w.store, c);
    assert forall k | 0 <= k < |base| :: turns[k] == base[k];
  }

  /** The current request fails: if its turn is in chat `c`, it is a failed attempt from now on. */
  lemma FailureSpares(w: World, c: Id, base: seq<Turn>, id: Id, message: string)
    requires Unanswered(w, c, base) && w.abort == Some(id)
    ensures Unanswered(SettleFailed(w, id, message), c, base)
  {
    hide Inv, TurnsOf, Present, EndsWithUser, DistinctIds, IdsBelow, ListInv, Origins;
    UnansweredFacts(w, c, base);
    SettleFailedKeeps(w, id, message);
    TurnFacts(w, c);
    var request, v := w.inflight[id], SettleFailed(w, id, message);
    var patch := Patch(request.reply, request.toolCalls, Some(false), Some(true));
    var failing := (t: Turn) => if t.streaming then t.(streaming := false, failed := true) else t;
    var s1 := PatchTurn(w.store, request.turnId, patch);
    PatchMapsTurns(w.store, request.turnId, patch, c);
    assert DistinctIds(s1.conversations) by { MapKeepsIds(w.store, request.turnId, patch); }
    MapTurnsOf(s1, v.store, failing, c);
    var was, now := TurnsOf(w.store, c), TurnsOf(v.store, c);
    assert base == now[..|base|] by {
      forall k | 0 <= k < |base|
        ensures now[k] == base[k]
      {
        assert was[k] == base[k];
      }
    }
  }

  lemma MapKeepsIds(s: ChatState, turnId: Id, patch: Patch)
    requires DistinctIds(s.conversations)
    ensures DistinctIds(PatchTurn(s, turnId, patch).conversations)
  {
  }

  lemma QuietTurns(s: ChatState, c: Id)
    requires !StreamsIn(s, c)
    ensures forall k | 0 <= k < |TurnsOf(s, c)| :: !TurnsOf(s, c)[k].streaming
  {
  }

  /** The current request completes in another chat. */
  lemma DoneElsewhere(w: World, c: Id, base: seq<Turn>, id: Id)
    requires Unanswered(w, c, base) && w.abort == Some(id) && !StreamsIn(w.store, c)
    ensures Unanswered(SettleDone(w, id), c, base)
  {
    hide Inv, TurnsOf, Present, EndsWithUser, DistinctIds, IdsBelow, ListInv, Origins, StreamsIn, Unanswered, Patched;
    UnansweredFacts(w, c, base);
    SettleDoneKeeps(w, id);
    TurnFacts(w, c);
    QuietTurns(w.store, c);
    var turns := TurnsOf(w.store, c);
    var request, v := w.inflight[id], SettleDone(w, id);
    var patch := Patch(request.reply, request.toolCalls, Some(false), None);
    PatchMapsTurns(w.store, request.turnId, patch, c);
    SameChatsSameTurns(PatchTurn(w.store, request.turnId, patch), v.store, c);
    assert TurnsOf(v.store, c) == turns;
    SameTurnsStayUnanswered(w, v, c, base);
  }

  /** Stop in another chat, or with nothing to stop. */
  lemma StopElsewhere(w: World, c: Id, base: seq<Turn>)
    requires Unanswered(w, c, base) && !StreamsIn(w.store, c)
    ensures Unanswered(Next(w, Stop), c, base)
  {
    hide Inv, TurnsOf, Present, EndsWithUser, StreamsIn, DistinctIds, IdsBelow, Unanswered;
    UnansweredFacts(w, c, base);
    StepKeeps(w, Stop);
    QuietTurns(w.store, c);
    var turns, v := TurnsOf(w.store, c), Next(w, Stop);
    MapTurnsOf(w.store, v.store, (t: Turn) => if t.streaming then t.(streaming := false, stopped := true) else t, c);
    assert TurnsOf(v.store, c) == turns;
    SameTurnsStayUnanswered(w, v, c, base);
  }

  lemma SettlingSpares(w: World, c: Id, base: seq<Turn>, step: Step)
    requires Unanswered(w, c, base) && (step.Resolve? || step.Reject?) && Spares(w, c, base, step)
    ensures Unanswered(Next(w, step), c, base)
  {
    hide Inv, TurnsOf, Present, EndsWithUser, Unanswered, SettleFailed, SettleDone, StreamsIn;
    var id := step.request;
    UnansweredFacts(w, c, base);
    StepKeeps(w, step);
    if id !in w.inflight || w.abort != Some(id) {
      SameChatsSameTurns(w.store, Next(w, step).store, c);
      SameTurnsStayUnanswered(w, Next(w, step), c, base);
    } else if step.Reject? {
      FailureSpares(w, c, base, id, step.message);
    } else if w.inflight[id].streamError != [] {
      FailureSpares(w, c, base, id, w.inflight[id].streamError);
    } else {
      DoneElsewhere(w, c, base, id);
    }
  }

  // -------------------------------------------------------------------- Retry in the chat

  lemma WaitingIsFailed(w: World, c: Id, base: seq<Turn>)
    requires Unanswered(w, c, base) && w.store.active == Some(c) && !w.store.streaming
    ensures FailedAfter(w, base)
  {
    UnansweredFacts(w, c, base);
    TurnFacts(w, c);
    ActiveTurnsAreTurnsOf(w.store);
    hide Inv, TurnsOf, ActiveTurns, Present, EndsWithUser;
    assert CurrentTurn(w) == None;
  }

  lemma StreamingIsWaiting(w: World, c: Id, base: seq<Turn>, id: Id)
    requires StreamingAfter(w, base, id) && w.store.active == Some(c)
    ensures Unanswered(w, c, base)
  {
    BaseIsQuiet(w, base, id);
    ActiveTurnsAreTurnsOf(w.store);
  }

  lemma RetryStaysHere(w: World, c: Id)
    requires Inv(w) && w.store.active == Some(c) && Present(w.store, c)
    ensures BeginRetry(w).store.active == Some(c)
  {
    InvFacts(w);
    hide Inv, NewConversation, LastUserMessage;
    MapPresence(w.store, DropFailedTail(w.store), c);
    AddTurnPresence(DropFailedTail(w.store), c, Placeholder(w.nextId + 2), c);
  }

  /** Retry in a waiting chat posts its base, and the chat waits again. */
  lemma RetryInChat(w: World, c: Id, base: seq<Turn>)
    requires Unanswered(w, c, base) && RetriesIn(w, c, Retry)
    ensures Unanswered(Next(w, Retry), c, base)
    ensures Next(w, Retry).posted == w.posted + [Post(Messages(base), PageOf(w))]
  {
    hide Inv, TurnsOf, Present, EndsWithUser, Unanswered, FailedAfter, StreamingAfter, BeginRetry, Messages;
    var v := Next(w, Retry);
    UnansweredFacts(w, c, base);
    WaitingIsFailed(w, c, base);
    RetryStreamsAgain(w, base);
    RetryStaysHere(w, c);
    StreamingIsWaiting(v, c, base, w.nextId + 4);
    assert v.posted[..|w.posted|] == w.posted;
  }

  // ------------------------------------------------------------------------ one step

  lemma ListStepSpares(w: World, c: Id, base: seq<Turn>, step: Step)
    requires Unanswered(w, c, base) && Present(Next(w, step).store, c)
    requires step.NewChat? || step.RemoveChat? || step.TogglePin?
    ensures Unanswered(Next(w, step), c, base)
  {
    hide Inv, ListInv, TurnsOf, Present, EndsWithUser, Unanswered, NewConversation, RemoveConversation, TogglePinned,
         DistinctIds, IdsBelow;
    var v := Next(w, step);
    UnansweredFacts(w, c, base);
    StepKeeps(w, step);
    InvFacts(v);
    match step
    case NewChat =>
      OpeningKeepsTurns(w.store, w.nextId, c);
      SameTurnsStayUnanswered(w, v, c, base);
    case RemoveChat(id) =>
      RemovingKeepsTurns(w.store, id, c);
      SameTurnsStayUnanswered(w, v, c, base);
    case TogglePin(id) =>
      PinningKeepsTurns(w.store, id, c);
      SameTurnsStayUnanswered(w, v, c, base);
  }

  lemma SendSpares(w: World, c: Id, base: seq<Turn>, step: Step)
    requires Unanswered(w, c, base) && Present(Next(w, step).store, c) && Spares(w, c, base, step)
    requires step.Send? || (step.Retry? && !RetriesIn(w, c, step))
    ensures Unanswered(Next(w, step), c, base)
  {
    hide Inv, TurnsOf, Present, EndsWithUser, Unanswered, BeginRetry, Opened, DistinctIds, IdsBelow, Trim;
    var v := Next(w, step);
    UnansweredFacts(w, c, base);
    StepKeeps(w, step);
    if step.Retry? {
      if w.store.streaming {
        RetryIgnored(w);
      } else {
        RetryElsewhere(w, c);
      }
    } else if !w.store.streaming && Trim(step.text) != [] {
      OpenedElsewhere(w.store, Trim(step.text), true, w.nextId, c);
    }
    SameTurnsStayUnanswered(w, v, c, base);
  }

  lemma RetryIgnored(w: World)
    requires w.store.streaming
    ensures Next(w, Retry) == w
  {
  }

  lemma SparingStep(w: World, c: Id, base: seq<Turn>, step: Step)
    requires Unanswered(w, c, base) && Spares(w, c, base, step) && Present(Next(w, step).store, c)
    ensures Unanswered(Next(w, step), c, base)
  {
    hide Inv, TurnsOf, Present, EndsWithUser, Unanswered, BeginRetry, BeginSend, OnEvent, OnResolve, OnReject,
         StopStreaming, NewConversation, RemoveConversation, TogglePinned, StreamsIn, InBase, Trim;
    UnansweredFacts(w, c, base);
    match step
    case Send(_) => SendSpares(w, c, base, step);
    case Retry =>
      if RetriesIn(w, c, step) {
        RetryInChat(w, c, base);
      } else {
        SendSpares(w, c, base, step);
      }
    case Stop => StopElsewhere(w, c, base);
    case Receive(id, event) => ReceiveSpares(w, c, base, id, event);
    case Resolve(_) => SettlingSpares(w, c, base, step);
    case Reject(_, _) => SettlingSpares(w, c, base, step);
    case NewChat => ListStepSpares(w, c, base, step);
    case RemoveChat(_) => ListStepSpares(w, c, base, step);
    case TogglePin(_) => ListStepSpares(w, c, base, step);
    case _ =>
      StepKeeps(w, step);
      SameChatsSameTurns(w.store, Next(w, step).store, c);
      SameTurnsStayUnanswered(w, Next(w, step), c, base);
  }

  lemma SparingStepPosts(w: World, c: Id, base: seq<Turn>, step: Step)
    requires Unanswered(w, c, base) && Spares(w, c, base, step)
    ensures Next(w, step).posted == w.posted + PostsOf(w, c, base, step)
  {
    hide Unanswered, Messages, BeginSend, BeginRetry, Trim;
    PageStep(w, step);
    if RetriesIn(w, c, step) {
      RetryInChat(w, c, base);
    } else if SendsElsewhere(w, c, step) {
      assert w.posted <= Next(w, step).posted;
    } else {
      assert Next(w, step).posted == w.posted by { OthersPostNothing(w, c, step); }
      assert w.posted + [] == w.posted;
    }
  }

  lemma OthersPostNothing(w: World, c: Id, step: Step)
    requires !RetriesIn(w, c, step) && !SendsElsewhere(w, c, step)
    requires step.Send? ==> w.store.streaming || Trim(step.text) == [] || w.store.active != Some(c)
    ensures Next(w, step).posted == w.posted
  {
    hide BeginSend, LastUserMessage, Trim;
  }

  // ------------------------------------------------------------------------ over a run

  /** The chat keeps waiting, and the run posts its base once for each Retry in it. */
  lemma {:induction false} AttemptsResend(w: World, c: Id, base: seq<Turn>, steps: seq<Step>)
    requires Unanswered(w, c, base) && AllSpare(w, c, base, steps)
    ensures Unanswered(Run(w, steps), c, base)
    ensures Run(w, steps).posted == w.posted + Resent(w, c, base, steps)
    decreases steps
  {
    hide Unanswered, Next, Spares, PostsOf, Present;
    if steps != [] {
      var v := Next(w, steps[0]);
      SparingStep(w, c, base, steps[0]);
      SparingStepPosts(w, c, base, steps[0]);
      AttemptsResend(v, c, base, steps[1..]);
      Assoc(w.posted, PostsOf(w, c, base, steps[0]), Resent(v, c, base, steps[1..]));
    } else {
      assert w.posted + [] == w.posted;
    }
  }

  /** The chat a send goes to is the active one afterwards, unless it was dropped at once. */
  lemma SendActivates(w: World, text: string)
    requires Inv(w) && !w.store.streaming && Trim(text) != []
    requires Listed(w.store) || !FullOfPinned(w.store)
    ensures Next(w, Send(text)).store.active == Some(SendTarget(w))
  {
    hide Inv, ListInv, NewConversation, FullOfPinned, ActiveTurns, Trim, DistinctIds, IdsBelow;
    InvFacts(w);
    var user := UserTurn(w.nextId, Trim(text));
    AppendTurnActive(w.store, user, w.nextId + 1, w.nextId);
    assert AppendTurn(w.store, user, w.nextId + 1).active == Some(SendTarget(w)) by {
      NewConversationActivates(w.store, w.nextId + 1);
    }
  }

  lemma NewConversationActivates(s: ChatState, newId: Id)
    ensures NewConversation(s, newId).active == Some(newId)
  {
  }

  /**
   * However often an attempt fails, however it fails, and whatever else happens meanwhile, in this chat's list
   * or in other chats: wherever the run has got to, Retry in the chat posts the messages of the first attempt,
   * and the same page as long as the page is the same; and over the run nothing but these Retries posts for it.
   */
  lemma RetryResendsTheSameTranscript(w: World, text: string, steps: seq<Step>)
    requires Inv(w) && !w.store.streaming && Trim(text) != []
    requires Listed(w.store) || !FullOfPinned(w.store)
    requires AllSpare(Next(w, Send(text)), SendTarget(w),
                      ActiveTurns(w.store) + [UserTurn(w.nextId, Trim(text))], steps)
    ensures var first, c := Next(w, Send(text)), SendTarget(w);
      var base := ActiveTurns(w.store) + [UserTurn(w.nextId, Trim(text))];
      var v := Run(first, steps);
      && first.posted == w.posted + [Post(Messages(base), PageOf(w))]
      && v.posted == first.posted + Resent(first, c, base, steps)
      && base <= TurnsOf(v.store, c)
      && (RetriesIn(v, c, Retry) ==> Next(v, Retry).posted == v.posted + [Post(Messages(base), PageOf(v))])
  {
    hide Run, Next, StreamingAfter, Messages, Inv, Listed, FullOfPinned, ActiveTurns, Trim, AllSpare, Resent,
         Unanswered, SendTarget, TurnsOf;
    var base, c := ActiveTurns(w.store) + [UserTurn(w.nextId, Trim(text))], SendTarget(w);
    var first := Next(w, Send(text));
    SendStreams(w, text);
    SendActivates(w, text);
    StreamingIsWaiting(first, c, base, w.nextId + 4);
    assert first.posted[..|w.posted|] == w.posted;
    AttemptsResend(first, c, base, steps);
    var v := Run(first, steps);
    UnansweredFacts(v, c, base);
    if RetriesIn(v, c, Retry) {
      RetryInChat(v, c, base);
    }
  }
}
