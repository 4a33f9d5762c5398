/**
 * The chat protocol of the extension's controller.
 *
 * Handlers interleave at network awaits. A click on Send or Retry runs up to the request; the
 * request then delivers events and finally settles (resolves or rejects), each as a step of its
 * own, in any order with every other step. Aborting a request does not remove it: what it still
 * delivers afterwards is a step like any other.
 */
module ChatProtocol {
  import opened Options
  import opened Sequences
  import opened Text
  import opened Conversations
  import opened ChatStore

  datatype Message = Message(role: Role, content: string)

  /** The body of one request to the Bridge. */
  datatype Post = Post(messages: seq<Message>, webContext: Option<Bundle>)

  /** The locals a request closes over. */
  datatype Request = Request(turnId: Id, text: string, webContext: Option<Bundle>, reply: string,
                             toolCalls: seq<ToolCall>, streamError: string)

  datatype StreamEvent =
    | ErrorEvent(content: string)
    | Delta(content: string, toolCall: Option<ToolCall>)

  /** The store, the controller's fields, the requests in flight (by abort controller), and the posts made. */
  datatype World = World(store: ChatState, abort: Option<Id>, inflight: map<Id, Request>, nextId: Id, posted: seq<Post>)

  datatype Step =
    | Send(text: string)
    | Retry
    | Stop
    | Receive(request: Id, event: StreamEvent)
    | Resolve(request: Id)
    | Reject(request: Id, message: string)
    | NewChat
    | SelectChat(id: Id)
    | RemoveChat(id: Id)
    | TogglePin(id: Id)
    | AskAi(bundle: Bundle)
    | ClearContext
    | IncludeContext(included: bool)

  // ------------------------------------------------------------ vocabulary

  const SAFE_MESSAGES: set<string> := {
    "Invalid API key", "Rate limit reached", "Provider unavailable", "Backend unreachable",
    "Streaming stopped", "LLM provider is not configured", "Provider rejected the request"
  }

  const PROVIDER_UNAVAILABLE := "Provider unavailable"
  const PAGE_CONTEXT_READY := "Page context ready. It is sent only with your next message."
  const TOOL_PROPOSAL := "Tool proposal waiting for approval."

  function SafeContent(content: string): string {
    if content in SAFE_MESSAGES then content else PROVIDER_UNAVAILABLE
  }

  // ----------------------------------------------------------- step functions

  /** The messages a request carries: every non-empty turn but the placeholder. */
  function Transcript(turns: seq<Turn>, placeholder: Id): seq<Message> {
    if turns == [] then []
    else if turns[0].id == placeholder || turns[0].content == [] then Transcript(turns[1..], placeholder)
    else [Message(turns[0].role, turns[0].content)] + Transcript(turns[1..], placeholder)
  }

  function ActiveTurns(s: ChatState): seq<Turn> {
    var conversation := ActiveConversation(s);
    if conversation.Some? then conversation.value.turns else []
  }

  function UserTurn(id: Id, text: string): Turn {
    Turn(id, User, text, false, false, false, [])
  }

  function Placeholder(id: Id): Turn {
    Turn(id, Assistant, "", true, false, false, [])
  }

  /** The store once both turns are appended and streaming is on. `n` is the first unused id. */
  function Opened(s: ChatState, text: string, appendUserTurn: bool, n: Id): ChatState {
    var s1 := if appendUserTurn then AppendTurn(s, UserTurn(n, text), n + 1) else s;
    var s2 := AppendTurn(s1, Placeholder(n + 2), n + 3);
    SetDraft(SetStreaming(s2, true, ""), "")
  }

  /** `sendAssistantMessage` up to the network await. */
  function BeginSend(w: World, text: string, appendUserTurn: bool): World {
    var n := w.nextId;
    var webContext := if w.store.includeContext then w.store.webContext else None;
    var store := Opened(w.store, text, appendUserTurn, n);
    World(store, Some(n + 4),
          w.inflight[n + 4 := Request(n + 2, text, webContext, "", [], "")],
          n + 5,
          w.posted + [Post(Transcript(ActiveTurns(store), n + 2), webContext)])
  }

  function BeginRetry(w: World): World {
    if w.store.streaming then w
    else
      var text := LastUserMessage(w.store);
      if text.None? || text.value == [] then w
      else BeginSend(w.(store := SetDraft(DropFailedTail(w.store), "")), text.value, false)
  }

  /** `onEvent`: the patch is applied whether or not the request is still the current one. */
  function OnEvent(w: World, id: Id, event: StreamEvent): World
    requires id in w.inflight
  {
    var request := w.inflight[id];
    match event
    case ErrorEvent(content) =>
      w.(inflight := w.inflight[id := request.(streamError := SafeContent(content))])
    case Delta(content, toolCall) =>
      var toolCalls := if toolCall.Some? then request.toolCalls + [toolCall.value] else request.toolCalls;
      var reply := request.reply + content;
      w.(store := PatchTurn(w.store, request.turnId, Patch(reply, toolCalls, None, None)),
         inflight := w.inflight[id := request.(reply := reply, toolCalls := toolCalls)])
  }

  /** The stale path of a settling request: only the `finally` block has an effect. */
  function SettleStale(w: World, id: Id): World
    requires id in w.inflight
  {
    var request := w.inflight[id];
    w.(store := if request.webContext.Some? then SetWebContext(w.store, None) else w.store,
       inflight := w.inflight - {id})
  }

  function SettleFailed(w: World, id: Id, message: string): World
    requires id in w.inflight
  {
    var request := w.inflight[id];
    var s1 := PatchTurn(w.store, request.turnId, Patch(request.reply, request.toolCalls, Some(false), Some(true)));
    w.(store := FailStreaming(SetDraft(s1, request.text), message), abort := None, inflight := w.inflight - {id})
  }

  function SettleDone(w: World, id: Id): World
    requires id in w.inflight
  {
    var request := w.inflight[id];
    var s1 := PatchTurn(w.store, request.turnId, Patch(request.reply, request.toolCalls, Some(false), None));
    var s2 := SetStreaming(s1, false, if request.toolCalls != [] then TOOL_PROPOSAL else "");
    w.(store := if request.webContext.Some? then SetWebContext(s2, None) else s2,
       abort := None, inflight := w.inflight - {id})
  }

  function OnResolve(w: World, id: Id): World
    requires id in w.inflight
  {
    if w.abort != Some(id) then SettleStale(w, id)
    else if w.inflight[id].streamError != [] then SettleFailed(w, id, w.inflight[id].streamError)
    else SettleDone(w, id)
  }

  function OnReject(w: World, id: Id, message: string): World
    requires id in w.inflight
  {
    if w.abort != Some(id) then SettleStale(w, id) else SettleFailed(w, id, message)
  }

  /** Steps that are not possible in `w` leave it as it is. Send is guarded by the composer. */
  function Next(w: World, step: Step): World {
    match step
    case Send(text) =>
      if w.store.streaming || Trim(text) == [] then w else BeginSend(w, Trim(text), true)
    case Retry => BeginRetry(w)
    case Stop => w.(abort := None, store := StopStreaming(w.store))
    case Receive(id, event) => if id in w.inflight then OnEvent(w, id, event) else w
    case Resolve(id) => if id in w.inflight then OnResolve(w, id) else w
    case Reject(id, message) => if id in w.inflight then OnReject(w, id, message) else w
    case NewChat => w.(store := NewConversation(w.store, w.nextId), nextId := w.nextId + 1)
    case SelectChat(id) => w.(store := SelectConversation(w.store, id))
    case RemoveChat(id) => w.(store := RemoveConversation(w.store, id))
    case TogglePin(id) => w.(store := TogglePinned(w.store, id))
    case AskAi(bundle) => w.(store := SetWebContext(w.store, Some(bundle)).(status := PAGE_CONTEXT_READY))
    case ClearContext => w.(store := SetWebContext(w.store, None))
    case IncludeContext(included) => w.(store := w.store.(includeContext := included))
  }

  function Run(w: World, steps: seq<Step>): World
    decreases steps
  {
    if steps == [] then w else Run(Next(w, steps[0]), steps[1..])
  }

  lemma {:induction false} RunAppend(w: World, a: seq<Step>, b: seq<Step>)
    ensures Run(w, a + b) == Run(Run(w, a), b)
    decreases a
  {
    if a == [] {
      assert a + b == b;
    } else {
      Uncons(a, b);
      RunAppend(Next(w, a[0]), a[1..], b);
    }
  }

  // ------------------------------------------------------------- the invariant

  /** The turn of the request whose abort controller is current. */
  function CurrentTurn(w: World): Option<Id> {
    if w.abort.Some? && w.abort.value in w.inflight then Some(w.inflight[w.abort.value].turnId) else None
  }

  ghost predicate UniqueTurns(list: seq<Conversation>) {
    forall i, k, j, l |
      && 0 <= i < |list| && 0 <= k < |list[i].turns|
      && 0 <= j < |list| && 0 <= l < |list[j].turns|
      && list[i].turns[k].id == list[j].turns[l].id :: i == j && k == l
  }

  ghost predicate IdsBelow(list: seq<Conversation>, n: Id) {
    && (forall i | 0 <= i < |list| :: list[i].id < n)
    && (forall i, k | 0 <= i < |list| && 0 <= k < |list[i].turns| :: list[i].turns[k].id < n)
  }

  /** Exactly the current turn streams; streaming, stopped and failed exclude each other. */
  ghost predicate TurnOk(t: Turn, current: Option<Id>) {
    && (t.streaming <==> current == Some(t.id))
    && !(t.streaming && t.stopped) && !(t.streaming && t.failed) && !(t.stopped && t.failed)
    && (t.role.User? ==> !t.streaming && !t.stopped && !t.failed)
  }

  ghost predicate TurnsOk(list: seq<Conversation>, current: Option<Id>) {
    forall i, k | 0 <= i < |list| && 0 <= k < |list[i].turns| :: TurnOk(list[i].turns[k], current)
  }

  ghost predicate ListInv(list: seq<Conversation>, current: Option<Id>, n: Id) {
    && |list| <= MAX_ASSISTANT_CONVERSATIONS
    && DistinctIds(list)
    && UniqueTurns(list)
    && IdsBelow(list, n)
    && TurnsOk(list, current)
  }

  /** No request writes to a user turn, and no two requests write to the same turn. */
  ghost predicate RequestsInv(list: seq<Conversation>, inflight: map<Id, Request>, n: Id) {
    && (forall r | r in inflight :: r < n && inflight[r].turnId < n)
    && (forall r, q | r in inflight && q in inflight && inflight[r].turnId == inflight[q].turnId :: r == q)
    && (forall r, i, k | r in inflight && 0 <= i < |list| && 0 <= k < |list[i].turns|
         && list[i].turns[k].id == inflight[r].turnId :: list[i].turns[k].role.Assistant?)
  }

  ghost predicate Inv(w: World) {
    && ListInv(w.store.conversations, CurrentTurn(w), w.nextId)
    && RequestsInv(w.store.conversations, w.inflight, w.nextId)
    && (w.store.streaming <==> w.abort.Some?)
    && (w.abort.Some? ==> w.abort.value in w.inflight)
  }

  // --------------------------------------------- how a step changes the turns

  /** A turn keeps its identity; user turns never change; the status of a turn that no longer streams is final. */
  ghost predicate Evolved(was: Turn, now: Turn) {
    && now.id == was.id && now.role == was.role
    && (was.role.User? ==> now == was)
    && (!was.streaming ==> now.streaming == was.streaming && now.stopped == was.stopped && now.failed == was.failed)
  }

  ghost predicate HasOrigin(list: seq<Conversation>, now: Turn) {
    exists j, l | 0 <= j < |list| && 0 <= l < |list[j].turns| :: Evolved(list[j].turns[l], now)
  }

  /** Every turn of `after` that is not new comes from a turn of `before`. */
  ghost predicate Origins(before: seq<Conversation>, after: seq<Conversation>, n: Id) {
    forall i, k | 0 <= i < |after| && 0 <= k < |after[i].turns| && after[i].turns[k].id < n ::
      HasOrigin(before, after[i].turns[k])
  }

  lemma OriginsSelf(list: seq<Conversation>, n: Id)
    ensures Origins(list, list, n)
  {
    forall i, k | 0 <= i < |list| && 0 <= k < |list[i].turns|
      ensures HasOrigin(list, list[i].turns[k])
    {
      assert Evolved(list[i].turns[k], list[i].turns[k]);
    }
  }

  lemma OriginsTransitive(a: seq<Conversation>, b: seq<Conversation>, c: seq<Conversation>, n: Id, m: Id)
    requires n <= m && Origins(a, b, n) && Origins(b, c, m)
    ensures Origins(a, c, n)
  {
    forall i, k | 0 <= i < |c| && 0 <= k < |c[i].turns| && c[i].turns[k].id < n
      ensures HasOrigin(a, c[i].turns[k])
    {
      var now := c[i].turns[k];
      assert HasOrigin(b, now);
      var j, l :| 0 <= j < |b| && 0 <= l < |b[j].turns| && Evolved(b[j].turns[l], now);
      assert HasOrigin(a, b[j].turns[l]);
      var p, q :| 0 <= p < |a| && 0 <= q < |a[p].turns| && Evolved(a[p].turns[q], b[j].turns[l]);
      assert Evolved(a[p].turns[q], now);
    }
  }

  /** Each conversation of `after` is new and empty, or keeps a prefix of the turns it had. */
  ghost predicate Shrunk(before: seq<Conversation>, after: seq<Conversation>) {
    forall i | 0 <= i < |after| :: after[i].turns == [] || Kept(before, after[i])
  }

  ghost predicate Kept(before: seq<Conversation>, c: Conversation) {
    exists j | 0 <= j < |before| :: before[j].id == c.id && c.turns <= before[j].turns
  }

  lemma ShrunkKeeps(before: seq<Conversation>, after: seq<Conversation>, current: Option<Id>,
                    inflight: map<Id, Request>, n: Id, m: Id)
    requires ListInv(before, current, n) && RequestsInv(before, inflight, n) && n <= m
    requires Shrunk(before, after) && DistinctIds(after) && |after| <= MAX_ASSISTANT_CONVERSATIONS
    requires forall i | 0 <= i < |after| :: after[i].id < m
    ensures ListInv(after, current, m) && RequestsInv(after, inflight, m)
    ensures Origins(before, after, n)
  {
    forall i, k | 0 <= i < |after| && 0 <= k < |after[i].turns|
      ensures HasOrigin(before, after[i].turns[k]) && TurnOk(after[i].turns[k], current)
      ensures exists j | 0 <= j < |before| ::
        before[j].id == after[i].id && k < |before[j].turns| && before[j].turns[k] == after[i].turns[k]
    {
      assert Kept(before, after[i]);
      var j :| 0 <= j < |before| && before[j].id == after[i].id && after[i].turns <= before[j].turns;
      assert before[j].turns[k] == after[i].turns[k];
      assert Evolved(before[j].turns[k], after[i].turns[k]);
    }
  }

  lemma MapKeeps(before: seq<Conversation>, change: Turn -> Turn, current: Option<Id>, later: Option<Id>,
                 inflight: map<Id, Request>, n: Id)
    requires ListInv(before, current, n) && RequestsInv(before, inflight, n)
    requires forall i, k | 0 <= i < |before| && 0 <= k < |before[i].turns| ::
      && Evolved(before[i].turns[k], change(before[i].turns[k]))
      && TurnOk(change(before[i].turns[k]), later)
    ensures ListInv(MapTurns(before, change), later, n)
    ensures RequestsInv(MapTurns(before, change), inflight, n)
    ensures Origins(before, MapTurns(before, change), n)
  {
    var after := MapTurns(before, change);
    forall i, k | 0 <= i < |after| && 0 <= k < |after[i].turns|
      ensures Evolved(before[i].turns[k], after[i].turns[k]) && HasOrigin(before, after[i].turns[k])
    {
      assert after[i].turns[k] == change(before[i].turns[k]);
    }
  }

  // ------------------------------------------------ every step keeps the invariant

  lemma MemberOfExtended(list: seq<Conversation>, newId: Id, c: Conversation)
    requires c in list + [Conversation(newId, [], false)]
    ensures c == Conversation(newId, [], false) || (Kept(list, c) && exists j | 0 <= j < |list| :: list[j].id == c.id)
  {
    if c in list {
      var j :| 0 <= j < |list| && list[j] == c;
      assert list[j].id == c.id && c.turns <= list[j].turns;
    }
  }

  lemma NewConversationKeeps(s: ChatState, current: Option<Id>, inflight: map<Id, Request>, n: Id, newId: Id, m: Id)
    requires ListInv(s.conversations, current, n) && RequestsInv(s.conversations, inflight, n)
    requires n <= newId < m
    ensures var after := NewConversation(s, newId).conversations;
      ListInv(after, current, m) && RequestsInv(after, inflight, m) && Origins(s.conversations, after, n)
  {
    var all := s.conversations + [Conversation(newId, [], false)];
    var after := NewConversation(s, newId).conversations;
    CappedMembers(all);
    forall i | 0 <= i < |after|
      ensures after[i].id < m && (after[i].turns == [] || Kept(s.conversations, after[i]))
    {
      MemberOfExtended(s.conversations, newId, after[i]);
    }
    ShrunkKeeps(s.conversations, after, current, inflight, n, m);
  }

  lemma RemoveKeeps(s: ChatState, id: Id, current: Option<Id>, inflight: map<Id, Request>, n: Id)
    requires ListInv(s.conversations, current, n) && RequestsInv(s.conversations, inflight, n)
    ensures var after := RemoveConversation(s, id).conversations;
      ListInv(after, current, n) && RequestsInv(after, inflight, n) && Origins(s.conversations, after, n)
  {
    var after := Without(s.conversations, {id});
    WithoutSublist(s.conversations, {id});
    SublistDistinct(s.conversations, after);
    WithoutLength(s.conversations, {id});
    forall i | 0 <= i < |after|
      ensures after[i].id < n && Kept(s.conversations, after[i])
    {
      assert after[i] in s.conversations;
    }
    ShrunkKeeps(s.conversations, after, current, inflight, n, n);
  }

  lemma {:induction false} WithoutLength(list: seq<Conversation>, dropped: set<Id>)
    ensures |Without(list, dropped)| <= |list|
  {
    if list != [] {
      WithoutLength(list[1..], dropped);
    }
  }

  lemma PinKeeps(s: ChatState, id: Id, current: Option<Id>, inflight: map<Id, Request>, n: Id)
    requires ListInv(s.conversations, current, n) && RequestsInv(s.conversations, inflight, n)
    ensures var after := TogglePinned(s, id).conversations;
      ListInv(after, current, n) && RequestsInv(after, inflight, n) && Origins(s.conversations, after, n)
  {
    var after := TogglePinned(s, id).conversations;
    forall i | 0 <= i < |after|
      ensures after[i].id == s.conversations[i].id && Kept(s.conversations, after[i])
    {
      assert after[i].turns == s.conversations[i].turns;
    }
    ShrunkKeeps(s.conversations, after, current, inflight, n, n);
  }

  lemma {:induction false} FailedTailPrefix(turns: seq<Turn>)
    ensures WithoutFailedTail(turns) <= turns
  {
    if turns != [] && turns[|turns| - 1].role.Assistant? && turns[|turns| - 1].failed {
      FailedTailPrefix(turns[..|turns| - 1]);
    }
  }

  lemma DropTailKeeps(s: ChatState, current: Option<Id>, inflight: map<Id, Request>, n: Id)
    requires ListInv(s.conversations, current, n) && RequestsInv(s.conversations, inflight, n)
    ensures var after := DropFailedTail(s).conversations;
      ListInv(after, current, n) && RequestsInv(after, inflight, n) && Origins(s.conversations, after, n)
  {
    var after := DropFailedTail(s).conversations;
    forall i | 0 <= i < |after|
      ensures after[i].id == s.conversations[i].id && Kept(s.conversations, after[i])
    {
      FailedTailPrefix(s.conversations[i].turns);
      assert after[i].turns <= s.conversations[i].turns;
    }
    ShrunkKeeps(s.conversations, after, current, inflight, n, n);
  }

  lemma AddTurnKeeps(s: ChatState, id: Id, turn: Turn, current: Option<Id>, later: Option<Id>,
                     inflight: map<Id, Request>, n: Id, m: Id)
    requires ListInv(s.conversations, current, n) && RequestsInv(s.conversations, inflight, n)
    requires turn.id < m && n <= m && TurnOk(turn, later)
    requires forall i, k | 0 <= i < |s.conversations| && 0 <= k < |s.conversations[i].turns| ::
      s.conversations[i].turns[k].id != turn.id && TurnOk(s.conversations[i].turns[k], later)
    requires forall r | r in inflight :: inflight[r].turnId != turn.id
    ensures var after := AddTurn(s, id, turn).conversations;
      ListInv(after, later, m) && RequestsInv(after, inflight, m)
    ensures forall i, k | 0 <= i < |AddTurn(s, id, turn).conversations| && 0 <= k < |AddTurn(s, id, turn).conversations[i].turns|
      :: AddTurn(s, id, turn).conversations[i].turns[k] == turn
         || (k < |s.conversations[i].turns| && AddTurn(s, id, turn).conversations[i].turns[k] == s.conversations[i].turns[k])
  {
    var before, after := s.conversations, AddTurn(s, id, turn).conversations;
    forall i, k | 0 <= i < |after| && 0 <= k < |after[i].turns|
      ensures k == |before[i].turns| ==> after[i].id == id && after[i].turns[k] == turn
      ensures k != |before[i].turns| ==> k < |before[i].turns| && after[i].turns[k] == before[i].turns[k]
    {
    }
  }

  lemma AppendKeeps(s: ChatState, turn: Turn, newId: Id, current: Option<Id>, later: Option<Id>,
                    inflight: map<Id, Request>, n: Id, m: Id)
    requires ListInv(s.conversations, current, n) && RequestsInv(s.conversations, inflight, n)
    requires n <= turn.id < m && n <= newId < m && TurnOk(turn, later)
    requires later == current || (current == None && later == Some(turn.id))
    ensures var after := AppendTurn(s, turn, newId).conversations;
      ListInv(after, later, m) && RequestsInv(after, inflight, m) && Origins(s.conversations, after, n)
  {
    var present := s.active.Some? && Present(s, s.active.value);
    var mid := if present then s else NewConversation(s, newId);
    var id := if present then s.active.value else newId;
    if !present {
      NewConversationKeeps(s, current, inflight, n, newId, m);
    } else {
      OriginsSelf(s.conversations, n);
    }
    forall i, k | 0 <= i < |mid.conversations| && 0 <= k < |mid.conversations[i].turns|
      ensures mid.conversations[i].turns[k].id < n
    {
      if !present {
        NewConversationTurnIds(s, newId, n, i, k);
      }
    }
    AddTurnKeeps(mid, id, turn, current, later, inflight, m, m);
    OriginsAfterAdd(s.conversations, mid, id, turn, n);
  }

  lemma NewConversationKeepsIds(s: ChatState, n: Id, newId: Id, m: Id)
    requires DistinctIds(s.conversations) && IdsBelow(s.conversations, n) && n <= newId < m
    ensures DistinctIds(NewConversation(s, newId).conversations) && IdsBelow(NewConversation(s, newId).conversations, m)
  {
    var after := NewConversation(s, newId).conversations;
    CappedMembers(s.conversations + [Conversation(newId, [], false)]);
    forall i | 0 <= i < |after|
      ensures after[i].id < m
    {
      MemberOfExtended(s.conversations, newId, after[i]);
    }
    forall i, k | 0 <= i < |after| && 0 <= k < |after[i].turns|
      ensures after[i].turns[k].id < m
    {
      NewConversationTurnIds(s, newId, n, i, k);
    }
  }

  lemma AddTurnKeepsIds(s: ChatState, id: Id, turn: Turn, m: Id)
    requires DistinctIds(s.conversations) && IdsBelow(s.conversations, m) && turn.id < m
    ensures DistinctIds(AddTurn(s, id, turn).conversations) && IdsBelow(AddTurn(s, id, turn).conversations, m)
  {
    var after := AddTurn(s, id, turn).conversations;
    forall i | 0 <= i < |after|
      ensures after[i].id == s.conversations[i].id
      ensures forall k | 0 <= k < |after[i].turns| ::
        after[i].turns[k] == turn || after[i].turns[k] in s.conversations[i].turns
    {
    }
  }

  /** Appending a turn keeps chat ids distinct and below the next unused id, whatever streams. */
  lemma AppendKeepsIds(s: ChatState, turn: Turn, newId: Id, n: Id, m: Id)
    requires DistinctIds(s.conversations) && IdsBelow(s.conversations, n) && n <= newId < m && n <= turn.id < m
    ensures DistinctIds(AppendTurn(s, turn, newId).conversations)
    ensures IdsBelow(AppendTurn(s, turn, newId).conversations, m)
  {
    hide DistinctIds, NewConversation, AddTurn, Present;
    if s.active.Some? && Present(s, s.active.value) {
      AddTurnKeepsIds(s, s.active.value, turn, m);
    } else {
      NewConversationKeepsIds(s, n, newId, m);
      AddTurnKeepsIds(NewConversation(s, newId), newId, turn, m);
    }
  }

  lemma NewConversationTurnIds(s: ChatState, newId: Id, n: Id, i: nat, k: nat)
    requires DistinctIds(s.conversations) && IdsBelow(s.conversations, n) && n <= newId
    requires i < |NewConversation(s, newId).conversations|
    requires k < |NewConversation(s, newId).conversations[i].turns|
    ensures NewConversation(s, newId).conversations[i].turns[k].id < n
  {
    var c := NewConversation(s, newId).conversations[i];
    CappedMembers(s.conversations + [Conversation(newId, [], false)]);
    MemberOfExtended(s.conversations, newId, c);
    var j :| 0 <= j < |s.conversations| && s.conversations[j].id == c.id && c.turns <= s.conversations[j].turns;
    assert s.conversations[j].turns[k] == c.turns[k];
  }

  lemma OriginsAfterAdd(before: seq<Conversation>, mid: ChatState, id: Id, turn: Turn, n: Id)
    requires Origins(before, mid.conversations, n) && n <= turn.id
    ensures Origins(before, AddTurn(mid, id, turn).conversations, n)
  {
    var after := AddTurn(mid, id, turn).conversations;
    forall i, k | 0 <= i < |after| && 0 <= k < |after[i].turns| && after[i].turns[k].id < n
      ensures HasOrigin(before, after[i].turns[k])
    {
      assert k < |mid.conversations[i].turns| && after[i].turns[k] == mid.conversations[i].turns[k];
    }
  }

  lemma OpenedKeeps(s: ChatState, text: string, appendUserTurn: bool, inflight: map<Id, Request>, n: Id)
    requires ListInv(s.conversations, None, n) && RequestsInv(s.conversations, inflight, n)
    ensures var after := Opened(s, text, appendUserTurn, n).conversations;
      ListInv(after, Some(n + 2), n + 4) && RequestsInv(after, inflight, n + 4) && Origins(s.conversations, after, n)
  {
    var s1 := if appendUserTurn then AppendTurn(s, UserTurn(n, text), n + 1) else s;
    if appendUserTurn {
      AppendKeeps(s, UserTurn(n, text), n + 1, None, None, inflight, n, n + 2);
    } else {
      OriginsSelf(s.conversations, n);
      WeakerBound(s.conversations, None, inflight, n, n + 2);
    }
    AppendKeeps(s1, Placeholder(n + 2), n + 3, None, Some(n + 2), inflight, n + 2, n + 4);
    OriginsTransitive(s.conversations, s1.conversations,
                      AppendTurn(s1, Placeholder(n + 2), n + 3).conversations, n, n + 2);
  }

  lemma WeakerBound(list: seq<Conversation>, current: Option<Id>, inflight: map<Id, Request>, n: Id, m: Id)
    requires ListInv(list, current, n) && RequestsInv(list, inflight, n) && n <= m
    ensures ListInv(list, current, m) && RequestsInv(list, inflight, m)
  {
  }

  lemma BeginSendKeeps(w: World, text: string, appendUserTurn: bool)
    requires Inv(w) && !w.store.streaming
    ensures Inv(BeginSend(w, text, appendUserTurn))
    ensures Origins(w.store.conversations, BeginSend(w, text, appendUserTurn).store.conversations, w.nextId)
  {
    var n, v := w.nextId, BeginSend(w, text, appendUserTurn);
    OpenedKeeps(w.store, text, appendUserTurn, w.inflight, n);
    WeakerBound(v.store.conversations, Some(n + 2), w.inflight, n + 4, n + 5);
    NewRequestKeeps(v.store.conversations, w.inflight, n, v.inflight[n + 4]);
    hide Opened, ListInv, RequestsInv, Origins;
    assert v.store.streaming && v.abort == Some(n + 4);
    assert CurrentTurn(v) == Some(n + 2);
  }

  lemma NewRequestKeeps(list: seq<Conversation>, inflight: map<Id, Request>, n: Id, request: Request)
    requires ListInv(list, Some(n + 2), n + 5) && RequestsInv(list, inflight, n + 5) && request.turnId == n + 2
    requires forall r | r in inflight :: r < n && inflight[r].turnId < n
    ensures RequestsInv(list, inflight[n + 4 := request], n + 5)
  {
    forall i, k | 0 <= i < |list| && 0 <= k < |list[i].turns| && list[i].turns[k].id == n + 2
      ensures list[i].turns[k].role.Assistant?
    {
      assert TurnOk(list[i].turns[k], Some(n + 2));
    }
  }

  lemma BeginRetryKeeps(w: World)
    requires Inv(w)
    ensures Inv(BeginRetry(w))
    ensures Origins(w.store.conversations, BeginRetry(w).store.conversations, w.nextId)
  {
    var text := LastUserMessage(w.store);
    if w.store.streaming || text.None? || text.value == [] {
      OriginsSelf(w.store.conversations, w.nextId);
    } else {
      var v := w.(store := SetDraft(DropFailedTail(w.store), ""));
      DropTailKeeps(w.store, CurrentTurn(w), w.inflight, w.nextId);
      BeginSendKeeps(v, text.value, false);
      OriginsTransitive(w.store.conversations, v.store.conversations,
                        BeginSend(v, text.value, false).store.conversations, w.nextId, w.nextId);
    }
  }

  lemma PatchKeeps(w: World, id: Id, patch: Patch)
    requires Inv(w) && id in w.inflight && patch.streaming.None? && patch.failed.None?
    ensures var after := PatchTurn(w.store, w.inflight[id].turnId, patch).conversations;
      && ListInv(after, CurrentTurn(w), w.nextId) && RequestsInv(after, w.inflight, w.nextId)
      && Origins(w.store.conversations, after, w.nextId)
  {
    var turnId := w.inflight[id].turnId;
    MapKeeps(w.store.conversations, (t: Turn) => if t.id == turnId then Patched(t, patch) else t,
             CurrentTurn(w), CurrentTurn(w), w.inflight, w.nextId);
  }

  lemma OnEventKeeps(w: World, id: Id, event: StreamEvent)
    requires Inv(w) && id in w.inflight
    ensures Inv(OnEvent(w, id, event))
    ensures Origins(w.store.conversations, OnEvent(w, id, event).store.conversations, w.nextId)
  {
    var v := OnEvent(w, id, event);
    assert CurrentTurn(v) == CurrentTurn(w);
    OriginsSelf(w.store.conversations, w.nextId);
    if event.Delta? {
      PatchKeeps(w, id, Patch(v.inflight[id].reply, v.inflight[id].toolCalls, None, None));
    }
    hide ListInv, Origins, SafeContent, PatchTurn;
  }

  lemma SettleStaleKeeps(w: World, id: Id)
    requires Inv(w) && id in w.inflight && w.abort != Some(id)
    ensures Inv(SettleStale(w, id))
    ensures Origins(w.store.conversations, SettleStale(w, id).store.conversations, w.nextId)
  {
    OriginsSelf(w.store.conversations, w.nextId);
    assert CurrentTurn(SettleStale(w, id)) == CurrentTurn(w);
  }

  lemma SettleFailedKeeps(w: World, id: Id, message: string)
    requires Inv(w) && id in w.inflight && w.abort == Some(id)
    ensures Inv(SettleFailed(w, id, message))
    ensures Origins(w.store.conversations, SettleFailed(w, id, message).store.conversations, w.nextId)
  {
    var request := w.inflight[id];
    var patch := Patch(request.reply, request.toolCalls, Some(false), Some(true));
    var list := w.store.conversations;
    var s1 := PatchTurn(w.store, request.turnId, patch);
    MapKeeps(list, (t: Turn) => if t.id == request.turnId then Patched(t, patch) else t,
             CurrentTurn(w), None, w.inflight, w.nextId);
    MapKeeps(s1.conversations, (t: Turn) => if t.streaming then t.(streaming := false, failed := true) else t,
             None, None, w.inflight, w.nextId);
    OriginsTransitive(list, s1.conversations, SettleFailed(w, id, message).store.conversations, w.nextId, w.nextId);
  }

  lemma SettleDoneKeeps(w: World, id: Id)
    requires Inv(w) && id in w.inflight && w.abort == Some(id)
    ensures Inv(SettleDone(w, id))
    ensures Origins(w.store.conversations, SettleDone(w, id).store.conversations, w.nextId)
  {
    var request := w.inflight[id];
    var patch := Patch(request.reply, request.toolCalls, Some(false), None);
    MapKeeps(w.store.conversations, (t: Turn) => if t.id == request.turnId then Patched(t, patch) else t,
             CurrentTurn(w), None, w.inflight, w.nextId);
  }

  lemma StopKeeps(w: World)
    requires Inv(w)
    ensures Inv(Next(w, Stop))
    ensures Origins(w.store.conversations, Next(w, Stop).store.conversations, w.nextId)
  {
    MapKeeps(w.store.conversations, (t: Turn) => if t.streaming then t.(streaming := false, stopped := true) else t,
             CurrentTurn(w), None, w.inflight, w.nextId);
  }

  lemma SettleKeeps(w: World, step: Step)
    requires Inv(w) && (step.Resolve? || step.Reject?)
    ensures Inv(Next(w, step))
    ensures Origins(w.store.conversations, Next(w, step).store.conversations, w.nextId)
  {
    hide Inv, Origins, SettleStale, SettleFailed, SettleDone;
    OriginsSelf(w.store.conversations, w.nextId);
    var id := step.request;
    if id in w.inflight {
      if w.abort != Some(id) {
        SettleStaleKeeps(w, id);
      } else if step.Reject? {
        SettleFailedKeeps(w, id, step.message);
      } else if w.inflight[id].streamError != [] {
        SettleFailedKeeps(w, id, w.inflight[id].streamError);
      } else {
        SettleDoneKeeps(w, id);
      }
    }
  }

  /** The steps that only touch the list of chats, the active chat or the page context. */
  predicate ListStep(step: Step) {
    || step.NewChat? || step.SelectChat? || step.RemoveChat? || step.TogglePin?
    || step.AskAi? || step.ClearContext? || step.IncludeContext?
  }

  lemma ListStepKeeps(w: World, step: Step)
    requires Inv(w) && ListStep(step)
    ensures Inv(Next(w, step))
    ensures Origins(w.store.conversations, Next(w, step).store.conversations, w.nextId)
  {
    var v := Next(w, step);
    OriginsSelf(w.store.conversations, w.nextId);
    if step.NewChat? {
      NewConversationKeeps(w.store, CurrentTurn(w), w.inflight, w.nextId, w.nextId, w.nextId + 1);
    } else if step.RemoveChat? {
      RemoveKeeps(w.store, step.id, CurrentTurn(w), w.inflight, w.nextId);
    } else if step.TogglePin? {
      PinKeeps(w.store, step.id, CurrentTurn(w), w.inflight, w.nextId);
    } else {
      assert v.store.conversations == w.store.conversations;
    }
    assert CurrentTurn(v) == CurrentTurn(w);
  }

  lemma StepKeeps(w: World, step: Step)
    requires Inv(w)
    ensures Inv(Next(w, step))
    ensures Origins(w.store.conversations, Next(w, step).store.conversations, w.nextId)
    ensures w.nextId <= Next(w, step).nextId
  {
    hide Inv, Origins, BeginSend, BeginRetry, OnEvent;
    OriginsSelf(w.store.conversations, w.nextId);
    NextIdGrows(w, step);
    match step
    case Send(text) =>
      if !w.store.streaming {
        BeginSendKeeps(w, Trim(text), true);
      }
    case Retry => BeginRetryKeeps(w);
    case Stop => StopKeeps(w);
    case Receive(id, event) =>
      if id in w.inflight {
        OnEventKeeps(w, id, event);
      }
    case Resolve(_) => SettleKeeps(w, step);
    case Reject(_, _) => SettleKeeps(w, step);
    case _ => ListStepKeeps(w, step);
  }

  lemma NextIdGrows(w: World, step: Step)
    ensures w.nextId <= Next(w, step).nextId
  {
  }

  /** What the rest of the proofs read off the invariant. */
  lemma InvFacts(w: World)
    requires Inv(w)
    ensures DistinctIds(w.store.conversations) && |w.store.conversations| <= MAX_ASSISTANT_CONVERSATIONS
    ensures IdsBelow(w.store.conversations, w.nextId)
    ensures w.store.streaming <==> w.abort.Some?
    ensures w.abort.Some? ==> w.abort.value in w.inflight
    ensures !w.store.streaming ==> ListInv(w.store.conversations, None, w.nextId)
  {
  }

  lemma {:induction false} RunKeeps(w: World, steps: seq<Step>)
    requires Inv(w)
    ensures Inv(Run(w, steps))
    ensures Origins(w.store.conversations, Run(w, steps).store.conversations, w.nextId)
    ensures w.nextId <= Run(w, steps).nextId
    decreases steps
  {
    OriginsSelf(w.store.conversations, w.nextId);
    if steps != [] {
      var v := Next(w, steps[0]);
      StepKeeps(w, steps[0]);
      RunKeeps(v, steps[1..]);
      OriginsTransitive(w.store.conversations, v.store.conversations, Run(w, steps).store.conversations,
                        w.nextId, v.nextId);
    }
  }
}
