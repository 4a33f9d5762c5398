/** Page loads and reloads: which of them are proper starts, and that the awkward starts can be reached. */
module ChatReload {
  import opened Options
  import opened Text
  import opened Conversations
  import opened ChatStore
  import opened ChatProtocol
  import opened ChatSafety

  /**
   * The world after a page reload: requests and transient keys are gone, the chats come back as they
   * were persisted, a turn's own streaming mark included.
   */
  function Reloaded(w: World): World {
    w.(store := w.store.(streaming := false, draft := "", webContext := None, includeContext := true),
       abort := None, inflight := map[])
  }

  ghost predicate SomeTurnStreams(list: seq<Conversation>) {
    exists i, k :: StreamingAt(list, i, k)
  }

  ghost predicate TwoTurnsStream(list: seq<Conversation>) {
    exists i, k, j, l :: StreamingAt(list, i, k) && StreamingAt(list, j, l) && (i, k) != (j, l)
  }

  /** A reload is a proper start exactly when no turn was streaming. */
  lemma ReloadIsProperExactlyWhen(w: World)
    requires Inv(w)
    ensures Inv(Reloaded(w)) <==> !SomeTurnStreams(w.store.conversations)
  {
    var list, current := w.store.conversations, CurrentTurn(w);
    if Inv(Reloaded(w)) {
      forall i, k | 0 <= i < |list| && 0 <= k < |list[i].turns|
        ensures !StreamingAt(list, i, k)
      {
        assert TurnOk(list[i].turns[k], None);
      }
    }
    if !SomeTurnStreams(list) {
      forall i, k | 0 <= i < |list| && 0 <= k < |list[i].turns|
        ensures TurnOk(list[i].turns[k], None)
      {
        assert TurnOk(list[i].turns[k], current) && !StreamingAt(list, i, k);
      }
    }
  }

  /** Reloading while nothing streams is harmless: over every later run at most one turn streams. */
  lemma AtMostOneTurnStreamsAfterReload(w: World, steps: seq<Step>, i: int, k: int, j: int, l: int)
    requires Inv(w) && !SomeTurnStreams(w.store.conversations)
    requires StreamingAt(Run(Reloaded(w), steps).store.conversations, i, k)
    requires StreamingAt(Run(Reloaded(w), steps).store.conversations, j, l)
    ensures i == j && k == l && Run(Reloaded(w), steps).store.streaming
  {
    ReloadIsProperExactlyWhen(w);
    AtMostOneTurnStreams(Reloaded(w), steps, i, k, j, l);
  }

  // ------------------------------------------------ a send after an unsafe reload

  ghost predicate Occurs(list: seq<Conversation>, id: Id) {
    exists i, k :: 0 <= i < |list| && 0 <= k < |list[i].turns| && list[i].turns[k].id == id
  }

  /** The chat at `i` outlives the opening of one more chat: there is room, it is pinned, or an older one is not. */
  predicate ChatSurvives(list: seq<Conversation>, i: nat)
    requires i < |list|
  {
    |list| < MAX_ASSISTANT_CONVERSATIONS || list[i].pinned || exists j | 0 <= j < i :: !list[j].pinned
  }

  lemma {:induction false} DropOneKeeps(list: seq<Conversation>, i: nat)
    requires DistinctIds(list) && i < |list|
    ensures list[i] in DropUnpinned(list, 1) <==> list[i].pinned || exists j | 0 <= j < i :: !list[j].pinned
  {
    if list[0].pinned {
      if i > 0 {
        DropOneKeeps(list[1..], i - 1);
        assert list[i] != list[0];
        assert (exists j | 0 <= j < i :: !list[j].pinned) <==> exists j | 0 <= j < i - 1 :: !list[1..][j].pinned by {
          if j :| 0 <= j < i && !list[j].pinned {
            assert !list[1..][j - 1].pinned;
          }
        }
      }
    } else {
      assert DropUnpinned(list, 1) == list[1..];
      if i > 0 {
        assert list[1..][i - 1] == list[i];
      }
    }
  }

  lemma SurvivesExactlyWhen(s: ChatState, newId: Id, i: nat)
    requires DistinctIds(s.conversations) && |s.conversations| <= MAX_ASSISTANT_CONVERSATIONS
    requires i < |s.conversations| && !FullOfPinned(s)
    requires forall j | 0 <= j < |s.conversations| :: s.conversations[j].id != newId
    ensures s.conversations[i] in NewConversation(s, newId).conversations <==> ChatSurvives(s.conversations, i)
  {
    var list, newest := s.conversations, Conversation(newId, [], false);
    var all := list + [newest];
    UnpinnedAppend(list, [newest]);
    if |list| < MAX_ASSISTANT_CONVERSATIONS {
      assert all[i] == list[i] && Capped(all) == all;
    } else {
      assert Capped(all) == DropUnpinned(all, 1);
      DropOneKeeps(all, i);
      assert all[i] == list[i] && forall j | 0 <= j < i :: all[j] == list[j];
    }
  }

  lemma AddTurnOccurs(s: ChatState, c: Id, turn: Turn, id: Id)
    ensures Occurs(AddTurn(s, c, turn).conversations, id)
       <==> Occurs(s.conversations, id) || (id == turn.id && Present(s, c))
  {
    var before, after := s.conversations, AddTurn(s, c, turn).conversations;
    forall i, k | 0 <= i < |before| && 0 <= k < |before[i].turns|
      ensures k < |after[i].turns| && after[i].turns[k] == before[i].turns[k]
    {
    }
    if Occurs(before, id) {
      var i, k :| 0 <= i < |before| && 0 <= k < |before[i].turns| && before[i].turns[k].id == id;
      assert after[i].turns[k].id == id;
    }
    if id == turn.id && Present(s, c) {
      var i :| 0 <= i < |before| && before[i].id == c;
      assert after[i].turns[|before[i].turns|].id == id;
    }
    if Occurs(after, id) {
      var i, k :| 0 <= i < |after| && 0 <= k < |after[i].turns| && after[i].turns[k].id == id;
      assert k == |before[i].turns| || before[i].turns[k].id == id;
    }
  }

  /** A turn stays in the list exactly as long as its chat does. */
  lemma NewConversationOccurs(s: ChatState, newId: Id, i: nat, k: nat)
    requires DistinctIds(s.conversations) && UniqueTurns(s.conversations)
    requires forall j | 0 <= j < |s.conversations| :: s.conversations[j].id != newId
    requires i < |s.conversations| && k < |s.conversations[i].turns|
    ensures Occurs(NewConversation(s, newId).conversations, s.conversations[i].turns[k].id)
       <==> s.conversations[i] in NewConversation(s, newId).conversations
  {
    var before, after := s.conversations, NewConversation(s, newId).conversations;
    assert DistinctIds(before + [Conversation(newId, [], false)]);
    hide Capped, DistinctIds;
    CappedMembers(before + [Conversation(newId, [], false)]);
    if before[i] in after {
      MemberOccurs(after, before[i], k);
    }
    if Occurs(after, before[i].turns[k].id) {
      var j, l :| 0 <= j < |after| && 0 <= l < |after[j].turns| && after[j].turns[l].id == before[i].turns[k].id;
      var p := OldMember(before, newId, after[j]);
      assert before[p].turns[l].id == before[i].turns[k].id;
    }
  }

  lemma MemberOccurs(list: seq<Conversation>, c: Conversation, k: nat)
    requires c in list && k < |c.turns|
    ensures Occurs(list, c.turns[k].id)
  {
    var j :| 0 <= j < |list| && list[j] == c;
    assert list[j].turns[k].id == c.turns[k].id;
  }

  lemma OldMember(list: seq<Conversation>, newId: Id, c: Conversation) returns (p: nat)
    requires c in list + [Conversation(newId, [], false)] && c.turns != []
    ensures p < |list| && list[p] == c
  {
    var all := list + [Conversation(newId, [], false)];
    p :| 0 <= p < |all| && all[p] == c;
  }

  /** Of two new turns with one id, appending either gives the same list but for that turn. */
  lemma AppendTwins(s: ChatState, a: Turn, b: Turn, newId: Id, n: Id)
    requires a.id == b.id && n <= a.id && n <= newId && DistinctIds(s.conversations) && IdsBelow(s.conversations, n)
    ensures var x, y := AppendTurn(s, a, newId).conversations, AppendTurn(s, b, newId).conversations;
      && |x| == |y|
      && (forall i | 0 <= i < |x| :: |x[i].turns| == |y[i].turns|)
      && forall i, k | 0 <= i < |x| && 0 <= k < |x[i].turns| ::
           && x[i].turns[k].id == y[i].turns[k].id
           && x[i].turns[k] == if x[i].turns[k].id == a.id then a else y[i].turns[k]
  {
    var present := s.active.Some? && Present(s, s.active.value);
    var mid := if present then s else NewConversation(s, newId);
    var id := if present then s.active.value else newId;
    forall i, k | 0 <= i < |mid.conversations| && 0 <= k < |mid.conversations[i].turns|
      ensures mid.conversations[i].turns[k].id < n
    {
      if !present {
        NewConversationTurnIds(s, newId, n, i, k);
      }
    }
    assert AppendTurn(s, a, newId) == AddTurn(mid, id, a) && AppendTurn(s, b, newId) == AddTurn(mid, id, b);
    AddTwins(mid, id, a, b);
  }

  lemma AddTwins(mid: ChatState, id: Id, a: Turn, b: Turn)
    requires a.id == b.id
    requires forall i, k | 0 <= i < |mid.conversations| && 0 <= k < |mid.conversations[i].turns| ::
      mid.conversations[i].turns[k].id != a.id
    ensures var x, y := AddTurn(mid, id, a).conversations, AddTurn(mid, id, b).conversations;
      && |x| == |y|
      && (forall i | 0 <= i < |x| :: |x[i].turns| == |y[i].turns|)
      && forall i, k | 0 <= i < |x| && 0 <= k < |x[i].turns| ::
           && x[i].turns[k].id == y[i].turns[k].id
           && x[i].turns[k] == if x[i].turns[k].id == a.id then a else y[i].turns[k]
  {
  }

  /** With unique turns of which exactly those with ids `a` and `b` stream, two stream when both are there. */
  lemma TwoStreamWhenBothOccur(list: seq<Conversation>, a: Id, b: Id)
    requires UniqueTurns(list) && a != b
    requires forall i, k | 0 <= i < |list| && 0 <= k < |list[i].turns| ::
      list[i].turns[k].streaming <==> list[i].turns[k].id == a || list[i].turns[k].id == b
    ensures TwoTurnsStream(list) <==> Occurs(list, a) && Occurs(list, b)
  {
    if Occurs(list, a) && Occurs(list, b) {
      var i, k :| 0 <= i < |list| && 0 <= k < |list[i].turns| && list[i].turns[k].id == a;
      var j, l :| 0 <= j < |list| && 0 <= l < |list[j].turns| && list[j].turns[l].id == b;
      assert StreamingAt(list, i, k) && StreamingAt(list, j, l);
    }
    if TwoTurnsStream(list) {
      var i, k, j, l :| StreamingAt(list, i, k) && StreamingAt(list, j, l) && (i, k) != (j, l);
      assert list[i].turns[k].id != list[j].turns[l].id;
    }
  }

  lemma OrphanAfterOpening(s: ChatState, newId: Id, n: Id, i: nat, k: nat)
    requires i < |s.conversations| && k < |s.conversations[i].turns|
    requires DistinctIds(s.conversations) && UniqueTurns(s.conversations) && IdsBelow(s.conversations, n) && n <= newId
    requires |s.conversations| <= MAX_ASSISTANT_CONVERSATIONS
    ensures Occurs(NewConversation(s, newId).conversations, s.conversations[i].turns[k].id)
       <==> FullOfPinned(s) || ChatSurvives(s.conversations, i)
  {
    hide NewConversation, UniqueTurns, ChatSurvives, Occurs, Unpinned;
    NewConversationOccurs(s, newId, i, k);
    if FullOfPinned(s) {
      OpeningIsLost(s, newId);
    } else {
      SurvivesExactlyWhen(s, newId, i);
    }
  }

  lemma OrphanFacts(s: ChatState, n: Id, i: nat, k: nat)
    requires i < |s.conversations| && k < |s.conversations[i].turns|
    requires ListInv(s.conversations, Some(s.conversations[i].turns[k].id), n)
    ensures DistinctIds(s.conversations) && UniqueTurns(s.conversations) && IdsBelow(s.conversations, n)
    ensures |s.conversations| <= MAX_ASSISTANT_CONVERSATIONS && s.conversations[i].turns[k].id < n
    ensures RequestsInv(s.conversations, map[], n) && Occurs(s.conversations, s.conversations[i].turns[k].id)
  {
  }

  /** The orphan once one turn is appended: it stays unless the chat this opened displaced its chat. */
  lemma OrphanAfterAppend(s: ChatState, turn: Turn, newId: Id, n: Id, i: nat, k: nat)
    requires i < |s.conversations| && k < |s.conversations[i].turns|
    requires ListInv(s.conversations, Some(s.conversations[i].turns[k].id), n)
    requires n <= turn.id && n <= newId
    ensures Occurs(AppendTurn(s, turn, newId).conversations, s.conversations[i].turns[k].id)
       <==> Listed(s) || FullOfPinned(s) || ChatSurvives(s.conversations, i)
  {
    hide ListInv, NewConversation, AddTurn, Occurs, FullOfPinned, ChatSurvives, DistinctIds, UniqueTurns, IdsBelow,
         Present;
    OrphanFacts(s, n, i, k);
    var orphan := s.conversations[i].turns[k].id;
    if Listed(s) {
      AddTurnOccurs(s, s.active.value, turn, orphan);
    } else {
      AddTurnOccurs(NewConversation(s, newId), newId, turn, orphan);
      OrphanAfterOpening(s, newId, n, i, k);
    }
  }

  /** The list once the user turn of a send is appended while another turn streams. */
  lemma UserTurnBesideOrphan(s: ChatState, user: Turn, n: Id, i: nat, k: nat)
    requires i < |s.conversations| && k < |s.conversations[i].turns|
    requires ListInv(s.conversations, Some(s.conversations[i].turns[k].id), n)
    requires user.id == n && user.role.User? && !user.streaming && !user.stopped && !user.failed
    ensures var after := AppendTurn(s, user, n + 1);
      && ListInv(after.conversations, Some(s.conversations[i].turns[k].id), n + 2)
      && (Listed(after) <==> Listed(s) || !FullOfPinned(s))
      && (!Listed(after) ==> FullOfPinned(after))
  {
    hide AppendTurn, FullOfPinned, Present, Occurs, ListInv, RequestsInv;
    OrphanFacts(s, n, i, k);
    var current := Some(s.conversations[i].turns[k].id);
    AppendKeeps(s, user, n + 1, current, current, map[], n, n + 2);
    AppendTurnActive(s, user, n + 1, n);
  }

  lemma TwinStreams(list: seq<Conversation>, twin: seq<Conversation>, placeholder: Turn, orphan: Id, n: Id)
    requires ListInv(twin, Some(orphan), n) && placeholder.streaming && placeholder.id != orphan
    requires |list| == |twin| && forall i | 0 <= i < |list| :: |list[i].turns| == |twin[i].turns|
    requires forall i, k | 0 <= i < |list| && 0 <= k < |list[i].turns| ::
      && list[i].turns[k].id == twin[i].turns[k].id
      && list[i].turns[k] == if list[i].turns[k].id == placeholder.id then placeholder else twin[i].turns[k]
    ensures UniqueTurns(list)
    ensures forall i, k | 0 <= i < |list| && 0 <= k < |list[i].turns| ::
      list[i].turns[k].streaming <==> list[i].turns[k].id == orphan || list[i].turns[k].id == placeholder.id
  {
    forall i, k | 0 <= i < |list| && 0 <= k < |list[i].turns|
      ensures list[i].turns[k].streaming <==> list[i].turns[k].id == orphan || list[i].turns[k].id == placeholder.id
    {
      assert TurnOk(twin[i].turns[k], Some(orphan));
    }
  }

  lemma StreamsBesideOrphan(s: ChatState, orphan: Id, n: Id)
    requires ListInv(s.conversations, Some(orphan), n + 2) && orphan < n
    ensures var list := AppendTurn(s, Placeholder(n + 2), n + 3).conversations;
      && UniqueTurns(list)
      && forall i, k | 0 <= i < |list| && 0 <= k < |list[i].turns| ::
           list[i].turns[k].streaming <==> list[i].turns[k].id == orphan || list[i].turns[k].id == n + 2
  {
    hide ListInv, RequestsInv, AppendTurn, UniqueTurns, DistinctIds, IdsBelow, Origins;
    var placeholder := Placeholder(n + 2);
    var quiet := placeholder.(streaming := false);
    var list, twin := AppendTurn(s, placeholder, n + 3).conversations, AppendTurn(s, quiet, n + 3).conversations;
    ListFacts(s.conversations, Some(orphan), n + 2);
    AppendKeeps(s, quiet, n + 3, Some(orphan), Some(orphan), map[], n + 2, n + 4);
    AppendTwins(s, placeholder, quiet, n + 3, n + 2);
    TwinStreams(list, twin, placeholder, orphan, n + 4);
  }

  lemma ListFacts(list: seq<Conversation>, current: Option<Id>, n: Id)
    requires ListInv(list, current, n)
    ensures DistinctIds(list) && IdsBelow(list, n) && RequestsInv(list, map[], n)
  {
  }

  /** The list after both turns: exactly the orphan and the placeholder stream, as far as they are there. */
  lemma PlaceholderBesideOrphan(s: ChatState, orphan: Id, n: Id)
    requires ListInv(s.conversations, Some(orphan), n + 2) && orphan < n
    ensures var list := AppendTurn(s, Placeholder(n + 2), n + 3).conversations;
      TwoTurnsStream(list) <==> Occurs(list, orphan) && Occurs(list, n + 2)
  {
    hide ListInv, AppendTurn, UniqueTurns, TwoTurnsStream, Occurs;
    StreamsBesideOrphan(s, orphan, n);
    TwoStreamWhenBothOccur(AppendTurn(s, Placeholder(n + 2), n + 3).conversations, orphan, n + 2);
  }

  lemma OrphanAndPlaceholderOccur(s: ChatState, orphan: Id, n: Id)
    requires ListInv(s.conversations, Some(orphan), n + 2) && orphan < n
    requires !Listed(s) ==> FullOfPinned(s)
    ensures var list := AppendTurn(s, Placeholder(n + 2), n + 3).conversations;
      && (Occurs(list, orphan) <==> Occurs(s.conversations, orphan))
      && (Occurs(list, n + 2) <==> Listed(s))
  {
    var placeholder := Placeholder(n + 2);
    AppendTurnActive(s, placeholder, n + 3, n + 2);
    if Listed(s) {
      AddTurnOccurs(s, s.active.value, placeholder, orphan);
      AddTurnOccurs(s, s.active.value, placeholder, n + 2);
    }
    assert !Occurs(s.conversations, n + 2);
  }

  /** The list after a send while turn `k` of chat `i` streams. */
  lemma SendBesideAStream(s: ChatState, text: string, n: Id, i: nat, k: nat)
    requires i < |s.conversations| && k < |s.conversations[i].turns|
    requires ListInv(s.conversations, Some(s.conversations[i].turns[k].id), n)
    ensures TwoTurnsStream(Opened(s, text, true, n).conversations)
       <==> Listed(s) || (!FullOfPinned(s) && ChatSurvives(s.conversations, i))
  {
    hide AppendTurn, ListInv, Present, FullOfPinned, ChatSurvives, Occurs, TwoTurnsStream, DistinctIds;
    var orphan := s.conversations[i].turns[k].id;
    OrphanFacts(s, n, i, k);
    var user := UserTurn(n, text);
    var s1 := AppendTurn(s, user, n + 1);
    UserTurnBesideOrphan(s, user, n, i, k);
    OrphanAfterAppend(s, user, n + 1, n, i, k);
    PlaceholderBesideOrphan(s1, orphan, n);
    OrphanAndPlaceholderOccur(s1, orphan, n);
    assert Opened(s, text, true, n).conversations == AppendTurn(s1, Placeholder(n + 2), n + 3).conversations;
  }

  /**
   * After a reload in the middle of a stream the next send makes a second turn stream, exactly when the
   * stale chat and the new turns both find a place: the active chat is listed, or opening a chat neither
   * fails on twenty pinned chats nor displaces the chat that was streaming.
   */
  lemma SendAfterUnsafeReload(w: World, text: string, i: nat, k: nat)
    requires Inv(w) && StreamingAt(w.store.conversations, i, k) && Trim(text) != []
    ensures TwoTurnsStream(Next(Reloaded(w), Send(text)).store.conversations)
       <==> Listed(w.store) || (!FullOfPinned(w.store) && ChatSurvives(w.store.conversations, i))
  {
    hide Opened, ListInv, Trim, Present, FullOfPinned, ChatSurvives, TwoTurnsStream;
    var s := Reloaded(w).store;
    OrphanIsCurrent(w, i, k);
    SameListIsListed(w.store, s);
    SendBesideAStream(s, Trim(text), w.nextId, i, k);
  }

  /**
   * Retry after a reload in the middle of a stream makes a second turn stream exactly when it sends at all:
   * when the active chat has a user turn with something in it.
   */
  lemma RetryAfterUnsafeReload(w: World, i: nat, k: nat)
    requires Inv(w) && StreamingAt(w.store.conversations, i, k)
    ensures TwoTurnsStream(Next(Reloaded(w), Retry).store.conversations) <==> LastUserMessage(w.store).Some?
  {
    hide ListInv, DropFailedTail, LastUserMessage, TwoTurnsStream, Opened;
    var v := Reloaded(w);
    OrphanIsCurrent(w, i, k);
    SameLastMessage(w.store, v.store);
    var orphan := w.store.conversations[i].turns[k].id;
    if LastUserMessage(w.store).Some? {
      LastMessageIsNotEmpty(w.store);
      RetryBesideOrphan(v.store, LastUserMessage(w.store).value, w.nextId, i, k);
    } else {
      OneStreams(w.store.conversations, orphan, w.nextId);
    }
  }

  lemma SameLastMessage(s: ChatState, t: ChatState)
    requires t.active == s.active && t.conversations == s.conversations
    ensures LastUserMessage(t) == LastUserMessage(s)
  {
  }

  lemma {:induction false} LastTextIsNotEmpty(turns: seq<Turn>)
    requires LastUserText(turns).Some?
    ensures LastUserText(turns).value != []
  {
    var last := turns[|turns| - 1];
    if !(last.role.User? && Trim(last.content) != []) {
      LastTextIsNotEmpty(turns[..|turns| - 1]);
    } else {
      assert Trim("") == "";
    }
  }

  lemma LastMessageIsNotEmpty(s: ChatState)
    requires LastUserMessage(s).Some?
    ensures LastUserMessage(s).value != [] && Listed(s)
  {
    LastTextIsNotEmpty(ActiveConversation(s).value.turns);
  }

  lemma OneStreams(list: seq<Conversation>, orphan: Id, n: Id)
    requires ListInv(list, Some(orphan), n)
    ensures !TwoTurnsStream(list)
  {
    forall i, k, j, l | StreamingAt(list, i, k) && StreamingAt(list, j, l)
      ensures (i, k) == (j, l)
    {
      assert TurnOk(list[i].turns[k], Some(orphan)) && TurnOk(list[j].turns[l], Some(orphan));
    }
  }

  /** Dropping the failed tail of the active chat does not drop a turn that streams. */
  lemma DroppingKeepsOrphan(s: ChatState, n: Id, i: nat, k: nat)
    requires i < |s.conversations| && k < |s.conversations[i].turns|
    requires ListInv(s.conversations, Some(s.conversations[i].turns[k].id), n)
    ensures Occurs(DropFailedTail(s).conversations, s.conversations[i].turns[k].id)
  {
    var after, turns := DropFailedTail(s).conversations, s.conversations[i].turns;
    assert TurnOk(turns[k], Some(turns[k].id));
    StreamingTurnStays(turns, k);
    assert after[i].turns == turns || after[i].turns == WithoutFailedTail(turns);
    assert after[i].turns[k].id == turns[k].id;
  }

  lemma {:induction false} StreamingTurnStays(turns: seq<Turn>, k: nat)
    requires k < |turns| && !turns[k].failed
    ensures k < |WithoutFailedTail(turns)| && WithoutFailedTail(turns)[k] == turns[k]
  {
    var n := |turns| - 1;
    if turns[n].role.Assistant? && turns[n].failed {
      StreamingTurnStays(turns[..n], k);
    }
  }

  lemma RetryBesideOrphan(s: ChatState, text: string, n: Id, i: nat, k: nat)
    requires i < |s.conversations| && k < |s.conversations[i].turns|
    requires ListInv(s.conversations, Some(s.conversations[i].turns[k].id), n) && Listed(s)
    ensures TwoTurnsStream(Opened(SetDraft(DropFailedTail(s), ""), text, false, n).conversations)
  {
    var orphan, t := s.conversations[i].turns[k].id, SetDraft(DropFailedTail(s), "");
    hide ListInv, AppendTurn, TwoTurnsStream, Occurs, DropFailedTail;
    OrphanFacts(s, n, i, k);
    DropTailKeeps(s, Some(orphan), map[], n);
    WeakerBound(t.conversations, Some(orphan), map[], n, n + 2);
    DroppingKeepsOrphan(s, n, i, k);
    DroppingStaysListed(s);
    PlaceholderBesideOrphan(t, orphan, n);
    OrphanAndPlaceholderOccur(t, orphan, n);
  }

  lemma DroppingStaysListed(s: ChatState)
    requires Listed(s)
    ensures Listed(SetDraft(DropFailedTail(s), ""))
  {
    MapPresence(s, SetDraft(DropFailedTail(s), ""), s.active.value);
  }

  /** Selecting the chat of the turn that streamed and sending there makes a second one stream. */
  lemma UnsafeReloadGoesWrong(w: World, text: string, i: nat, k: nat)
    requires Inv(w) && StreamingAt(w.store.conversations, i, k) && Trim(text) != []
    ensures TwoTurnsStream(
      Run(Reloaded(w), [SelectChat(w.store.conversations[i].id), Send(text)]).store.conversations)
  {
    hide Inv, TwoTurnsStream, BeginSend, Run, Trim;
    var select := SelectChat(w.store.conversations[i].id);
    var v := Next(w, select);
    StepKeeps(w, select);
    assert w.store.conversations[i].id == w.store.conversations[i].id;
    SendAfterUnsafeReload(v, text, i, k);
    assert Next(Reloaded(w), select) == Reloaded(v);
    RunTwo(Reloaded(w), select, Send(text));
  }

  /** A reload is safe, over every later run whatever it does, exactly when no turn was streaming. */
  lemma ReloadIsSafeExactlyWhen(w: World)
    requires Inv(w)
    ensures !SomeTurnStreams(w.store.conversations) <==>
      forall steps :: !TwoTurnsStream(Run(Reloaded(w), steps).store.conversations)
  {
    hide Inv, Run;
    if SomeTurnStreams(w.store.conversations) {
      var i, k :| StreamingAt(w.store.conversations, i, k);
      assert Trim("?") == "?";
      UnsafeReloadGoesWrong(w, "?", i, k);
    } else {
      forall steps
        ensures !TwoTurnsStream(Run(Reloaded(w), steps).store.conversations)
      {
        var list := Run(Reloaded(w), steps).store.conversations;
        forall i, k, j, l | StreamingAt(list, i, k) && StreamingAt(list, j, l)
          ensures (i, k) == (j, l)
        {
          AtMostOneTurnStreamsAfterReload(w, steps, i, k, j, l);
        }
      }
    }
  }

  /**
   * The handler itself does not look at the streaming flag: called while a turn streams, it makes a second one
   * stream under the same condition. The guards of its two callers are what prevents this.
   */
  lemma UnguardedSendMakesTwoStream(w: World, text: string, i: nat, k: nat)
    requires Inv(w) && StreamingAt(w.store.conversations, i, k)
    ensures TwoTurnsStream(BeginSend(w, text, true).store.conversations)
       <==> Listed(w.store) || (!FullOfPinned(w.store) && ChatSurvives(w.store.conversations, i))
    ensures Next(w, Send(text)) == w && Next(w, Retry) == w
  {
    hide Opened, ListInv, FullOfPinned, ChatSurvives, TwoTurnsStream;
    OrphanIsCurrent(w, i, k);
    SendBesideAStream(w.store, text, w.nextId, i, k);
    StreamRaisesTheFlag(w, i, k);
  }

  lemma StreamRaisesTheFlag(w: World, i: nat, k: nat)
    requires Inv(w) && StreamingAt(w.store.conversations, i, k)
    ensures w.store.streaming
  {
    assert TurnOk(w.store.conversations[i].turns[k], CurrentTurn(w));
  }

  lemma OrphanIsCurrent(w: World, i: nat, k: nat)
    requires Inv(w) && StreamingAt(w.store.conversations, i, k)
    ensures ListInv(w.store.conversations, Some(w.store.conversations[i].turns[k].id), w.nextId)
  {
    assert TurnOk(w.store.conversations[i].turns[k], CurrentTurn(w));
  }

  lemma SameListIsListed(s: ChatState, t: ChatState)
    requires t.active == s.active && t.conversations == s.conversations
    ensures (Listed(s) <==> Listed(t)) && (FullOfPinned(s) <==> FullOfPinned(t))
  {
  }

  // ------------------------------------------------- the awkward states are reachable

  /** Opening `n` chats and pinning each. */
  function PinChats(n: nat): seq<Step> {
    if n == 0 then [] else PinChats(n - 1) + [NewChat, TogglePin(n - 1)]
  }

  function PinnedChats(n: nat): (r: seq<Conversation>)
    ensures |r| == n && forall i | 0 <= i < n :: r[i] == Conversation(i, [], true)
  {
    if n == 0 then [] else PinnedChats(n - 1) + [Conversation(n - 1, [], true)]
  }

  function PinnedWorld(n: nat): World {
    PageOpened(ChatState(PinnedChats(n), if n == 0 then None else Some(n - 1), false, "", "", None, true), n)
  }

  lemma PinOneMore(n: nat)
    requires n < MAX_ASSISTANT_CONVERSATIONS
    ensures Next(Next(PinnedWorld(n), NewChat), TogglePin(n)) == PinnedWorld(n + 1)
  {
    hide TogglePinned, IndexOf;
    var grown := Next(PinnedWorld(n), NewChat).store;
    assert grown.conversations == PinnedChats(n) + [Conversation(n, [], false)];
    PinNewest(grown, PinnedChats(n), n);
  }

  lemma PinNewest(s: ChatState, list: seq<Conversation>, id: Id)
    requires s.conversations == list + [Conversation(id, [], false)]
    requires forall i | 0 <= i < |list| :: list[i].id != id
    ensures TogglePinned(s, id) == s.(conversations := list + [Conversation(id, [], true)])
  {
    var at := IndexOf(s.conversations, id);
    assert s.conversations[|list|].id == id;
    assert at == Some(|list|);
    assert TogglePinned(s, id).conversations == list + [Conversation(id, [], true)];
  }

  lemma {:induction false} PinningReaches(n: nat)
    requires n <= MAX_ASSISTANT_CONVERSATIONS
    ensures Run(START, PinChats(n)) == PinnedWorld(n)
  {
    if n > 0 {
      PinningReaches(n - 1);
      PinOneMore(n - 1);
      RunAppend(START, PinChats(n - 1), [NewChat, TogglePin(n - 1)]);
      RunTwo(PinnedWorld(n - 1), NewChat, TogglePin(n - 1));
    }
  }

  lemma RunTwo(w: World, a: Step, b: Step)
    ensures Run(w, [a, b]) == Next(Next(w, a), b)
  {
    assert [a, b][1..] == [b] && [b][1..] == [];
    assert Run(Next(w, a), [b]) == Next(Next(w, a), b);
  }

  lemma PinnedWorldIsFull(n: nat)
    requires n == MAX_ASSISTANT_CONVERSATIONS
    ensures FullOfPinned(PinnedWorld(n).store) && ActiveOk(PinnedWorld(n).store)
  {
    hide PinnedChats;
    AllPinned(PinnedChats(n));
    assert PinnedWorld(n).store.conversations[n - 1].id == n - 1;
  }

  /** From an empty store twenty clicks on New Chat and twenty on Pin fill the list with pinned chats. */
  lemma FullOfPinnedIsReachable()
    ensures var w := Run(START, PinChats(MAX_ASSISTANT_CONVERSATIONS));
      Inv(w) && FullOfPinned(w.store) && ActiveOk(w.store) && !ActiveOk(Next(w, NewChat).store)
  {
    hide PinChats, PinnedWorld, FullOfPinned, ActiveOk, Inv, Run, Next, OpensChat;
    var n := MAX_ASSISTANT_CONVERSATIONS;
    PinningReaches(n);
    RunKeepsFromStart(PinChats(n));
    PinnedWorldIsFull(n);
    ActiveChatIsLostExactlyWhen(PinnedWorld(n), NewChat);
    assert OpensChat(PinnedWorld(n), NewChat) by { NewChatOpens(PinnedWorld(n)); }
  }

  lemma NewChatOpens(w: World)
    ensures OpensChat(w, NewChat)
  {
  }

  lemma {:induction false} AllPinned(list: seq<Conversation>)
    requires forall i | 0 <= i < |list| :: list[i].pinned
    ensures Unpinned(list) == []
  {
    if list != [] {
      AllPinned(list[1..]);
    }
  }

  lemma RunKeepsFromStart(steps: seq<Step>)
    ensures Inv(Run(START, steps))
  {
    PageOpenedIsProper(START.store, 0);
    RunKeeps(START, steps);
  }

  /** Capturing a page and sending reaches a current request with a page, streaming into a listed chat. */
  lemma StreamWithPageIsReachable(bundle: Bundle, text: string)
    requires Trim(text) != []
    ensures var w := Run(START, [AskAi(bundle), Send(text)]);
      && Inv(w) && Listed(w.store) && w.abort.Some? && w.inflight[w.abort.value].webContext == Some(bundle)
      && SomeTurnStreams(w.store.conversations) && !Inv(Reloaded(w))
  {
    hide Inv, Run, BeginSend, Opened, OpenedBase, ActiveTurns, Present, FullOfPinned, SomeTurnStreams;
    var w, v := Run(START, [AskAi(bundle), Send(text)]), Next(START, AskAi(bundle));
    RunTwo(START, AskAi(bundle), Send(text));
    RunKeepsFromStart([AskAi(bundle), Send(text)]);
    assert v.store.conversations == [] && !v.store.streaming;
    SendOnEmptyList(v, Trim(text));
    ReloadIsProperExactlyWhen(w);
  }

  lemma SendOnEmptyList(v: World, text: string)
    requires v.store.conversations == [] && v.store.includeContext
    ensures var w := BeginSend(v, text, true);
      && Listed(w.store) && SomeTurnStreams(w.store.conversations)
      && w.abort == Some(v.nextId + 4) && w.inflight[v.nextId + 4].webContext == v.store.webContext
  {
    hide Opened, OpenedBase, ActiveTurns, Present, FullOfPinned, SomeTurnStreams;
    EmptyListHasRoom(v.store, v.nextId);
    OpenedActive(v.store, text, true, v.nextId);
    LastActiveTurnStreams(BeginSend(v, text, true).store, OpenedBase(v.store, text, true, v.nextId), v.nextId + 2);
  }

  lemma EmptyListHasRoom(s: ChatState, n: Id)
    requires s.conversations == []
    ensures ListInv(s.conversations, None, n) && !FullOfPinned(s)
  {
  }

  lemma LastActiveTurnStreams(s: ChatState, base: seq<Turn>, id: Id)
    requires Listed(s) && ActiveTurns(s) == base + [Placeholder(id)]
    ensures SomeTurnStreams(s.conversations)
  {
    var i := IndexOf(s.conversations, s.active.value).value;
    assert s.conversations[i].turns[|base|] == Placeholder(id);
    assert StreamingAt(s.conversations, i, |base|);
  }
}
