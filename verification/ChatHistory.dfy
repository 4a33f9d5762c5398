/** The user turns of a transcript are exactly what the user sent to it. */
module ChatHistory {
  import opened Options
  import opened Sequences
  import opened Text
  import opened Conversations
  import opened ChatStore
  import opened ChatProtocol
  import opened ChatSafety

  function UserTexts(turns: seq<Turn>): seq<string> {
    if turns == [] then []
    else if turns[0].role.User? then [turns[0].content] + UserTexts(turns[1..])
    else UserTexts(turns[1..])
  }

  /** The user texts in chat `c`; none if there is no such chat. */
  function Heard(list: seq<Conversation>, c: Id): seq<string> {
    var i := IndexOf(list, c);
    if i.Some? then UserTexts(list[i.value].turns) else []
  }

  lemma HeardAt(list: seq<Conversation>, i: nat)
    requires DistinctIds(list) && i < |list|
    ensures Heard(list, list[i].id) == UserTexts(list[i].turns)
  {
    var j := IndexOf(list, list[i].id);
    assert j.Some? && j.value == i;
  }

  lemma HeardNowhere(list: seq<Conversation>, c: Id)
    requires forall i | 0 <= i < |list| :: list[i].id != c
    ensures Heard(list, c) == []
  {
  }

  lemma {:induction false} UserTextsAppend(a: seq<Turn>, b: seq<Turn>)
    ensures UserTexts(a + b) == UserTexts(a) + UserTexts(b)
  {
    if a == [] {
      assert a + b == b;
    } else {
      UserTextsAppend(a[1..], b);
      Uncons(a, b);
      if a[0].role.User? {
        Assoc([a[0].content], UserTexts(a[1..]), UserTexts(b));
      }
    }
  }

  lemma {:induction false} UserTextsPointwise(a: seq<Turn>, b: seq<Turn>)
    requires |a| == |b|
    requires forall k | 0 <= k < |a| :: Evolved(a[k], b[k])
    ensures UserTexts(a) == UserTexts(b)
  {
    if a != [] {
      UserTextsPointwise(a[1..], b[1..]);
    }
  }

  lemma {:induction false} UserTextsOfTail(turns: seq<Turn>)
    ensures UserTexts(WithoutFailedTail(turns)) == UserTexts(turns)
  {
    if turns != [] && turns[|turns| - 1].role.Assistant? && turns[|turns| - 1].failed {
      var init, last := turns[..|turns| - 1], turns[|turns| - 1];
      UserTextsOfTail(init);
      UserTextsAppend(init, [last]);
      assert turns == init + [last];
      assert UserTexts([last]) == UserTexts([last][1..]);
    }
  }

  /** Every chat of `after` holds the user texts it had, and chat `target` holds `texts` besides. */
  ghost predicate Grew(before: seq<Conversation>, after: seq<Conversation>, target: Id, texts: seq<string>) {
    forall i | 0 <= i < |after| ::
      UserTexts(after[i].turns) == Heard(before, after[i].id) + if after[i].id == target then texts else []
  }

  /** Every chat of `after` was in `before` or is new. */
  ghost predicate OldOrNew(before: seq<Conversation>, after: seq<Conversation>, n: Id) {
    forall i | 0 <= i < |after| :: after[i].id < n ==> exists j | 0 <= j < |before| :: before[j].id == after[i].id
  }

  lemma GrewSame(list: seq<Conversation>, target: Id, n: Id)
    requires DistinctIds(list)
    ensures Grew(list, list, target, []) && OldOrNew(list, list, n)
  {
    forall i | 0 <= i < |list|
      ensures UserTexts(list[i].turns) == Heard(list, list[i].id)
    {
      HeardAt(list, i);
    }
  }

  lemma GrewPointwise(before: seq<Conversation>, after: seq<Conversation>, target: Id, n: Id)
    requires DistinctIds(before) && |before| == |after|
    requires forall i | 0 <= i < |after| ::
      after[i].id == before[i].id && UserTexts(after[i].turns) == UserTexts(before[i].turns)
    ensures Grew(before, after, target, []) && OldOrNew(before, after, n)
  {
    forall i | 0 <= i < |after|
      ensures UserTexts(after[i].turns) == Heard(before, after[i].id)
    {
      HeardAt(before, i);
    }
  }

  /** `after` picks chats of `before` unchanged, and may add an empty chat `newId`. */
  lemma GrewBySelection(before: seq<Conversation>, after: seq<Conversation>, newId: Id, target: Id, n: Id)
    requires DistinctIds(before) && IdsBelow(before, n) && n <= newId
    requires forall i | 0 <= i < |after| :: after[i] in before || after[i] == Conversation(newId, [], false)
    ensures Grew(before, after, target, []) && OldOrNew(before, after, n)
  {
    forall i | 0 <= i < |after|
      ensures UserTexts(after[i].turns) == Heard(before, after[i].id)
      ensures after[i].id < n ==> exists j | 0 <= j < |before| :: before[j].id == after[i].id
    {
      if after[i] in before {
        var j :| 0 <= j < |before| && before[j] == after[i];
        HeardAt(before, j);
      } else {
        HeardNowhere(before, newId);
      }
    }
  }

  lemma GrewByAddTurn(before: seq<Conversation>, mid: ChatState, id: Id, turn: Turn, n: Id)
    requires Grew(before, mid.conversations, id, []) && OldOrNew(before, mid.conversations, n)
    ensures var after := AddTurn(mid, id, turn).conversations;
      Grew(before, after, id, if turn.role.User? then [turn.content] else []) && OldOrNew(before, after, n)
  {
    var after := AddTurn(mid, id, turn).conversations;
    assert [turn][1..] == [];
    forall i | 0 <= i < |after|
      ensures UserTexts(after[i].turns)
           == Heard(before, after[i].id) + if after[i].id == id then UserTexts([turn]) else []
    {
      assert mid.conversations[i].id == after[i].id;
      UserTextsAppend(mid.conversations[i].turns, [turn]);
    }
  }

  function Target(s: ChatState, newId: Id): Id {
    if s.active.Some? && Present(s, s.active.value) then s.active.value else newId
  }

  lemma GrewByAppend(s: ChatState, turn: Turn, newId: Id, n: Id)
    requires DistinctIds(s.conversations) && IdsBelow(s.conversations, n) && n <= newId
    ensures var after := AppendTurn(s, turn, newId).conversations;
      && Grew(s.conversations, after, Target(s, newId), if turn.role.User? then [turn.content] else [])
      && OldOrNew(s.conversations, after, n)
  {
    var target := Target(s, newId);
    if s.active.Some? && Present(s, s.active.value) {
      GrewSame(s.conversations, target, n);
      GrewByAddTurn(s.conversations, s, target, turn, n);
    } else {
      var mid := NewConversation(s, newId);
      NewConversationSelects(s, newId);
      GrewBySelection(s.conversations, mid.conversations, newId, target, n);
      GrewByAddTurn(s.conversations, mid, target, turn, n);
    }
  }

  lemma NewConversationSelects(s: ChatState, newId: Id)
    requires DistinctIds(s.conversations)
    requires forall i | 0 <= i < |s.conversations| :: s.conversations[i].id != newId
    ensures var after := NewConversation(s, newId).conversations;
      forall i | 0 <= i < |after| :: after[i] in s.conversations || after[i] == Conversation(newId, [], false)
  {
    CappedMembers(s.conversations + [Conversation(newId, [], false)]);
  }

  lemma GrewTransitive(a: seq<Conversation>, b: seq<Conversation>, c: seq<Conversation>,
                       target: Id, texts: seq<string>, other: Id, n: Id, m: Id)
    requires DistinctIds(b) && IdsBelow(a, n) && n <= m
    requires Grew(a, b, target, texts) && OldOrNew(a, b, n)
    requires Grew(b, c, other, []) && OldOrNew(b, c, m)
    requires target < m
    ensures Grew(a, c, target, texts) && OldOrNew(a, c, n)
  {
    forall i | 0 <= i < |c|
      ensures UserTexts(c[i].turns) == Heard(a, c[i].id) + if c[i].id == target then texts else []
      ensures c[i].id < n ==> exists j | 0 <= j < |a| :: a[j].id == c[i].id
    {
      if c[i].id < m {
        var j :| 0 <= j < |b| && b[j].id == c[i].id;
        HeardAt(b, j);
      } else {
        if exists j | 0 <= j < |b| :: b[j].id == c[i].id {
          var j :| 0 <= j < |b| && b[j].id == c[i].id;
          HeardAt(b, j);
        } else {
          HeardNowhere(b, c[i].id);
        }
        HeardNowhere(a, c[i].id);
      }
    }
  }

  lemma ListFacts(s: ChatState, n: Id)
    requires ListInv(s.conversations, None, n)
    ensures DistinctIds(s.conversations) && IdsBelow(s.conversations, n) && Target(s, n + 1) < n + 2
  {
  }

  lemma OpenedGrew(s: ChatState, text: string, appendUserTurn: bool, n: Id)
    requires ListInv(s.conversations, None, n)
    requires appendUserTurn || Listed(s)
    ensures var after := Opened(s, text, appendUserTurn, n).conversations;
      && Grew(s.conversations, after, Target(s, n + 1), if appendUserTurn then [text] else [])
      && OldOrNew(s.conversations, after, n)
  {
    hide Grew, OldOrNew, AppendTurn, ListInv, Listed, DistinctIds, IdsBelow, Target;
    var s1 := WithUserTurn(s, text, appendUserTurn, n);
    UserTurnLands(s, text, appendUserTurn, n);
    ListFacts(s, n);
    ListFacts(s1, n + 2);
    if appendUserTurn {
      GrewByAppend(s, UserTurn(n, text), n + 1, n);
    } else {
      GrewSame(s.conversations, Target(s, n + 1), n);
    }
    GrewByAppend(s1, Placeholder(n + 2), n + 3, n + 2);
    GrewTransitive(s.conversations, s1.conversations, Opened(s, text, appendUserTurn, n).conversations,
                   Target(s, n + 1), if appendUserTurn then [text] else [], Target(s1, n + 3), n, n + 2);
  }

  // ------------------------------------------------------------- over a run

  /** The chat a Send of this moment goes to. */
  function SendTarget(w: World): Id {
    Target(w.store, w.nextId + 1)
  }

  function SentNow(w: World, step: Step): seq<string> {
    if step.Send? && !w.store.streaming && Trim(step.text) != [] then [Trim(step.text)] else []
  }

  /** The texts a run sends to chat `c`, in order. */
  function SentTo(w: World, steps: seq<Step>, c: Id): seq<string>
    decreases steps
  {
    if steps == [] then []
    else (if SendTarget(w) == c then SentNow(w, steps[0]) else []) + SentTo(Next(w, steps[0]), steps[1..], c)
  }

  lemma DropTailGrew(s: ChatState, target: Id, n: Id)
    requires DistinctIds(s.conversations)
    ensures var after := DropFailedTail(s).conversations;
      Grew(s.conversations, after, target, []) && OldOrNew(s.conversations, after, n)
  {
    var after := DropFailedTail(s).conversations;
    forall i | 0 <= i < |after|
      ensures UserTexts(after[i].turns) == UserTexts(s.conversations[i].turns)
    {
      UserTextsOfTail(s.conversations[i].turns);
    }
    GrewPointwise(s.conversations, after, target, n);
  }

  lemma RetryGrew(w: World)
    requires Inv(w)
    ensures var after := BeginRetry(w).store.conversations;
      Grew(w.store.conversations, after, SendTarget(w), []) && OldOrNew(w.store.conversations, after, w.nextId)
  {
    hide Opened, Grew, OldOrNew;
    var text := LastUserMessage(w.store);
    GrewSame(w.store.conversations, SendTarget(w), w.nextId);
    if !w.store.streaming && text.Some? && text.value != [] {
      var s := SetDraft(DropFailedTail(w.store), "");
      RetryReopensListed(w);
      DropTailGrew(w.store, SendTarget(w), w.nextId);
      OpenedGrew(s, text.value, false, w.nextId);
      GrewTransitive(w.store.conversations, s.conversations, BeginRetry(w).store.conversations,
                     SendTarget(w), [], Target(s, w.nextId + 1), w.nextId, w.nextId);
    }
  }

  lemma RetryReopensListed(w: World)
    requires Inv(w) && !w.store.streaming && LastUserMessage(w.store).Some?
    ensures var s := SetDraft(DropFailedTail(w.store), "");
      && ListInv(s.conversations, None, w.nextId) && Listed(s)
      && w.store.active.Some? && SendTarget(w) == w.store.active.value < w.nextId
  {
    var s := SetDraft(DropFailedTail(w.store), "");
    DropTailKeeps(w.store, CurrentTurn(w), w.inflight, w.nextId);
    MapPresence(w.store, s, w.store.active.value);
  }

  lemma FlagsGrew(w: World, step: Step)
    requires Inv(w) && (step.Stop? || step.Resolve? || step.Reject? || step.Receive?)
    ensures var after := Next(w, step).store.conversations;
      Grew(w.store.conversations, after, SendTarget(w), []) && OldOrNew(w.store.conversations, after, w.nextId)
  {
    var before, after := w.store.conversations, Next(w, step).store.conversations;
    StepKeeps(w, step);
    SameShape(w, step);
    forall i | 0 <= i < |after|
      ensures UserTexts(after[i].turns) == UserTexts(before[i].turns)
    {
      forall k | 0 <= k < |after[i].turns|
        ensures Evolved(before[i].turns[k], after[i].turns[k])
      {
        assert HasOrigin(before, after[i].turns[k]);
        var j, l :| 0 <= j < |before| && 0 <= l < |before[j].turns| && Evolved(before[j].turns[l], after[i].turns[k]);
        assert before[j].turns[l].id == before[i].turns[k].id;
      }
      UserTextsPointwise(before[i].turns, after[i].turns);
    }
    GrewPointwise(before, after, SendTarget(w), w.nextId);
  }

  ghost predicate SameIds(before: seq<Conversation>, after: seq<Conversation>) {
    && |after| == |before|
    && forall i | 0 <= i < |after| ::
         after[i].id == before[i].id && |after[i].turns| == |before[i].turns|
         && forall k | 0 <= k < |after[i].turns| :: after[i].turns[k].id == before[i].turns[k].id
  }

  lemma MapSameIds(list: seq<Conversation>, change: Turn -> Turn)
    requires forall t: Turn :: change(t).id == t.id
    ensures SameIds(list, MapTurns(list, change))
  {
  }

  lemma SettleSameShape(w: World, id: Id, message: string)
    requires id in w.inflight
    ensures SameIds(w.store.conversations, SettleFailed(w, id, message).store.conversations)
    ensures SameIds(w.store.conversations, SettleDone(w, id).store.conversations)
  {
    var turnId, r := w.inflight[id].turnId, w.inflight[id];
    var failed := Patch(r.reply, r.toolCalls, Some(false), Some(true));
    var done := Patch(r.reply, r.toolCalls, Some(false), None);
    MapSameIds(w.store.conversations, (t: Turn) => if t.id == turnId then Patched(t, done) else t);
    var s1 := PatchTurn(w.store, turnId, failed);
    MapSameIds(w.store.conversations, (t: Turn) => if t.id == turnId then Patched(t, failed) else t);
    MapSameIds(s1.conversations, (t: Turn) => if t.streaming then t.(streaming := false, failed := true) else t);
  }

  lemma SameShape(w: World, step: Step)
    requires step.Stop? || step.Resolve? || step.Reject? || step.Receive?
    ensures SameIds(w.store.conversations, Next(w, step).store.conversations)
  {
    if step.Stop? {
      MapSameIds(w.store.conversations, (t: Turn) => if t.streaming then t.(streaming := false, stopped := true) else t);
    } else if step.request in w.inflight {
      var r := w.inflight[step.request];
      if step.Receive? {
        var u := OnEvent(w, step.request, step.event).inflight[step.request];
        MapSameIds(w.store.conversations,
                   (t: Turn) => if t.id == r.turnId then Patched(t, Patch(u.reply, u.toolCalls, None, None)) else t);
      } else {
        hide SettleFailed, SettleDone;
        SettleSameShape(w, step.request, if step.Reject? then step.message else r.streamError);
      }
    }
  }

  lemma ListStepGrew(w: World, step: Step)
    requires Inv(w) && (step.NewChat? || step.RemoveChat? || step.TogglePin?)
    ensures var after := Next(w, step).store.conversations;
      Grew(w.store.conversations, after, SendTarget(w), []) && OldOrNew(w.store.conversations, after, w.nextId)
  {
    var list, n := w.store.conversations, w.nextId;
    var after := Next(w, step).store.conversations;
    match step
    case NewChat =>
      NewConversationSelects(w.store, n);
      GrewBySelection(list, after, n, SendTarget(w), n);
    case RemoveChat(id) =>
      WithoutSublist(list, {id});
      SublistDistinct(list, after);
      GrewBySelection(list, after, n, SendTarget(w), n);
    case TogglePin(id) =>
      GrewPointwise(list, after, SendTarget(w), n);
  }

  lemma StepGrew(w: World, step: Step)
    requires Inv(w)
    ensures var after := Next(w, step).store.conversations;
      Grew(w.store.conversations, after, SendTarget(w), SentNow(w, step)) && OldOrNew(w.store.conversations, after, w.nextId)
  {
    hide Grew, OldOrNew, Opened, BeginRetry, OnEvent, OnResolve, OnReject, StopStreaming;
    var list, n := w.store.conversations, w.nextId;
    GrewSame(list, SendTarget(w), n);
    match step
    case Send(text) =>
      if !w.store.streaming && Trim(text) != [] {
        OpenedGrew(w.store, Trim(text), true, n);
      }
    case Retry => RetryGrew(w);
    case Stop => FlagsGrew(w, step);
    case Receive(_, _) => FlagsGrew(w, step);
    case Resolve(_) => FlagsGrew(w, step);
    case Reject(_, _) => FlagsGrew(w, step);
    case NewChat => ListStepGrew(w, step);
    case RemoveChat(_) => ListStepGrew(w, step);
    case TogglePin(_) => ListStepGrew(w, step);
    case SelectChat(_) =>
    case AskAi(_) =>
    case ClearContext =>
    case IncludeContext(_) =>
  }

  /**
   * Over every run, the user turns of a listed chat are the ones it started with followed by what
   * the user sent to it, in order: failing, stopping and retrying neither lose nor repeat one.
   */
  lemma {:induction false} UserTurnsAreSends(w: World, steps: seq<Step>, c: Id)
    requires Inv(w) && Present(Run(w, steps).store, c)
    ensures Heard(Run(w, steps).store.conversations, c) == Heard(w.store.conversations, c) + SentTo(w, steps, c)
    ensures c < w.nextId ==> Present(w.store, c)
    decreases steps
  {
    hide Next, Inv, SentNow, SendTarget, Heard, Present;
    var start := Heard(w.store.conversations, c);
    if steps == [] {
      assert start + [] == start;
    } else {
      var v := Next(w, steps[0]);
      var now := if SendTarget(w) == c then SentNow(w, steps[0]) else [];
      StepKeeps(w, steps[0]);
      UserTurnsAreSends(v, steps[1..], c);
      HeardStep(w, steps[0], c);
      Assoc(start, now, SentTo(v, steps[1..], c));
    }
  }

  lemma HeardStep(w: World, step: Step, c: Id)
    requires Inv(w) && (c < Next(w, step).nextId ==> Present(Next(w, step).store, c))
    ensures Heard(Next(w, step).store.conversations, c)
         == Heard(w.store.conversations, c) + if SendTarget(w) == c then SentNow(w, step) else []
    ensures c < w.nextId ==> Present(w.store, c)
  {
    hide Next;
    var v := Next(w, step);
    StepKeeps(w, step);
    StepGrew(w, step);
    SendTargetIsOld(w, step);
    if Present(v.store, c) {
      var i :| 0 <= i < |v.store.conversations| && v.store.conversations[i].id == c;
      HeardAt(v.store.conversations, i);
    } else {
      HeardNowhere(v.store.conversations, c);
      HeardNowhere(w.store.conversations, c);
    }
  }

  lemma SendTargetIsOld(w: World, step: Step)
    requires Inv(w)
    ensures SentNow(w, step) != [] ==> SendTarget(w) < Next(w, step).nextId
  {
  }
}
