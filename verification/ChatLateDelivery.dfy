/** A stopped request that still delivers into an earlier turn, and what Retry resends afterwards. */
module ChatLateDelivery {
  import opened Options
  import opened Sequences
  import opened Text
  import opened Conversations
  import opened ChatStore
  import opened ChatProtocol
  import opened ChatSafety
  import opened ChatTranscript
  import opened ChatReplies
  import opened ChatRetry

  /** The base once `content` and `toolCall` were delivered to its turn at `k`. */
  function Grown(base: seq<Turn>, k: nat, content: string, toolCall: Option<ToolCall>): seq<Turn>
    requires k < |base|
  {
    base[k := base[k].(content := base[k].content + content,
                       toolCalls := if toolCall.Some? then base[k].toolCalls + [toolCall.value] else base[k].toolCalls)]
  }

  /** Two transcripts that differ in the content of one turn post the same messages only if they do not differ. */
  lemma MessagesTellContents(base: seq<Turn>, k: nat, t: Turn)
    requires k < |base| && t.role == base[k].role
    ensures Messages(base[k := t]) == Messages(base) <==> t.content == base[k].content
  {
    var a, b := base[..k], base[k + 1..];
    assert base == a + ([base[k]] + b) && base[k := t] == a + ([t] + b);
    MessagesAppend(a, [base[k]] + b);
    MessagesAppend(a, [t] + b);
    MessagesAppend([base[k]], b);
    MessagesAppend([t], b);
    MessagesOfOne(base[k]);
    MessagesOfOne(t);
    hide Messages;
    Cancel(Messages(a), Messages([t]), Messages([base[k]]), Messages(b));
  }

  lemma MessagesOfOne(t: Turn)
    ensures Messages([t]) == if t.content == [] then [] else [Message(t.role, t.content)]
  {
    assert [t][1..] == [];
  }

  lemma GrownContents(base: seq<Turn>, k: nat, content: string, toolCall: Option<ToolCall>)
    requires k < |base|
    ensures Messages(Grown(base, k, content, toolCall)) == Messages(base) <==> content == []
    ensures Grown(base, k, content, toolCall) == base <==> content == [] && toolCall.None?
  {
    hide Messages;
    var t := Grown(base, k, content, toolCall)[k];
    MessagesTellContents(base, k, t);
    assert |t.content| == |base[k].content| + |content|;
    assert content == [] ==> t.content == base[k].content;
    assert |t.toolCalls| == |base[k].toolCalls| + if toolCall.Some? then 1 else 0;
    assert content == [] && toolCall.None? ==> Grown(base, k, content, toolCall) == base;
  }

  /** The turn a request writes to is an assistant's, so it is not the user turn at the end of the base. */
  lemma WrittenTurn(w: World, c: Id, base: seq<Turn>, id: Id, k: nat)
    requires Unanswered(w, c, base) && RepliesOk(w) && id in w.inflight
    requires k < |base| && base[k].id == w.inflight[id].turnId
    ensures k < |base| - 1 && TurnsOf(w.store, c)[k] == base[k] && !base[k].streaming
    ensures base[k].content == w.inflight[id].reply && base[k].toolCalls == w.inflight[id].toolCalls
  {
    UnansweredFacts(w, c, base);
    var i := IndexAt(w.store, c);
    assert w.store.conversations[i].turns[k] == base[k];
    assert base[k].role.Assistant?;
  }

  lemma DeliveryGrowsBase(w: World, c: Id, base: seq<Turn>, id: Id, content: string, toolCall: Option<ToolCall>, k: nat)
    requires Unanswered(w, c, base) && RepliesOk(w) && id in w.inflight
    requires k < |base| && base[k].id == w.inflight[id].turnId
    ensures Unanswered(Next(w, Receive(id, Delta(content, toolCall))), c, Grown(base, k, content, toolCall))
  {
    hide Inv, TurnsOf, Present, DistinctIds, IdsBelow, RepliesOk, EndsWithUser, Unanswered, PatchTurn, Patched;
    var v, grown := Next(w, Receive(id, Delta(content, toolCall))), Grown(base, k, content, toolCall);
    WrittenTurn(w, c, base, id, k);
    UnansweredFacts(w, c, base);
    TurnFacts(w, c);
    StepKeeps(w, Receive(id, Delta(content, toolCall)));
    var turnId := w.inflight[id].turnId;
    var patch := Patch(v.inflight[id].reply, v.inflight[id].toolCalls, None, None);
    assert v.store == PatchTurn(w.store, turnId, patch);
    PatchMapsTurns(w.store, turnId, patch, c);
    PatchInBase(TurnsOf(w.store, c), base, k, turnId, patch);
    assert Patched(base[k], patch) == grown[k] by { PatchedTurn(base[k], patch); }
    assert grown == base[k := grown[k]];
    OneTurnChanged(w, v, c, base, k, grown[k]);
  }

  lemma PatchedTurn(t: Turn, patch: Patch)
    requires patch.streaming.None? && patch.failed.None?
    ensures Patched(t, patch) == t.(content := patch.content, toolCalls := patch.toolCalls)
  {
  }

  lemma OneTurnChanged(w: World, v: World, c: Id, base: seq<Turn>, k: nat, t: Turn)
    requires Unanswered(w, c, base) && Inv(v) && Present(v.store, c)
    requires k < |base| - 1 && !t.streaming
    requires base[k := t] <= TurnsOf(v.store, c) && TurnsOf(v.store, c) == TurnsOf(w.store, c)[k := t]
    ensures Unanswered(v, c, base[k := t])
  {
    hide Inv, TurnsOf, Present, EndsWithUser;
    SameEnd(base, base[k := t], k);
  }

  lemma SameEnd(base: seq<Turn>, grown: seq<Turn>, k: nat)
    requires EndsWithUser(base) && k < |base| - 1 && |grown| == |base| && grown[|base| - 1] == base[|base| - 1]
    ensures EndsWithUser(grown)
  {
  }

  /** Patching one turn of the base changes that turn of the chat only. */
  lemma PatchInBase(turns: seq<Turn>, base: seq<Turn>, k: nat, turnId: Id, patch: Patch)
    requires base <= turns && k < |base| && base[k].id == turnId
    requires forall i, j | 0 <= i < |turns| && 0 <= j < |turns| && turns[i].id == turns[j].id :: i == j
    ensures var now := ChangedTurns(turns, (t: Turn) => if t.id == turnId then Patched(t, patch) else t);
      now == turns[k := Patched(base[k], patch)] && base[k := Patched(base[k], patch)] <= now
  {
    var change := (t: Turn) => if t.id == turnId then Patched(t, patch) else t;
    var now := ChangedTurns(turns, change);
    assert turns[k] == base[k];
    forall j | 0 <= j < |turns|
      ensures now[j] == turns[k := Patched(base[k], patch)][j]
    {
      assert now[j] == change(turns[j]);
    }
    assert now == turns[k := Patched(base[k], patch)];
    assert base[k := Patched(base[k], patch)] == turns[k := Patched(base[k], patch)][..|base|];
  }

  /**
   * A late delivery to a turn of the base, told by what is delivered: the turns of the base stay exactly if
   * nothing is, and Retry resends the same messages exactly if the text is empty, since a post carries no
   * tool calls. Otherwise it resends the base with the text added.
   */
  lemma DeliveryIntoBase(w: World, c: Id, base: seq<Turn>, id: Id, content: string, toolCall: Option<ToolCall>, k: nat)
    requires Unanswered(w, c, base) && RepliesOk(w) && id in w.inflight
    requires k < |base| && base[k].id == w.inflight[id].turnId
    ensures var v := Next(w, Receive(id, Delta(content, toolCall)));
      && (base <= TurnsOf(v.store, c) <==> content == [] && toolCall.None?)
      && (RetriesIn(v, c, Retry) ==>
            && Next(v, Retry).posted == v.posted + [Post(Messages(Grown(base, k, content, toolCall)), PageOf(v))]
            && (Next(v, Retry).posted[|v.posted|].messages == Messages(base) <==> content == []))
  {
    hide Unanswered, RepliesOk, Next, Messages, Grown, TurnsOf;
    var v, grown := Next(w, Receive(id, Delta(content, toolCall))), Grown(base, k, content, toolCall);
    DeliveryGrowsBase(w, c, base, id, content, toolCall, k);
    UnansweredFacts(v, c, grown);
    GrownContents(base, k, content, toolCall);
    assert |grown| == |base| by { GrownLength(base, k, content, toolCall); }
    assert base <= TurnsOf(v.store, c) <==> base == grown;
    if RetriesIn(v, c, Retry) {
      RetryInChat(v, c, grown);
    }
  }

  lemma GrownLength(base: seq<Turn>, k: nat, content: string, toolCall: Option<ToolCall>)
    requires k < |base|
    ensures |Grown(base, k, content, toolCall)| == |base|
  {
  }

  // ---------------------------------------------------------- such a delivery can happen

  /** A page whose one chat, active, holds `turns`. */
  function OneChat(turns: seq<Turn>, streaming: bool, status: string, draft: string): ChatState {
    ChatState([Conversation(1, turns, false)], Some(1), streaming, status, draft, None, true)
  }

  lemma AppendToOne(s: ChatState, turns: seq<Turn>, turn: Turn, newId: Id)
    requires s.conversations == [Conversation(1, turns, false)] && s.active == Some(1)
    ensures AppendTurn(s, turn, newId) == s.(conversations := [Conversation(1, turns + [turn], false)])
  {
    assert s.conversations[0].id == 1;
  }

  lemma AppendToNone(s: ChatState, turn: Turn)
    requires s.conversations == [] && s.active == None && s.status == ""
    ensures AppendTurn(s, turn, 1) == s.(conversations := [Conversation(1, [turn], false)], active := Some(1))
  {
    var mid := NewConversation(s, 1);
    assert mid.conversations == [Conversation(1, [], false)];
    assert mid.conversations[0].turns + [turn] == [turn];
    assert AddTurn(mid, 1, turn).conversations == [Conversation(1, [turn], false)];
  }

  lemma OneChatIsActive(turns: seq<Turn>, streaming: bool, status: string, draft: string)
    ensures ActiveTurns(OneChat(turns, streaming, status, draft)) == turns
    ensures TurnsOf(OneChat(turns, streaming, status, draft), 1) == turns
    ensures Present(OneChat(turns, streaming, status, draft), 1)
  {
    ActiveTurnsAt(OneChat(turns, streaming, status, draft), 0);
    TurnsAt(OneChat(turns, streaming, status, draft), 0);
  }

  lemma FirstSend(text: string)
    requires Trim(text) == text != []
    ensures Next(START, Send(text)) ==
      World(OneChat([UserTurn(0, text), Placeholder(2)], true, "", ""), Some(4),
            map[4 := Request(2, text, None, "", [], "")], 5, [Post([Message(User, text)], None)])
  {
    hide AppendTurn, Transcript, ActiveTurns, Messages;
    var user := UserTurn(0, text);
    AppendToNone(START.store, user);
    AppendToOne(AppendTurn(START.store, user, 1), [user], Placeholder(2), 3);
    assert [user] + [Placeholder(2)] == [user, Placeholder(2)];
    OneChatIsActive([user, Placeholder(2)], true, "", "");
    TranscriptSkipsPlaceholder([user], Placeholder(2));
    MessagesOfOne(user);
    assert START.posted + [Post([Message(User, text)], None)] == [Post([Message(User, text)], None)];
  }

  /** What the second attempt resends: the first message, its stopped and empty answer, the second message. */
  function Asked(first: string, second: string): seq<Turn> {
    [UserTurn(0, first), Placeholder(2).(streaming := false, stopped := true), UserTurn(5, second)]
  }

  lemma AskedMessages(first: string, second: string)
    requires first != [] && second != []
    ensures Messages(Asked(first, second)) == [Message(User, first), Message(User, second)]
  {
    var asked := Asked(first, second);
    assert asked == [asked[0]] + ([asked[1]] + [asked[2]]);
    MessagesAppend([asked[0]], [asked[1]] + [asked[2]]);
    MessagesAppend([asked[1]], [asked[2]]);
    MessagesOfOne(asked[0]);
    MessagesOfOne(asked[1]);
    MessagesOfOne(asked[2]);
  }

  /** The world once the first message was stopped. */
  function Stopped(first: string): World {
    World(OneChat([UserTurn(0, first), Placeholder(2).(streaming := false, stopped := true)],
                  false, STREAMING_STOPPED, ""),
          None, map[4 := Request(2, first, None, "", [], "")], 5, [Post([Message(User, first)], None)])
  }

  lemma StopsFirst(text: string)
    requires Trim(text) == text != []
    ensures Next(Next(START, Send(text)), Stop) == Stopped(text)
  {
    FirstSend(text);
    var w := Next(START, Send(text));
    var stopping := (t: Turn) => if t.streaming then t.(streaming := false, stopped := true) else t;
    var turns := [UserTurn(0, text), Placeholder(2)];
    hide Next;
    assert ChangedTurns(turns, stopping) == Stopped(text).store.conversations[0].turns;
    assert MapTurns(w.store.conversations, stopping) == Stopped(text).store.conversations;
    StopUnfolds(w);
  }

  lemma StopUnfolds(w: World)
    ensures Next(w, Stop) == w.(abort := None, store := StopStreaming(w.store))
  {
  }

  lemma SecondSend(first: string, second: string)
    requires first != [] && Trim(second) == second != []
    ensures Next(Stopped(first), Send(second)) ==
      World(OneChat(Stopped(first).store.conversations[0].turns + [UserTurn(5, second), Placeholder(7)], true, "", ""),
            Some(9), map[4 := Request(2, first, None, "", [], ""), 9 := Request(7, second, None, "", [], "")], 10,
            Stopped(first).posted + [Post([Message(User, first), Message(User, second)], None)])
  {
    hide AppendTurn, Transcript, ActiveTurns, Messages;
    var w, user := Stopped(first), UserTurn(5, second);
    var turns := w.store.conversations[0].turns;
    AppendToOne(w.store, turns, user, 6);
    AppendToOne(AppendTurn(w.store, user, 6), turns + [user], Placeholder(7), 8);
    assert turns + [user] + [Placeholder(7)] == turns + [user, Placeholder(7)];
    OneChatIsActive(turns + [user] + [Placeholder(7)], true, "", "");
    TranscriptSkipsPlaceholder(turns + [user], Placeholder(7));
    AskedMessages(first, second);
    assert turns + [user] == Asked(first, second);
  }

  /** The steps that lead there: a message, Stop, a second message, and its request fails. */
  function StopThenFail(first: string, second: string, message: string): seq<Step> {
    [Send(first), Stop, Send(second), Reject(9, message)]
  }

  lemma StopThenFailRuns(first: string, second: string, message: string)
    requires Trim(first) == first != [] && Trim(second) == second != []
    ensures var w := Next(Stopped(first), Send(second));
      && Run(START, StopThenFail(first, second, message)) == SettleFailed(w, 9, message)
      && Run(START, [Send(first), Stop, Send(second)]) == w
  {
    hide Next, BeginSend;
    StopsFirst(first);
    SecondSend(first, second);
    var steps := [Send(first), Stop, Send(second)];
    assert steps[1..] == [Stop, Send(second)] && [Stop, Send(second)][1..] == [Send(second)];
    RunOne(Stopped(first), Send(second));
    assert Run(Next(START, Send(first)), [Stop, Send(second)]) == Run(Stopped(first), [Send(second)]);
    assert StopThenFail(first, second, message) == steps + [Reject(9, message)];
    RunAppend(START, steps, [Reject(9, message)]);
    RunOne(Run(START, steps), Reject(9, message));
    RejectedIsFailed(Next(Stopped(first), Send(second)), 9, message);
  }

  lemma RunOne(w: World, step: Step)
    ensures Run(w, [step]) == Next(w, step)
  {
    assert [step][1..] == [];
  }

  lemma RejectedIsFailed(w: World, id: Id, message: string)
    requires id in w.inflight && w.abort == Some(id)
    ensures Next(w, Reject(id, message)) == SettleFailed(w, id, message)
  {
  }

  lemma SecondAttemptWaits(first: string, second: string)
    requires first != [] && Trim(second) == second != []
    requires Inv(Next(Stopped(first), Send(second)))
    ensures Unanswered(Next(Stopped(first), Send(second)), 1, Asked(first, second))
  {
    hide Next, Inv, TurnsOf, Present;
    SecondSend(first, second);
    var turns := Stopped(first).store.conversations[0].turns + [UserTurn(5, second), Placeholder(7)];
    OneChatIsActive(turns, true, "", "");
    assert turns == Asked(first, second) + [Placeholder(7)];
  }

  /**
   * From an empty store: a message is stopped, a second one fails, and the first one's request, still in
   * flight, delivers text at last. Retry then posts three messages where the failed attempt posted two.
   */
  lemma DeliveryIntoBaseIsReachable(first: string, second: string, message: string, content: string)
    requires Trim(first) == first != [] && Trim(second) == second != [] && content != []
    ensures var w := Run(START, StopThenFail(first, second, message));
      var v := Next(w, Receive(4, Delta(content, None)));
      && |w.posted| == 2 && w.posted[1].messages == [Message(User, first), Message(User, second)]
      && Unanswered(w, 1, Asked(first, second)) && RepliesOk(w) && 4 in w.inflight && RetriesIn(v, 1, Retry)
      && Next(v, Retry).posted == v.posted +
           [Post([Message(User, first), Message(Assistant, content), Message(User, second)], PageOf(v))]
  {
    hide Inv, RepliesOk, Unanswered, Run, Messages, Next, SettleFailed, TurnsOf, BeginSend;
    var base, sent := Asked(first, second), Next(Stopped(first), Send(second));
    var w := Run(START, StopThenFail(first, second, message));
    PageOpenedIsProper(START.store, 0);
    PageOpenedReplies(START.store, 0);
    StopThenFailRuns(first, second, message);
    RunKeeps(START, [Send(first), Stop, Send(second)]);
    RunKeepsReplies(START, StopThenFail(first, second, message));
    SecondAttemptWaits(first, second);
    SecondSend(first, second);
    FailureSpares(sent, 1, base, 9, message);
    FailedShape(sent, 9, message);
    LateStaysIdle(w, 4, content);
    DeliveryIntoBase(w, 1, base, 4, content, None, 1);
    var grown := Grown(base, 1, content, None);
    assert "" + content == content;
    assert grown == [base[0], Placeholder(2).(streaming := false, stopped := true, content := content), base[2]];
    AnsweredMessages(first, second, content);
  }

  lemma FailedShape(w: World, id: Id, message: string)
    requires id in w.inflight
    ensures var v := SettleFailed(w, id, message);
      && v.posted == w.posted && v.inflight == w.inflight - {id}
      && !v.store.streaming && v.store.active == w.store.active
  {
  }

  lemma LateStaysIdle(w: World, id: Id, content: string)
    requires id in w.inflight
    ensures var v := Next(w, Receive(id, Delta(content, None)));
      v.store.streaming == w.store.streaming && v.store.active == w.store.active
  {
  }

  lemma AnsweredMessages(first: string, second: string, content: string)
    requires first != [] && second != [] && content != []
    ensures Messages([UserTurn(0, first), Placeholder(2).(streaming := false, stopped := true, content := content),
                      UserTurn(5, second)])
         == [Message(User, first), Message(Assistant, content), Message(User, second)]
  {
    var answer := Placeholder(2).(streaming := false, stopped := true, content := content);
    var turns := [UserTurn(0, first), answer, UserTurn(5, second)];
    assert turns == [turns[0]] + ([turns[1]] + [turns[2]]);
    MessagesAppend([turns[0]], [turns[1]] + [turns[2]]);
    MessagesAppend([turns[1]], [turns[2]]);
    MessagesOfOne(turns[0]);
    MessagesOfOne(turns[1]);
    MessagesOfOne(turns[2]);
  }
}
