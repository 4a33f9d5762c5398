/**
 * The assistant part of the extension store: conversations, the turn being streamed, the
 * composer draft and the captured page.
 *
 * The functions say what each operation does to the state value; the class `ExtensionStore`
 * replaces its `state` field the way the program does. Storage writes are instantaneous.
 */
module ChatStore {
  import opened Options
  import opened Text
  import opened Conversations

  /** A captured page. */
  type Bundle = string

  datatype ChatState = ChatState(
    conversations: seq<Conversation>,
    active: Option<Id>,
    streaming: bool,
    status: string,
    draft: string,
    webContext: Option<Bundle>,
    includeContext: bool
  )

  const MAX_DRAFT := 8000

  const STREAMING_STOPPED := "Streaming stopped"

  predicate Present(s: ChatState, id: Id) {
    exists i | 0 <= i < |s.conversations| :: s.conversations[i].id == id
  }

  function IndexOf(list: seq<Conversation>, id: Id): (r: Option<nat>)
    ensures r.Some? ==> r.value < |list| && list[r.value].id == id
    ensures r.None? ==> forall i | 0 <= i < |list| :: list[i].id != id
  {
    if list == [] then None
    else if list[0].id == id then Some(0)
    else
      var rest := IndexOf(list[1..], id);
      if rest.Some? then Some(rest.value + 1) else None
  }

  function ActiveConversation(s: ChatState): Option<Conversation> {
    if s.active.None? then None
    else
      var i := IndexOf(s.conversations, s.active.value);
      if i.Some? then Some(s.conversations[i.value]) else None
  }

  // ------------------------------------------------------ list operations

  function NewConversation(s: ChatState, newId: Id): ChatState {
    s.(conversations := Capped(s.conversations + [Conversation(newId, [], false)]),
       active := Some(newId), status := "")
  }

  function SelectConversation(s: ChatState, id: Id): ChatState {
    if Present(s, id) then s.(active := Some(id)) else s
  }

  function RemoveConversation(s: ChatState, id: Id): ChatState {
    var rest := Without(s.conversations, {id});
    if s.active == Some(id) then
      s.(conversations := rest,
         active := if rest == [] then None else Some(rest[|rest| - 1].id),
         status := "")
    else
      s.(conversations := rest)
  }

  function TogglePinned(s: ChatState, id: Id): ChatState {
    var i := IndexOf(s.conversations, id);
    if i.None? then s
    else SetPinned(s, id, !s.conversations[i.value].pinned)
  }

  function SetPinned(s: ChatState, id: Id, pinned: bool): ChatState {
    s.(conversations := seq(|s.conversations|, i requires 0 <= i < |s.conversations| =>
         var c := s.conversations[i];
         if c.id == id then c.(pinned := pinned) else c))
  }

  // ------------------------------------------------------ turn operations

  /** Append to the active conversation, opening a new one when there is none. */
  function AppendTurn(s: ChatState, turn: Turn, newId: Id): ChatState {
    if s.active.Some? && Present(s, s.active.value) then AddTurn(s, s.active.value, turn)
    else AddTurn(NewConversation(s, newId), newId, turn)
  }

  function AddTurn(s: ChatState, id: Id, turn: Turn): ChatState {
    s.(conversations := seq(|s.conversations|, i requires 0 <= i < |s.conversations| =>
         var c := s.conversations[i];
         if c.id == id then c.(turns := c.turns + [turn]) else c))
  }

  /** A partial turn update: fields that are `None` stay as they are. */
  datatype Patch = Patch(content: string, toolCalls: seq<ToolCall>, streaming: Option<bool>, failed: Option<bool>)

  function Patched(turn: Turn, patch: Patch): Turn {
    turn.(content := patch.content, toolCalls := patch.toolCalls,
          streaming := if patch.streaming.Some? then patch.streaming.value else turn.streaming,
          failed := if patch.failed.Some? then patch.failed.value else turn.failed)
  }

  function MapTurns(list: seq<Conversation>, change: Turn -> Turn): (r: seq<Conversation>)
    ensures |r| == |list|
    ensures forall i | 0 <= i < |r| ::
      && r[i].id == list[i].id && r[i].pinned == list[i].pinned
      && r[i].turns == ChangedTurns(list[i].turns, change)
  {
    seq(|list|, i requires 0 <= i < |list| => list[i].(turns := ChangedTurns(list[i].turns, change)))
  }

  function ChangedTurns(turns: seq<Turn>, change: Turn -> Turn): (r: seq<Turn>)
    ensures |r| == |turns|
    ensures forall k | 0 <= k < |r| :: r[k] == change(turns[k])
  {
    seq(|turns|, k requires 0 <= k < |turns| => change(turns[k]))
  }

  function PatchTurn(s: ChatState, turnId: Id, patch: Patch): ChatState {
    s.(conversations := MapTurns(s.conversations, (t: Turn) => if t.id == turnId then Patched(t, patch) else t))
  }

  function SetStreaming(s: ChatState, streaming: bool, status: string): ChatState {
    s.(streaming := streaming, status := status)
  }

  function StopStreaming(s: ChatState): ChatState {
    s.(conversations := MapTurns(s.conversations,
         (t: Turn) => if t.streaming then t.(streaming := false, stopped := true) else t),
       streaming := false, status := STREAMING_STOPPED)
  }

  function FailStreaming(s: ChatState, message: string): ChatState {
    s.(conversations := MapTurns(s.conversations,
         (t: Turn) => if t.streaming then t.(streaming := false, failed := true) else t),
       streaming := false, status := message)
  }

  function SetDraft(s: ChatState, draft: string): ChatState {
    s.(draft := if |draft| <= MAX_DRAFT then draft else draft[..MAX_DRAFT])
  }

  function SetWebContext(s: ChatState, bundle: Option<Bundle>): ChatState {
    s.(webContext := bundle, includeContext := bundle.Some?)
  }

  /** The turns left once the failed assistant turns at the end are dropped. */
  function WithoutFailedTail(turns: seq<Turn>): seq<Turn> {
    if turns != [] && turns[|turns| - 1].role.Assistant? && turns[|turns| - 1].failed
    then WithoutFailedTail(turns[..|turns| - 1])
    else turns
  }

  function DropFailedTail(s: ChatState): ChatState {
    if s.active.None? then s
    else
      s.(conversations := seq(|s.conversations|, i requires 0 <= i < |s.conversations| =>
           var c := s.conversations[i];
           if c.id == s.active.value then c.(turns := WithoutFailedTail(c.turns)) else c))
  }

  /** The most recent user turn with something in it. */
  function LastUserText(turns: seq<Turn>): Option<string> {
    if turns == [] then None
    else
      var last := turns[|turns| - 1];
      if last.role.User? && Trim(last.content) != [] then Some(last.content)
      else LastUserText(turns[..|turns| - 1])
  }

  lemma LastUserTextStep(turns: seq<Turn>, i: nat)
    requires 0 < i <= |turns|
    ensures LastUserText(turns[..i])
         == if turns[i - 1].role.User? && Trim(turns[i - 1].content) != [] then Some(turns[i - 1].content)
            else LastUserText(turns[..i - 1])
  {
    var head := turns[..i];
    assert head[i - 1] == turns[i - 1] && head[..i - 1] == turns[..i - 1];
  }

  /** The text of the last user turn that is not blank; none exactly if all of them are. */
  lemma {:induction false} LastUserTextIsTheLast(turns: seq<Turn>)
    ensures var text := LastUserText(turns);
      if text.None? then forall i | 0 <= i < |turns| :: turns[i].role.User? ==> Blank(turns[i].content)
      else exists i | 0 <= i < |turns| ::
        && turns[i].role.User? && !Blank(turns[i].content) && turns[i].content == text.value
        && forall j | i < j < |turns| :: turns[j].role.User? ==> Blank(turns[j].content)
  {
    if turns != [] {
      var n := |turns| - 1;
      TrimEmptyIffBlank(turns[n].content);
      LastUserTextIsTheLast(turns[..n]);
      hide Blank, Trim;
      if LastUserText(turns).Some? && (turns[n].role.Assistant? || Trim(turns[n].content) == []) {
        var i :| 0 <= i < n && turns[..n][i].role.User? && !Blank(turns[..n][i].content)
          && turns[..n][i].content == LastUserText(turns).value
          && forall j | i < j < n :: turns[..n][j].role.User? ==> Blank(turns[..n][j].content);
        assert turns[i] == turns[..n][i] && forall j | i < j < n :: turns[j] == turns[..n][j];
      }
    }
  }

  function LastUserMessage(s: ChatState): Option<string> {
    var conversation := ActiveConversation(s);
    if conversation.Some? then LastUserText(conversation.value.turns) else None
  }

  // ------------------------------------------------------------- what is promised

  /** The active chat, if there is one, is in the list. */
  predicate ActiveOk(s: ChatState) {
    s.active.None? || Present(s, s.active.value)
  }

  /** The same chats in the same order with as many turns each. */
  predicate SameLayout(before: seq<Conversation>, after: seq<Conversation>) {
    && |after| == |before|
    && forall i | 0 <= i < |before| ::
         after[i].id == before[i].id && after[i].pinned == before[i].pinned && |after[i].turns| == |before[i].turns|
  }

  /** Removing a chat removes that chat only, in order, and moves on to a chat that is there. */
  lemma RemovalKeepsTheOthers(s: ChatState, id: Id)
    ensures var after := RemoveConversation(s, id);
      && !Present(after, id) && after.active != Some(id)
      && Sublist(s.conversations, after.conversations)
      && (forall c | c in s.conversations && c.id != id :: c in after.conversations)
      && (ActiveOk(s) ==> ActiveOk(after))
      && (s.active != Some(id) ==> after.active == s.active)
      && (s.active == Some(id) ==>
            after.active == if after.conversations == [] then None
                            else Some(after.conversations[|after.conversations| - 1].id))
  {
    var after := RemoveConversation(s, id);
    WithoutSublist(s.conversations, {id});
    forall i | 0 <= i < |after.conversations|
      ensures after.conversations[i].id != id
    {
      assert after.conversations[i] in after.conversations;
    }
    forall c | c in s.conversations && c.id != id
      ensures c in after.conversations
    {
      var i :| 0 <= i < |s.conversations| && s.conversations[i] == c;
      WithoutKeeps(s.conversations, {id}, i);
    }
    if s.active == Some(id) {
      assert after.active.Some? ==> after.conversations[|after.conversations| - 1].id == after.active.value;
    } else if ActiveOk(s) && s.active.Some? {
      var i :| 0 <= i < |s.conversations| && s.conversations[i].id == s.active.value;
      assert s.conversations[i] in after.conversations;
    }
  }

  lemma {:induction false} WithoutKeeps(list: seq<Conversation>, dropped: set<Id>, i: nat)
    requires i < |list| && list[i].id !in dropped
    ensures list[i] in Without(list, dropped)
  {
    if i > 0 {
      WithoutKeeps(list[1..], dropped, i - 1);
    }
  }

  // ---------------------------------------------------------------- the class

  class ExtensionStore {
    var state: ChatState

    constructor (initial: ChatState)
      ensures state == initial
    {
      state := initial;
    }

    method NewAssistantConversation(newId: Id)
      requires DistinctIds(state.conversations)
      requires forall i | 0 <= i < |state.conversations| :: state.conversations[i].id != newId
      modifies this
      ensures state == NewConversation(old(state), newId)
    {
      var capped := CapConversations(state.conversations + [Conversation(newId, [], false)]);
      state := state.(conversations := capped, active := Some(newId), status := "");
    }

    method SelectAssistantConversation(id: Id)
      modifies this
      ensures state == SelectConversation(old(state), id)
      ensures state.active == Some(id) <==> Present(old(state), id) || old(state.active) == Some(id)
      ensures state == old(state).(active := state.active) && (state.active != Some(id) ==> state == old(state))
      ensures ActiveOk(old(state)) ==> ActiveOk(state)
    {
      if !Present(state, id) {
        return;
      }
      state := state.(active := Some(id));
    }

    method RemoveAssistantConversation(id: Id)
      modifies this
      ensures state == RemoveConversation(old(state), id)
      ensures !Present(state, id) && state.active != Some(id)
      ensures old(state.active) != Some(id) ==> state.active == old(state.active)
      ensures old(state.active) == Some(id) ==>
        state.active == if state.conversations == [] then None
                        else Some(state.conversations[|state.conversations| - 1].id)
      ensures Sublist(old(state.conversations), state.conversations)
      ensures forall c | c in old(state.conversations) && c.id != id :: c in state.conversations
      ensures ActiveOk(old(state)) ==> ActiveOk(state)
    {
      RemovalKeepsTheOthers(state, id);
      var conversations := Without(state.conversations, {id});
      var active := state.active;
      if state.active == Some(id) {
        active := if conversations == [] then None else Some(conversations[|conversations| - 1].id);
      }
      var status := if state.active == Some(id) then "" else state.status;
      state := state.(conversations := conversations, active := active, status := status);
    }

    method ToggleAssistantConversationPinned(id: Id)
      modifies this
      ensures state == TogglePinned(old(state), id)
      ensures |state.conversations| == |old(state.conversations)|
      ensures forall i | 0 <= i < |state.conversations| ::
        state.conversations[i] == old(state.conversations)[i].(pinned := state.conversations[i].pinned)
      ensures DistinctIds(old(state.conversations)) ==> forall i | 0 <= i < |state.conversations| ::
        state.conversations[i].pinned != old(state.conversations)[i].pinned <==> state.conversations[i].id == id
    {
      var found := IndexOf(state.conversations, id);
      if found.None? {
        return;
      }
      state := SetPinned(state, id, !state.conversations[found.value].pinned);
    }

    method EnsureConversation(newId: Id) returns (id: Id)
      requires DistinctIds(state.conversations)
      requires forall i | 0 <= i < |state.conversations| :: state.conversations[i].id != newId
      modifies this
      ensures old(state.active.Some? && Present(state, state.active.value)) ==>
                state == old(state) && Some(id) == state.active
      ensures !old(state.active.Some? && Present(state, state.active.value)) ==>
                state == NewConversation(old(state), newId) && id == newId
    {
      if state.active.Some? && Present(state, state.active.value) {
        return state.active.value;
      }
      NewAssistantConversation(newId);
      id := state.active.value;
    }

    method AppendAssistantTurn(turn: Turn, newId: Id)
      requires DistinctIds(state.conversations)
      requires forall i | 0 <= i < |state.conversations| :: state.conversations[i].id != newId
      modifies this
      ensures state == AppendTurn(old(state), turn, newId)
    {
      var id := EnsureConversation(newId);
      state := AddTurn(state, id, turn);
    }

    method PatchAssistantTurn(turnId: Id, patch: Patch)
      modifies this
      ensures state == PatchTurn(old(state), turnId, patch)
      ensures SameLayout(old(state.conversations), state.conversations)
      ensures forall i, k | 0 <= i < |state.conversations| && 0 <= k < |state.conversations[i].turns| ::
        var was, now := old(state.conversations)[i].turns[k], state.conversations[i].turns[k];
        && (was.id != turnId ==> now == was)
        && (was.id == turnId ==> now.content == patch.content && now.toolCalls == patch.toolCalls)
        && now.id == was.id && now.role == was.role && now.stopped == was.stopped
        && (patch.streaming.None? ==> now.streaming == was.streaming)
        && (patch.failed.None? ==> now.failed == was.failed)
    {
      state := state.(conversations :=
        MapTurns(state.conversations, (t: Turn) => if t.id == turnId then Patched(t, patch) else t));
    }

    method SetAssistantStreaming(streaming: bool, status: string)
      modifies this
      ensures state == SetStreaming(old(state), streaming, status)
    {
      state := state.(streaming := streaming, status := status);
    }

    method SetAssistantStatus(status: string)
      modifies this
      ensures state == old(state).(status := status)
    {
      state := state.(status := status);
    }

    method StopAssistantStreaming()
      modifies this
      ensures state == StopStreaming(old(state))
      ensures !state.streaming && state.status == STREAMING_STOPPED
      ensures SameLayout(old(state.conversations), state.conversations)
      ensures forall i, k | 0 <= i < |state.conversations| && 0 <= k < |state.conversations[i].turns| ::
        var was, now := old(state.conversations)[i].turns[k], state.conversations[i].turns[k];
        && !now.streaming && (now.stopped <==> was.stopped || was.streaming)
        && now == was.(streaming := false, stopped := now.stopped)
    {
      var conversations := MapTurns(state.conversations,
        (t: Turn) => if t.streaming then t.(streaming := false, stopped := true) else t);
      state := state.(conversations := conversations, streaming := false, status := STREAMING_STOPPED);
    }

    method FailAssistantStreaming(message: string)
      modifies this
      ensures state == FailStreaming(old(state), message)
      ensures !state.streaming && state.status == message
      ensures SameLayout(old(state.conversations), state.conversations)
      ensures forall i, k | 0 <= i < |state.conversations| && 0 <= k < |state.conversations[i].turns| ::
        var was, now := old(state.conversations)[i].turns[k], state.conversations[i].turns[k];
        && !now.streaming && (now.failed <==> was.failed || was.streaming)
        && now == was.(streaming := false, failed := now.failed)
    {
      var conversations := MapTurns(state.conversations,
        (t: Turn) => if t.streaming then t.(streaming := false, failed := true) else t);
      state := state.(conversations := conversations, streaming := false, status := message);
    }

    method SetAssistantDraft(draft: string)
      modifies this
      ensures state == SetDraft(old(state), draft)
    {
      state := state.(draft := if |draft| <= MAX_DRAFT then draft else draft[..MAX_DRAFT]);
    }

    method SetAssistantWebContext(bundle: Option<Bundle>)
      modifies this
      ensures state == SetWebContext(old(state), bundle)
    {
      state := state.(webContext := bundle, includeContext := bundle.Some?);
    }

    method SetAssistantContextInclude(included: bool)
      modifies this
      ensures state == old(state).(includeContext := included)
    {
      state := state.(includeContext := included);
    }

    method DropFailedAssistantTail()
      modifies this
      ensures state == DropFailedTail(old(state))
    {
      if state.active.None? {
        return;
      }
      var id := state.active.value;
      var rewritten: seq<Conversation> := [];
      ghost var target := DropFailedTail(state).conversations;
      for i := 0 to |state.conversations|
        invariant state == old(state)
        invariant rewritten == target[..i]
      {
        var conversation := state.conversations[i];
        if conversation.id == id {
          var turns := conversation.turns;
          while |turns| > 0
            invariant WithoutFailedTail(turns) == WithoutFailedTail(conversation.turns)
          {
            var last := turns[|turns| - 1];
            if last.role != Assistant || !last.failed {
              break;
            }
            turns := turns[..|turns| - 1];
          }
          conversation := conversation.(turns := turns);
        }
        rewritten := rewritten + [conversation];
      }
      state := state.(conversations := rewritten);
    }

    /** What a Retry sends again. */
    method LastAssistantUserMessage() returns (text: Option<string>)
      ensures text == LastUserMessage(state)
    {
      var conversation := ActiveConversation(state);
      if conversation.None? {
        return None;
      }
      var turns := conversation.value.turns;
      var index := |turns|;
      assert turns[..index] == turns;
      while index > 0
        invariant 0 <= index <= |turns|
        invariant LastUserText(turns[..index]) == LastUserText(turns)
      {
        LastUserTextStep(turns, index);
        index := index - 1;
        var turn := turns[index];
        if turn.role == User && Trim(turn.content) != [] {
          return Some(turn.content);
        }
      }
      assert turns[..0] == [];
      return None;
    }
  }
}
