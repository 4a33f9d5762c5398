/** What the Bridge is sent, and what the transcript keeps, over every run of the chat protocol. */
module ChatTranscript {
  import opened Options
  import opened Sequences
  import opened Text
  import opened Conversations
  import opened ChatStore
  import opened ChatProtocol
  import opened ChatSafety

  // ------------------------------------------------------------------ sending

  /** The non-empty turns, as messages. */
  function Messages(turns: seq<Turn>): seq<Message> {
    if turns == [] then []
    else if turns[0].content == [] then Messages(turns[1..])
    else [Message(turns[0].role, turns[0].content)] + Messages(turns[1..])
  }

  lemma {:induction false} TranscriptSkipsPlaceholder(turns: seq<Turn>, p: Turn)
    requires forall k | 0 <= k < |turns| :: turns[k].id != p.id
    ensures Transcript(turns + [p], p.id) == Messages(turns)
  {
    if turns == [] {
      assert [p][1..] == [];
    } else {
      TranscriptSkipsPlaceholder(turns[1..], p);
      assert (turns + [p])[1..] == turns[1..] + [p];
    }
  }

  lemma {:induction false} MessagesAppend(a: seq<Turn>, b: seq<Turn>)
    ensures Messages(a + b) == Messages(a) + Messages(b)
  {
    if a == [] {
      assert a + b == b;
    } else {
      MessagesAppend(a[1..], b);
      Uncons(a, b);
      if a[0].content != [] {
        var m := Message(a[0].role, a[0].content);
        Assoc([m], Messages(a[1..]), Messages(b));
      }
    }
  }

  lemma BaseIds(w: World, text: string, appendUserTurn: bool)
    requires Inv(w)
    ensures var base := OpenedBase(w.store, text, appendUserTurn, w.nextId);
      forall k | 0 <= k < |base| :: base[k].id != w.nextId + 2
  {
    var turns := ActiveTurns(w.store);
    forall k | 0 <= k < |turns|
      ensures turns[k].id < w.nextId
    {
    }
  }

  /** One request is posted: the whole active transcript, or nothing if the chat it opened was dropped. */
  lemma BeginSendPosts(w: World, text: string, appendUserTurn: bool)
    requires Inv(w) && !w.store.streaming && (appendUserTurn || Listed(w.store))
    ensures var v := BeginSend(w, text, appendUserTurn);
      var base := OpenedBase(w.store, text, appendUserTurn, w.nextId);
      var context := if w.store.includeContext then w.store.webContext else None;
      && |v.posted| == |w.posted| + 1 && v.posted[..|w.posted|] == w.posted
      && v.posted[|w.posted|].webContext == context
      && if Listed(w.store) || !FullOfPinned(w.store)
         then Listed(v.store) && ActiveTurns(v.store) == base + [Placeholder(w.nextId + 2)]
              && v.posted[|w.posted|].messages == Messages(base)
         else v.posted[|w.posted|].messages == []
  {
    hide BeginSend, Inv, ListInv, Opened, OpenedBase, FullOfPinned, ActiveTurns, Listed, Messages, Transcript;
    var n := w.nextId;
    InvFacts(w);
    BaseIds(w, text, appendUserTurn);
    BeginSendUnfolds(w, text, appendUserTurn);
    OpenedActive(w.store, text, appendUserTurn, n);
    TranscriptOfNothing(n + 2);
    TranscriptSkipsPlaceholder(OpenedBase(w.store, text, appendUserTurn, n), Placeholder(n + 2));
  }

  lemma BeginSendUnfolds(w: World, text: string, appendUserTurn: bool)
    ensures var v := BeginSend(w, text, appendUserTurn);
      && v.store == Opened(w.store, text, appendUserTurn, w.nextId)
      && |v.posted| == |w.posted| + 1 && v.posted[..|w.posted|] == w.posted
      && v.posted[|w.posted|] == Post(Transcript(ActiveTurns(v.store), w.nextId + 2),
                                      if w.store.includeContext then w.store.webContext else None)
  {
    hide Opened, ActiveTurns, Transcript;
  }

  lemma TranscriptOfNothing(placeholder: Id)
    ensures Transcript([], placeholder) == []
  {
  }

  lemma MessagesOfUserTurn(turns: seq<Turn>, id: Id, text: string)
    requires text != []
    ensures Messages(turns + [UserTurn(id, text)]) == Messages(turns) + [Message(User, text)]
  {
    MessagesAppend(turns, [UserTurn(id, text)]);
    assert [UserTurn(id, text)][1..] == [];
  }

  /**
   * Send puts the typed text at the end of what it posts, exactly unless no listed chat is active
   * and twenty pinned chats fill the list; then it posts an empty transcript.
   */
  lemma SendPostsTheText(w: World, text: string)
    requires Inv(w) && !w.store.streaming && Trim(text) != []
    ensures var v := Next(w, Send(text));
      && |v.posted| == |w.posted| + 1 && v.posted[..|w.posted|] == w.posted
      && v.posted[|w.posted|].messages ==
           if Listed(w.store) || !FullOfPinned(w.store)
           then Messages(ActiveTurns(w.store)) + [Message(User, Trim(text))] else []
  {
    hide Inv, BeginSend, FullOfPinned, ActiveTurns, Listed, Messages, Trim;
    BeginSendPosts(w, Trim(text), true);
    MessagesOfUserTurn(ActiveTurns(w.store), w.nextId, Trim(text));
  }

  // ------------------------------------------------------------- the captured page

  /** One step posts at most one request, and its page is the one in the store; only Ask AI puts one there. */
  lemma PageStep(w: World, step: Step)
    ensures var v := Next(w, step);
      && (v.posted == w.posted
          || (|v.posted| == |w.posted| + 1 && v.posted[..|w.posted|] == w.posted
              && (v.posted[|w.posted|].webContext.Some? ==> v.posted[|w.posted|].webContext == w.store.webContext)))
      && (v.store.webContext.Some? ==>
            v.store.webContext == w.store.webContext || step == AskAi(v.store.webContext.value))
  {
    hide LastUserMessage, Transcript, Trim, WithoutFailedTail, Without, Capped, IndexOf;
  }

  lemma {:induction false} PostsExtend(w: World, steps: seq<Step>)
    ensures w.posted <= Run(w, steps).posted
    decreases steps
  {
    hide Next;
    if steps != [] {
      PageStep(w, steps[0]);
      PostsExtend(Next(w, steps[0]), steps[1..]);
    }
  }

  /** No page leaves the extension that was not captured: a page in a post was in the store or asked for in the run. */
  lemma {:induction false} PostedPagesWereCaptured(w: World, steps: seq<Step>, i: nat)
    requires |w.posted| <= i < |Run(w, steps).posted| && Run(w, steps).posted[i].webContext.Some?
    ensures var page := Run(w, steps).posted[i].webContext.value;
      w.store.webContext == Some(page) || AskAi(page) in steps
    decreases steps
  {
    hide Next;
    if steps != [] {
      var v := Next(w, steps[0]);
      PageStep(w, steps[0]);
      PostsExtend(v, steps[1..]);
      if i >= |v.posted| {
        PostedPagesWereCaptured(v, steps[1..], i);
        var page := Run(w, steps).posted[i].webContext.value;
        assert AskAi(page) in steps[1..] ==> AskAi(page) in steps;
        assert steps[0] in steps;
      } else {
        assert Run(w, steps).posted[i] == v.posted[i];
      }
    }
  }

  /** After Clear, nothing carries a page until one is captured again. */
  lemma ClearedPageIsNotSent(w: World, steps: seq<Step>, i: nat)
    requires forall page :: AskAi(page) !in steps
    requires |w.posted| <= i < |Run(Next(w, ClearContext), steps).posted|
    ensures Run(Next(w, ClearContext), steps).posted[i].webContext == None
  {
    var v := Next(w, ClearContext);
    assert v.store.webContext == None && v.posted == w.posted;
    hide Run, Next;
    if Run(v, steps).posted[i].webContext.Some? {
      PostedPagesWereCaptured(v, steps, i);
    }
  }

  /** Only Ask AI and the switch itself turn the page on. */
  lemma SwitchStep(w: World, step: Step)
    ensures Next(w, step).store.includeContext ==> w.store.includeContext || step.AskAi? || step == IncludeContext(true)
    ensures var v := Next(w, step);
      |v.posted| == |w.posted| + 1 && !w.store.includeContext ==> v.posted[|w.posted|].webContext == None
  {
    hide LastUserMessage, Transcript, Trim, WithoutFailedTail, Without, Capped, IndexOf;
  }

  lemma {:induction false} NoPageWhileOff(w: World, steps: seq<Step>, i: nat)
    requires !w.store.includeContext
    requires forall k | 0 <= k < |steps| :: !steps[k].AskAi? && steps[k] != IncludeContext(true)
    requires |w.posted| <= i < |Run(w, steps).posted|
    ensures Run(w, steps).posted[i].webContext == None
    decreases steps
  {
    hide Next;
    if steps != [] {
      var v := Next(w, steps[0]);
      PageStep(w, steps[0]);
      SwitchStep(w, steps[0]);
      PostsExtend(v, steps[1..]);
      assert forall k | 0 <= k < |steps[1..]| :: steps[1..][k] == steps[k + 1];
      if i >= |v.posted| {
        NoPageWhileOff(v, steps[1..], i);
      } else {
        assert Run(w, steps).posted[i] == v.posted[i];
      }
    }
  }

  /** With the page switched off, nothing carries it until it is switched on or another one is captured. */
  lemma ExcludedPageIsNotSent(w: World, steps: seq<Step>, i: nat)
    requires forall k | 0 <= k < |steps| :: !steps[k].AskAi? && steps[k] != IncludeContext(true)
    requires |w.posted| <= i < |Run(Next(w, IncludeContext(false)), steps).posted|
    ensures Run(Next(w, IncludeContext(false)), steps).posted[i].webContext == None
  {
    NoPageWhileOff(Next(w, IncludeContext(false)), steps, i);
  }

  /** A captured page travels with the next message. */
  lemma CapturedPageIsSent(w: World, page: Bundle, text: string)
    requires Inv(w) && !w.store.streaming && Trim(text) != []
    ensures var v := Next(Next(w, AskAi(page)), Send(text));
      |v.posted| == |w.posted| + 1 && v.posted[|w.posted|].webContext == Some(page)
    ensures Next(w, AskAi(page)).posted == w.posted
  {
    var asked := Next(w, AskAi(page));
    hide Inv, BeginSend, Trim;
    BeginSendUnfolds(asked, Trim(text), true);
  }

  // --------------------------------------------------------- failure and Retry

  /** `base` is a transcript whose last turn is the user turn a Retry would resend. */
  ghost predicate EndsWithUser(base: seq<Turn>) {
    base != [] && base[|base| - 1].role.User? && Trim(base[|base| - 1].content) != []
  }

  /** Request `id` is current and streams into the turn right after `base`. */
  ghost predicate StreamingAfter(w: World, base: seq<Turn>, id: Id) {
    && Inv(w) && EndsWithUser(base) && Listed(w.store)
    && w.abort == Some(id)
    && |ActiveTurns(w.store)| == |base| + 1 && base <= ActiveTurns(w.store)
    && ActiveTurns(w.store)[|base|].id == w.inflight[id].turnId
  }

  /** Nothing streams, and only failed assistant turns follow `base`. */
  ghost predicate FailedAfter(w: World, base: seq<Turn>) {
    && Inv(w) && EndsWithUser(base) && Listed(w.store)
    && !w.store.streaming
    && base <= ActiveTurns(w.store)
    && forall k | |base| <= k < |ActiveTurns(w.store)| ::
         ActiveTurns(w.store)[k].role.Assistant? && ActiveTurns(w.store)[k].failed
  }

  ghost predicate SameContext(w: World, v: World) {
    v.store.webContext == w.store.webContext && v.store.includeContext == w.store.includeContext
  }

  lemma ActiveIndex(s: ChatState) returns (i: nat)
    requires Listed(s) && DistinctIds(s.conversations)
    ensures i < |s.conversations| && s.active == Some(s.conversations[i].id)
    ensures ActiveTurns(s) == s.conversations[i].turns
  {
    i :| 0 <= i < |s.conversations| && s.conversations[i].id == s.active.value;
    ActiveTurnsAt(s, i);
  }

  /** The turns before the one being streamed are neither streaming nor written to. */
  lemma BaseIsQuiet(w: World, base: seq<Turn>, id: Id)
    requires StreamingAfter(w, base, id)
    ensures forall k | 0 <= k < |base| ::
      base[k] == ActiveTurns(w.store)[k] && base[k].id != w.inflight[id].turnId && !base[k].streaming
    ensures ActiveTurns(w.store)[|base|].role.Assistant? && ActiveTurns(w.store)[|base|].streaming
  {
    var i := ActiveIndex(w.store);
    var turns := w.store.conversations[i].turns;
    forall k | 0 <= k < |base|
      ensures base[k] == turns[k] && base[k].id != w.inflight[id].turnId && !base[k].streaming
    {
      assert turns[k].id != turns[|base|].id;
      assert TurnOk(turns[k], CurrentTurn(w));
    }
    assert TurnOk(turns[|base|], CurrentTurn(w));
  }

  lemma {:induction false} FailedTailDropped(base: seq<Turn>, turns: seq<Turn>)
    requires EndsWithUser(base) && base <= turns
    requires forall k | |base| <= k < |turns| :: turns[k].role.Assistant? && turns[k].failed
    ensures WithoutFailedTail(turns) == base
  {
    if |turns| > |base| {
      FailedTailDropped(base, turns[..|turns| - 1]);
    } else {
      assert turns == base;
    }
  }

  lemma {:induction false} LastUserTextOf(base: seq<Turn>, turns: seq<Turn>)
    requires EndsWithUser(base) && base <= turns
    requires forall k | |base| <= k < |turns| :: turns[k].role.Assistant?
    ensures LastUserText(turns) == Some(base[|base| - 1].content)
  {
    if |turns| > |base| {
      LastUserTextOf(base, turns[..|turns| - 1]);
    } else {
      assert turns == base;
    }
  }

  lemma TrimOfEmpty()
    ensures Trim("") == ""
  {
  }

  lemma RetryIsSend(w: World, text: string)
    requires !w.store.streaming && LastUserMessage(w.store) == Some(text) && text != []
    ensures Next(w, Retry) == BeginSend(w.(store := SetDraft(DropFailedTail(w.store), "")), text, false)
  {
    hide BeginSend, DropFailedTail, SetDraft;
  }

  /** Retry drops the failed tail, and what is left is the transcript to resend. */
  lemma RetryReopens(w: World, base: seq<Turn>)
    requires FailedAfter(w, base)
    ensures var s := SetDraft(DropFailedTail(w.store), "");
      && Inv(w.(store := s)) && Listed(s) && ActiveTurns(s) == base
      && s.streaming == w.store.streaming && SameContext(w, w.(store := s))
  {
    var s := SetDraft(DropFailedTail(w.store), "");
    InvFacts(w);
    var i := ActiveIndex(w.store);
    FailedTailDropped(base, ActiveTurns(w.store));
    DropTailKeeps(w.store, CurrentTurn(w), w.inflight, w.nextId);
    assert s.conversations[i].turns == base;
    ActiveTurnsAt(s, i);
  }

  lemma TextToResend(w: World, base: seq<Turn>)
    requires FailedAfter(w, base)
    ensures LastUserMessage(w.store) == Some(base[|base| - 1].content) && base[|base| - 1].content != []
  {
    hide Inv;
    LastUserTextOf(base, ActiveTurns(w.store));
    TrimOfEmpty();
  }

  lemma RetryStreamsAgain(w: World, base: seq<Turn>)
    requires FailedAfter(w, base)
    ensures var v := Next(w, Retry);
      && StreamingAfter(v, base, w.nextId + 4) && v.nextId == w.nextId + 5 && SameContext(w, v)
      && PostedAgain(w.posted, v.posted,
                     Post(Messages(base), if w.store.includeContext then w.store.webContext else None), 1)
  {
    hide StreamingAfter, Inv, Next, BeginSend, PostedAgain, DropFailedTail, SetDraft, LastUserMessage;
    var s := SetDraft(DropFailedTail(w.store), "");
    RetryReopens(w, base);
    TextToResend(w, base);
    RetryIsSend(w, base[|base| - 1].content);
    SendStreamsInto(w.(store := s), base[|base| - 1].content, false, base);
  }

  lemma BeginSendShape(w: World, text: string, appendUserTurn: bool)
    ensures var v := BeginSend(w, text, appendUserTurn);
      && v.abort == Some(w.nextId + 4) && v.nextId == w.nextId + 5 && SameContext(w, v)
      && w.nextId + 4 in v.inflight && v.inflight[w.nextId + 4].turnId == w.nextId + 2
  {
  }

  lemma SendStreamsInto(w: World, text: string, appendUserTurn: bool, base: seq<Turn>)
    requires Inv(w) && !w.store.streaming && EndsWithUser(base)
    requires Listed(w.store) || (appendUserTurn && !FullOfPinned(w.store))
    requires base == OpenedBase(w.store, text, appendUserTurn, w.nextId)
    ensures var v := BeginSend(w, text, appendUserTurn);
      var post := Post(Messages(base), if w.store.includeContext then w.store.webContext else None);
      && StreamingAfter(v, base, w.nextId + 4) && v.nextId == w.nextId + 5 && SameContext(w, v)
      && PostedAgain(w.posted, v.posted, post, 1)
  {
    hide BeginSend, Inv, Messages, OpenedBase, FullOfPinned, StreamingAfter, PostedAgain, ActiveTurns, Listed,
         EndsWithUser;
    var v := BeginSend(w, text, appendUserTurn);
    BeginSendPosts(w, text, appendUserTurn);
    BeginSendKeeps(w, text, appendUserTurn);
    BeginSendShape(w, text, appendUserTurn);
    PlaceholderStreams(v, base, w.nextId);
    PostedOnce(w.posted, v.posted, Post(Messages(base), if w.store.includeContext then w.store.webContext else None));
  }

  lemma PostedOnce(before: seq<Post>, after: seq<Post>, post: Post)
    requires |after| == |before| + 1 && after[..|before|] == before && after[|before|] == post
    ensures PostedAgain(before, after, post, 1)
  {
  }

  lemma PlaceholderStreams(v: World, base: seq<Turn>, n: Id)
    requires Inv(v) && EndsWithUser(base) && Listed(v.store) && v.abort == Some(n + 4)
    requires n + 4 in v.inflight && v.inflight[n + 4].turnId == n + 2
    requires ActiveTurns(v.store) == base + [Placeholder(n + 2)]
    ensures StreamingAfter(v, base, n + 4)
  {
  }

  /** `count` more posts, all of them `post`. */
  ghost predicate PostedAgain(before: seq<Post>, after: seq<Post>, post: Post, count: nat) {
    && |after| == |before| + count
    && before == after[..|before|]
    && forall i | |before| <= i < |after| :: after[i] == post
  }

  lemma SendStreams(w: World, text: string)
    requires Inv(w) && !w.store.streaming && Trim(text) != []
    requires Listed(w.store) || !FullOfPinned(w.store)
    ensures var v := Next(w, Send(text));
      var base := ActiveTurns(w.store) + [UserTurn(w.nextId, Trim(text))];
      var post := Post(Messages(base), if w.store.includeContext then w.store.webContext else None);
      && StreamingAfter(v, base, w.nextId + 4) && v.nextId == w.nextId + 5 && SameContext(w, v)
      && PostedAgain(w.posted, v.posted, post, 1)
  {
    SendBase(w, text);
    hide Inv, BeginSend, StreamingAfter, PostedAgain, Messages, Listed, FullOfPinned, ActiveTurns, EndsWithUser,
         OpenedBase;
    SendStreamsInto(w, Trim(text), true, ActiveTurns(w.store) + [UserTurn(w.nextId, Trim(text))]);
  }

  lemma SendBase(w: World, text: string)
    requires Trim(text) != []
    ensures var base := ActiveTurns(w.store) + [UserTurn(w.nextId, Trim(text))];
      EndsWithUser(base) && base == OpenedBase(w.store, Trim(text), true, w.nextId)
  {
    hide ActiveTurns, Trim;
    TrimTwice(text);
  }
}
