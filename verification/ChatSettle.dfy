/** How an answer ends: what the turn, the composer and the page look like once its request has settled. */
module ChatSettle {
  import opened Options
  import opened Text
  import opened Conversations
  import opened ChatStore
  import opened ChatProtocol
  import opened ChatSafety

  // ------------------------------------------------------------------ one settling

  /** The same chats and turns, of which only those with id `turnId` may differ. */
  ghost predicate OnlyTurn(before: seq<Conversation>, after: seq<Conversation>, turnId: Id) {
    && |after| == |before|
    && (forall i | 0 <= i < |before| ::
          after[i].id == before[i].id && after[i].pinned == before[i].pinned && |after[i].turns| == |before[i].turns|)
    && forall i, k | 0 <= i < |before| && 0 <= k < |before[i].turns| && before[i].turns[k].id != turnId ::
         after[i].turns[k] == before[i].turns[k]
  }

  /** Wherever turn `turnId` is listed, it shows these words and marks, and is otherwise the turn it was. */
  ghost predicate Shows(before: seq<Conversation>, after: seq<Conversation>, turnId: Id, content: string,
                        toolCalls: seq<ToolCall>, failed: bool) {
    forall i, k | 0 <= i < |before| && i < |after| && 0 <= k < |before[i].turns| && k < |after[i].turns|
                  && before[i].turns[k].id == turnId ::
      var now := after[i].turns[k];
      && now.id == turnId && now.role == before[i].turns[k].role
      && now.content == content && now.toolCalls == toolCalls
      && !now.streaming && !now.stopped && now.failed == failed
  }

  /** What settling never touches: other requests, the posts, the active chat. */
  predicate OnlyLeft(w: World, v: World, id: Id) {
    && v.abort == None && v.inflight == w.inflight - {id}
    && v.nextId == w.nextId && v.posted == w.posted && v.store.active == w.store.active
  }

  /** The current request `id` has been answered in full. */
  ghost predicate Answered(w: World, v: World, id: Id)
    requires id in w.inflight
  {
    var request := w.inflight[id];
    && OnlyLeft(w, v, id) && !v.store.streaming
    && OnlyTurn(w.store.conversations, v.store.conversations, request.turnId)
    && Shows(w.store.conversations, v.store.conversations, request.turnId, request.reply, request.toolCalls, false)
    && v.store.draft == w.store.draft
    && v.store.status == (if request.toolCalls == [] then "" else TOOL_PROPOSAL)
    && if request.webContext.Some? then v.store.webContext == None && !v.store.includeContext
       else v.store.webContext == w.store.webContext && v.store.includeContext == w.store.includeContext
  }

  /** The current request `id` has failed with `message`: the text goes back to the composer, the page stays. */
  ghost predicate Failed(w: World, v: World, id: Id, message: string)
    requires id in w.inflight
  {
    var request := w.inflight[id];
    && OnlyLeft(w, v, id) && !v.store.streaming
    && OnlyTurn(w.store.conversations, v.store.conversations, request.turnId)
    && Shows(w.store.conversations, v.store.conversations, request.turnId, request.reply, request.toolCalls, true)
    && v.store.draft == (if |request.text| <= 8000 then request.text else request.text[..8000])
    && v.store.status == message
    && v.store.webContext == w.store.webContext && v.store.includeContext == w.store.includeContext
  }

  lemma TurnsAreFine(w: World)
    requires Inv(w)
    ensures forall i, k | 0 <= i < |w.store.conversations| && 0 <= k < |w.store.conversations[i].turns| ::
      TurnOk(w.store.conversations[i].turns[k], CurrentTurn(w))
  {
  }

  lemma DoneAnswers(w: World, id: Id)
    requires Inv(w) && w.abort == Some(id) && id in w.inflight
    ensures Answered(w, SettleDone(w, id), id)
  {
    TurnsAreFine(w);
    hide Inv;
    var request, v := w.inflight[id], SettleDone(w, id);
    var patch := Patch(request.reply, request.toolCalls, Some(false), None);
    var before, after := w.store.conversations, v.store.conversations;
    assert after == PatchTurn(w.store, request.turnId, patch).conversations;
    forall i, k | 0 <= i < |before| && 0 <= k < |before[i].turns|
      ensures after[i].turns[k]
           == if before[i].turns[k].id == request.turnId then Patched(before[i].turns[k], patch) else before[i].turns[k]
    {
    }
  }

  lemma FailingFails(w: World, id: Id, message: string)
    requires Inv(w) && w.abort == Some(id) && id in w.inflight
    ensures Failed(w, SettleFailed(w, id, message), id, message)
  {
    TurnsAreFine(w);
    hide Inv;
    var request, v := w.inflight[id], SettleFailed(w, id, message);
    var patch := Patch(request.reply, request.toolCalls, Some(false), Some(true));
    var before, after := w.store.conversations, v.store.conversations;
    forall i, k | 0 <= i < |before| && 0 <= k < |before[i].turns|
      ensures after[i].turns[k]
           == if before[i].turns[k].id == request.turnId then Patched(before[i].turns[k], patch) else before[i].turns[k]
    {
      assert TurnOk(before[i].turns[k], CurrentTurn(w));
    }
  }

  /**
   * How the current request ends: without an error event its turn is complete, neither streaming nor stopped
   * nor failed, and shows the reply; with one, or when the request is rejected, its turn has failed.
   */
  lemma SettlingEnds(w: World, id: Id, message: string)
    requires Inv(w) && w.abort == Some(id)
    ensures id in w.inflight
    ensures w.inflight[id].streamError == "" ==> Answered(w, Next(w, Resolve(id)), id)
    ensures w.inflight[id].streamError != "" ==> Failed(w, Next(w, Resolve(id)), id, w.inflight[id].streamError)
    ensures Failed(w, Next(w, Reject(id, message)), id, message)
  {
    assert id in w.inflight by { InvFacts(w); }
    hide Inv, Answered, Failed, SettleDone, SettleFailed;
    DoneAnswers(w, id);
    FailingFails(w, id, message);
    FailingFails(w, id, w.inflight[id].streamError);
  }

  // ---------------------------------------------------------------- over a run

  datatype Ending = Streaming | Stopped | Broken | Complete

  /**
   * How the answer of request `id` stands after some steps, read off the steps alone. `erred` says whether an
   * error event has been delivered to it.
   */
  function EndingOf(steps: seq<Step>, id: Id, erred: bool): Ending {
    if steps == [] then Streaming
    else
      match steps[0]
      case Stop => Stopped
      case Reject(request, _) => if request == id then Broken else EndingOf(steps[1..], id, erred)
      case Resolve(request) =>
        if request != id then EndingOf(steps[1..], id, erred) else if erred then Broken else Complete
      case Receive(request, ErrorEvent(_)) => EndingOf(steps[1..], id, erred || request == id)
      case _ => EndingOf(steps[1..], id, erred)
  }

  /** Wherever turn `turnId` is listed, its marks say `ending`. */
  ghost predicate Marked(list: seq<Conversation>, turnId: Id, ending: Ending) {
    forall i, k | 0 <= i < |list| && 0 <= k < |list[i].turns| && list[i].turns[k].id == turnId ::
      MarkedAs(list[i].turns[k], ending)
  }

  predicate MarkedAs(t: Turn, ending: Ending) {
    t.streaming == ending.Streaming? && t.stopped == ending.Stopped? && t.failed == ending.Broken?
  }

  lemma CurrentIsStreaming(w: World, id: Id)
    requires Inv(w) && w.abort == Some(id)
    ensures id in w.inflight && w.inflight[id].turnId < w.nextId
    ensures Marked(w.store.conversations, w.inflight[id].turnId, Streaming)
  {
    TurnsAreFine(w);
  }

  lemma StoppingMarks(w: World, id: Id)
    requires Inv(w) && w.abort == Some(id) && id in w.inflight
    ensures Marked(Next(w, Stop).store.conversations, w.inflight[id].turnId, Stopped)
  {
    var list, turnId := Next(w, Stop).store.conversations, w.inflight[id].turnId;
    TurnsAreFine(w);
    forall i, k | 0 <= i < |list| && 0 <= k < |list[i].turns| && list[i].turns[k].id == turnId
      ensures MarkedAs(list[i].turns[k], Stopped)
    {
      assert TurnOk(w.store.conversations[i].turns[k], CurrentTurn(w));
    }
  }

  lemma AnsweredMarks(w: World, v: World, id: Id)
    requires id in w.inflight && Answered(w, v, id)
    ensures Marked(v.store.conversations, w.inflight[id].turnId, Complete)
  {
  }

  lemma FailedMarks(w: World, v: World, id: Id, message: string)
    requires id in w.inflight && Failed(w, v, id, message)
    ensures Marked(v.store.conversations, w.inflight[id].turnId, Broken)
  {
  }

  /** What a turn that no longer streams is marked as stays over every run. */
  lemma MarksStay(w: World, steps: seq<Step>, turnId: Id, ending: Ending)
    requires Inv(w) && Marked(w.store.conversations, turnId, ending) && !ending.Streaming? && turnId < w.nextId
    ensures Marked(Run(w, steps).store.conversations, turnId, ending)
  {
    RunKeeps(w, steps);
    var before, after := w.store.conversations, Run(w, steps).store.conversations;
    forall j, l | 0 <= j < |after| && 0 <= l < |after[j].turns| && after[j].turns[l].id == turnId
      ensures MarkedAs(after[j].turns[l], ending)
    {
      assert HasOrigin(before, after[j].turns[l]);
      var i, k :| 0 <= i < |before| && 0 <= k < |before[i].turns| && Evolved(before[i].turns[k], after[j].turns[l]);
      assert MarkedAs(before[i].turns[k], ending);
    }
  }

  predicate Ends(step: Step, id: Id) {
    step.Stop? || (step.Reject? && step.request == id) || (step.Resolve? && step.request == id)
  }

  /** A step that does not end the current request leaves it current; its error is set by error events alone. */
  lemma StaysCurrent(w: World, step: Step, id: Id)
    requires Inv(w) && w.abort == Some(id) && !Ends(step, id)
    ensures var v := Next(w, step);
      && v.abort == Some(id) && id in w.inflight && id in v.inflight
      && v.inflight[id].turnId == w.inflight[id].turnId && v.inflight[id].text == w.inflight[id].text
      && v.inflight[id].webContext == w.inflight[id].webContext
      && (v.inflight[id].streamError != "" <==> w.inflight[id].streamError != "" || ErrorFor(step, id))
  {
    InvFacts(w);
    NextIdIsNew(w, id);
    hide Inv, Opened, PatchTurn, Trim, LastUserMessage, DropFailedTail, Transcript, ActiveTurns, NewConversation,
         RemoveConversation, TogglePinned;
    if step.Receive? && step.event.ErrorEvent? {
      assert SafeContent(step.event.content) != "";
    }
  }

  /** An error event leaves one of the known sentences, its own if it is one of them. */
  lemma ErrorIsNamedSafely(w: World, id: Id, content: string)
    requires id in w.inflight
    ensures var v := Next(w, Receive(id, ErrorEvent(content)));
      && v == w.(inflight := w.inflight[id := w.inflight[id].(streamError := v.inflight[id].streamError)])
      && v.inflight[id].streamError in {
           "Invalid API key", "Rate limit reached", "Provider unavailable", "Backend unreachable", "Streaming stopped",
           "LLM provider is not configured", "Provider rejected the request"}
      && v.inflight[id].streamError == if content in SAFE_MESSAGES then content else "Provider unavailable"
  {
  }

  predicate ErrorFor(step: Step, id: Id) {
    step.Receive? && step.event.ErrorEvent? && step.request == id
  }

  lemma NextIdIsNew(w: World, id: Id)
    requires Inv(w) && id in w.inflight
    ensures id < w.nextId
  {
  }

  /**
   * Over every run the marks of the answer's turn are told by the steps alone: it streams until Stop, a
   * rejection or its resolution, whichever comes first, and ends stopped, failed, or complete unless an error
   * event came before.
   */
  lemma {:induction false} AnswersEndAsTold(w: World, steps: seq<Step>, id: Id)
    requires Inv(w) && w.abort == Some(id) && id in w.inflight
    ensures Marked(Run(w, steps).store.conversations, w.inflight[id].turnId,
                   EndingOf(steps, id, w.inflight[id].streamError != ""))
    decreases steps
  {
    hide Inv, Marked, Answered, Failed, Next;
    CurrentIsStreaming(w, id);
    if steps != [] {
      var step, v, turnId := steps[0], Next(w, steps[0]), w.inflight[id].turnId;
      StepKeeps(w, step);
      IdsGrow(w, step);
      if Ends(step, id) {
        var ending := EndingOf(steps, id, w.inflight[id].streamError != "");
        SettlingEnds(w, id, if step.Reject? then step.message else "");
        if step.Stop? {
          StoppingMarks(w, id);
        } else if ending.Complete? {
          AnsweredMarks(w, v, id);
        } else {
          FailedMarks(w, v, id, if step.Reject? then step.message else w.inflight[id].streamError);
        }
        MarksStay(v, steps[1..], turnId, ending);
      } else {
        StaysCurrent(w, step, id);
        AnswersEndAsTold(v, steps[1..], id);
      }
    }
  }

  lemma IdsGrow(w: World, step: Step)
    ensures w.nextId <= Next(w, step).nextId
  {
  }

  // ------------------------------------------------------------- the text comes back

  /** No step of the run ends request `id`. */
  predicate NoneEnds(steps: seq<Step>, id: Id) {
    forall k | 0 <= k < |steps| :: !Ends(steps[k], id)
  }

  lemma {:induction false} RequestKeeps(w: World, steps: seq<Step>, id: Id)
    requires Inv(w) && w.abort == Some(id) && id in w.inflight && NoneEnds(steps, id)
    ensures var v := Run(w, steps);
      && Inv(v) && v.abort == Some(id) && id in v.inflight
      && v.inflight[id].turnId == w.inflight[id].turnId && v.inflight[id].text == w.inflight[id].text
      && v.inflight[id].webContext == w.inflight[id].webContext
    decreases steps
  {
    hide Inv, Next;
    if steps != [] {
      StepKeeps(w, steps[0]);
      assert !Ends(steps[0], id);
      assert forall k | 0 <= k < |steps[1..]| :: steps[1..][k] == steps[k + 1];
      StaysCurrent(w, steps[0], id);
      RequestKeeps(Next(w, steps[0]), steps[1..], id);
    }
  }

  lemma SendOpens(w: World, text: string)
    requires Inv(w) && !w.store.streaming && Trim(text) != []
    ensures var v := Next(w, Send(text));
      && Inv(v) && v.abort == Some(w.nextId + 4) && w.nextId + 4 in v.inflight
      && v.inflight[w.nextId + 4] == Request(w.nextId + 2, Trim(text),
           if w.store.includeContext then w.store.webContext else None, "", [], "")
      && v.store.streaming && v.store.draft == "" && v.store.status == ""
  {
    StepKeeps(w, Send(text));
    hide Inv, AppendTurn, Trim, Transcript, ActiveTurns;
  }

  /** A blank text, a running stream or, for Retry, no user message: nothing is sent and nothing changes. */
  lemma NothingToSend(w: World, text: string)
    ensures Blank(text) || w.store.streaming ==> Next(w, Send(text)) == w
    ensures LastUserMessage(w.store).None? || w.store.streaming ==> Next(w, Retry) == w
  {
    TrimEmptyIffBlank(text);
    hide BeginSend, LastUserMessage, Trim, Blank;
  }

  /** Retry, when it sends, opens a request for the last user message, under new ids. */
  lemma RetryOpens(w: World)
    requires Inv(w) && !w.store.streaming && LastUserMessage(w.store).Some? && LastUserMessage(w.store).value != []
    ensures var v := Next(w, Retry);
      && Inv(v) && v.abort == Some(w.nextId + 4) && w.nextId + 4 in v.inflight
      && v.inflight[w.nextId + 4] == Request(w.nextId + 2, LastUserMessage(w.store).value,
           if w.store.includeContext then w.store.webContext else None, "", [], "")
      && v.store.streaming && v.store.draft == "" && v.store.status == ""
  {
    StepKeeps(w, Retry);
    hide Inv, AppendTurn, Trim, Transcript, ActiveTurns, LastUserMessage;
  }

  /**
   * A send empties the composer; if its request is rejected, whatever was typed, captured or clicked in
   * between, the composer holds the sent text again, and the page is the one there was just before.
   */
  lemma FailedSendGivesTheTextBack(w: World, text: string, steps: seq<Step>, message: string)
    requires Inv(w) && !w.store.streaming && Trim(text) != [] && NoneEnds(steps, w.nextId + 4)
    ensures var id, first := w.nextId + 4, Next(w, Send(text));
      var late := Run(first, steps);
      var v := Next(late, Reject(id, message));
      && first.store.draft == "" && first.store.streaming
      && v.store.draft == (if |Trim(text)| <= 8000 then Trim(text) else Trim(text)[..8000])
      && v.store.status == message && !v.store.streaming && v.store.webContext == late.store.webContext
  {
    hide Inv, Next, Run, Trim, OnlyTurn, Shows;
    SendOpens(w, text);
    var id, first := w.nextId + 4, Next(w, Send(text));
    RequestKeeps(first, steps, id);
    SettlingEnds(Run(first, steps), id, message);
  }
}
