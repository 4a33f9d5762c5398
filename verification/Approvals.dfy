/**
 * The approval protocol for captured actions.
 *
 * A handler runs from a click to its next network await; the Bridge's reply is a step of its own
 * and may come in any order with clicks and other replies. The trace lists what was sent to the
 * Bridge and what came back, oldest first.
 */
module Approvals {
  import opened Options
  import opened Sequences

  type Id = nat

  /** The Bridge's name for one approval request. */
  type RequestId = string

  datatype ApprovalState = Pending | Approving | Approved | Rejected | Failed

  /** A captured action. `mutating` tells workspace writes from reads. */
  datatype Action = Action(id: Id, fingerprint: string, mutating: bool, state: ApprovalState,
                           bridgeRequestId: Option<RequestId>)

  /** Where an approve handler waits. */
  datatype Phase = Staging | Executing(requestId: RequestId) | Reading

  datatype Event =
    | Clicked(id: Id)
    | StageSent(id: Id)
    | StageReturned(id: Id, requestId: RequestId)
    | ApproveSent(id: Id, requestId: RequestId)
    | ApproveReturned(id: Id)
    | ReadSent(id: Id)
    | ReadReturned(id: Id)
    | RecoveredApproveSent(requestId: RequestId)

  /** The captured action an event is about. */
  function Subject(e: Event): Option<Id> {
    match e
    case RecoveredApproveSent(_) => None
    case _ => Some(e.id)
  }

  datatype Queue = Queue(actions: seq<Action>, waiting: map<Id, Phase>, trace: seq<Event>, nextId: Id)

  /** One result of the action parser: a valid block, or one that was ignored. */
  datatype ParseResult = Valid(fingerprint: string, mutating: bool) | Ignored

  datatype Step =
    | Capture(results: seq<ParseResult>)
    | Approve(id: Id)
    | Reject(id: Id)
    | ApproveRecovered(requestId: RequestId)
    | StageReply(id: Id, reply: Option<RequestId>)
    | ApproveReply(id: Id, ok: bool)
    | ReadReply(id: Id, ok: bool)
    | Reload

  const EMPTY: Queue := Queue([], map[], [], 0)

  // ----------------------------------------------------------- step functions

  function Find(actions: seq<Action>, id: Id): (r: Option<Action>)
    ensures r.Some? ==> r.value in actions && r.value.id == id
    ensures r.None? ==> forall i | 0 <= i < |actions| :: actions[i].id != id
  {
    if actions == [] then None
    else if actions[0].id == id then Some(actions[0])
    else Find(actions[1..], id)
  }

  predicate Known(actions: seq<Action>, fingerprint: string) {
    exists i | 0 <= i < |actions| :: actions[i].fingerprint == fingerprint
  }

  function AddPending(actions: seq<Action>, action: Action): seq<Action> {
    if Known(actions, action.fingerprint) then actions else actions + [action]
  }

  /** The queue after the parser's results; every valid one uses up an id. */
  function Captured(q: Queue, results: seq<ParseResult>): Queue
    decreases results
  {
    if results == [] then q
    else
      match results[0]
      case Ignored => Captured(q, results[1..])
      case Valid(fingerprint, mutating) =>
        var action := Action(q.nextId, fingerprint, mutating, Pending, None);
        Captured(q.(actions := AddPending(q.actions, action), nextId := q.nextId + 1), results[1..])
  }

  function Change(actions: seq<Action>, id: Id, state: ApprovalState): (r: seq<Action>)
    ensures |r| == |actions|
    ensures forall i | 0 <= i < |r| :: r[i] == if actions[i].id == id then actions[i].(state := state) else actions[i]
  {
    seq(|actions|, i requires 0 <= i < |actions| =>
      if actions[i].id == id then actions[i].(state := state) else actions[i])
  }

  function Name(actions: seq<Action>, id: Id, requestId: RequestId): (r: seq<Action>)
    ensures |r| == |actions|
    ensures forall i | 0 <= i < |r| ::
      r[i] == if actions[i].id == id then actions[i].(bridgeRequestId := Some(requestId)) else actions[i]
  {
    seq(|actions|, i requires 0 <= i < |actions| =>
      if actions[i].id == id then actions[i].(bridgeRequestId := Some(requestId)) else actions[i])
  }

  predicate IsPending(q: Queue, id: Id) {
    var action := Find(q.actions, id);
    action.Some? && action.value.state == Pending
  }

  function OnApprove(q: Queue, id: Id): Queue {
    if !IsPending(q, id) then q
    else
      var mutating := Find(q.actions, id).value.mutating;
      q.(actions := Change(q.actions, id, Approving),
         waiting := q.waiting[id := if mutating then Staging else Reading],
         trace := q.trace + [Clicked(id), if mutating then StageSent(id) else ReadSent(id)])
  }

  function OnReject(q: Queue, id: Id): Queue {
    if !IsPending(q, id) then q else q.(actions := Change(q.actions, id, Rejected))
  }

  function OnStageReply(q: Queue, id: Id, reply: Option<RequestId>): Queue {
    match reply
    case None => Fail(q, id)
    case Some(requestId) =>
      q.(actions := Name(q.actions, id, requestId),
         waiting := q.waiting[id := Executing(requestId)],
         trace := q.trace + [StageReturned(id, requestId), ApproveSent(id, requestId)])
  }

  function Fail(q: Queue, id: Id): Queue {
    q.(actions := Change(q.actions, id, Failed), waiting := q.waiting - {id})
  }

  function Finish(q: Queue, id: Id, event: Event): Queue {
    q.(actions := Change(q.actions, id, Approved), waiting := q.waiting - {id}, trace := q.trace + [event])
  }

  function Next(q: Queue, step: Step): Queue {
    match step
    case Capture(results) => Captured(q, results)
    case Approve(id) => OnApprove(q, id)
    case Reject(id) => OnReject(q, id)
    case ApproveRecovered(requestId) => q.(trace := q.trace + [RecoveredApproveSent(requestId)])
    case StageReply(id, reply) =>
      if id in q.waiting && q.waiting[id].Staging? then OnStageReply(q, id, reply) else q
    case ApproveReply(id, ok) =>
      if id in q.waiting && q.waiting[id].Executing? then
        if ok then Finish(q, id, ApproveReturned(id)) else Fail(q, id)
      else q
    case ReadReply(id, ok) =>
      if id in q.waiting && q.waiting[id].Reading? then
        if ok then Finish(q, id, ReadReturned(id)) else Fail(q, id)
      else q
    case Reload => q.(waiting := map[])
  }

  function Run(q: Queue, steps: seq<Step>): Queue
    decreases steps
  {
    if steps == [] then q else Run(Next(q, steps[0]), steps[1..])
  }

  lemma {:induction false} RunAppend(q: Queue, a: seq<Step>, b: seq<Step>)
    ensures Run(q, a + b) == Run(Run(q, a), b)
    decreases a
  {
    if a == [] {
      assert a + b == b;
    } else {
      Uncons(a, b);
      RunAppend(Next(q, a[0]), a[1..], b);
    }
  }

  // ------------------------------------------------------------ the invariant

  ghost predicate Earlier(trace: seq<Event>, event: Event, k: nat) {
    exists j | 0 <= j < |trace| :: j < k && trace[j] == event
  }

  /** `first` occurs in the trace, and `second` after it. */
  ghost predicate InOrder(trace: seq<Event>, first: Event, second: Event) {
    exists k | 0 <= k < |trace| :: trace[k] == second && Earlier(trace, first, k)
  }

  /** Nothing about `id` happened before position `k`. */
  predicate NothingBefore(trace: seq<Event>, id: Id, k: nat) {
    forall j | 0 <= j < |trace| :: j < k ==> Subject(trace[j]) != Some(id)
  }

  /** Of `id`, only the click and the first call happened before position `k`. */
  predicate OnlyStagedBefore(trace: seq<Event>, id: Id, k: nat) {
    forall j | 0 <= j < |trace| :: j < k && Subject(trace[j]) == Some(id) ==> trace[j].Clicked? || trace[j].StageSent?
  }

  /** An action is clicked once; every call follows its click, and an approve call what staging returned. */
  ghost predicate EventOk(trace: seq<Event>, k: nat)
    requires k < |trace|
  {
    var previous := if k > 0 then Some(trace[k - 1]) else None;
    match trace[k]
    case Clicked(id) => NothingBefore(trace, id, k)
    case StageSent(id) => previous == Some(Clicked(id))
    case ReadSent(id) => previous == Some(Clicked(id))
    case StageReturned(id, _) => Earlier(trace, StageSent(id), k) && OnlyStagedBefore(trace, id, k)
    case ApproveSent(id, r) => previous == Some(StageReturned(id, r))
    case _ => true
  }

  ghost predicate TraceOk(trace: seq<Event>) {
    forall k | 0 <= k < |trace| :: EventOk(trace, k)
  }

  /** What the trace says about one action, read off its state. After a reload nobody waits for an approving card. */
  ghost predicate ActionOk(a: Action, phase: Option<Phase>, trace: seq<Event>) {
    match a.state
    case Pending => phase.None? && NothingBefore(trace, a.id, |trace|)
    case Rejected => phase.None? && NothingBefore(trace, a.id, |trace|)
    case Approving => phase.Some? ==> WaitOk(a, phase.value, trace)
    case Approved => phase.None? && DoneOk(a, trace)
    case Failed => phase.None?
  }

  ghost predicate WaitOk(a: Action, phase: Phase, trace: seq<Event>) {
    match phase
    case Staging => a.mutating && StageSent(a.id) in trace && OnlyStagedBefore(trace, a.id, |trace|)
    case Reading => !a.mutating && ReadSent(a.id) in trace
    case Executing(r) => a.mutating && a.bridgeRequestId == Some(r) && ApproveSent(a.id, r) in trace
  }

  ghost predicate DoneOk(a: Action, trace: seq<Event>) {
    if a.mutating then
      a.bridgeRequestId.Some? && InOrder(trace, ApproveSent(a.id, a.bridgeRequestId.value), ApproveReturned(a.id))
    else
      InOrder(trace, ReadSent(a.id), ReadReturned(a.id))
  }

  predicate DistinctIds(actions: seq<Action>) {
    forall i, j | 0 <= i < j < |actions| :: actions[i].id != actions[j].id
  }

  predicate DistinctFingerprints(actions: seq<Action>) {
    forall i, j | 0 <= i < j < |actions| :: actions[i].fingerprint != actions[j].fingerprint
  }

  function PhaseOf(waiting: map<Id, Phase>, id: Id): Option<Phase> {
    if id in waiting then Some(waiting[id]) else None
  }

  ghost predicate ActionsOk(q: Queue) {
    forall i | 0 <= i < |q.actions| ::
      q.actions[i].id < q.nextId && ActionOk(q.actions[i], PhaseOf(q.waiting, q.actions[i].id), q.trace)
  }

  /** Only actions on the list wait, and ids not handed out yet occur nowhere. */
  ghost predicate IdsOk(q: Queue) {
    && (forall id | id in q.waiting :: Find(q.actions, id).Some?)
    && (forall k | 0 <= k < |q.trace| :: Subject(q.trace[k]).Some? ==> Subject(q.trace[k]).value < q.nextId)
  }

  ghost predicate Inv(q: Queue) {
    DistinctIds(q.actions) && DistinctFingerprints(q.actions) && TraceOk(q.trace) && ActionsOk(q) && IdsOk(q)
  }

  // ------------------------------------------------ every step keeps the invariant

  /** What holds of the events before position `k` does not depend on later ones. */
  lemma PastIsFixed(trace: seq<Event>, more: seq<Event>, event: Event, id: Id, k: nat)
    requires k <= |trace|
    ensures Earlier(trace + more, event, k) <==> Earlier(trace, event, k)
    ensures NothingBefore(trace + more, id, k) <==> NothingBefore(trace, id, k)
    ensures OnlyStagedBefore(trace + more, id, k) <==> OnlyStagedBefore(trace, id, k)
  {
    assert forall j | 0 <= j < k :: (trace + more)[j] == trace[j];
    if Earlier(trace, event, k) {
      var j :| 0 <= j < |trace| && j < k && trace[j] == event;
      assert (trace + more)[j] == event;
    }
    if NothingBefore(trace + more, id, k) {
      forall j | 0 <= j < |trace| && j < k
        ensures Subject(trace[j]) != Some(id)
      {
        assert Subject((trace + more)[j]) != Some(id);
      }
    }
    if OnlyStagedBefore(trace + more, id, k) {
      forall j | 0 <= j < |trace| && j < k && Subject(trace[j]) == Some(id)
        ensures trace[j].Clicked? || trace[j].StageSent?
      {
        assert Subject((trace + more)[j]) == Some(id);
      }
    }
  }

  lemma MemberIsEarlier(trace: seq<Event>, event: Event)
    ensures event in trace <==> Earlier(trace, event, |trace|)
  {
  }

  lemma InOrderExtends(trace: seq<Event>, more: seq<Event>, first: Event, second: Event)
    requires InOrder(trace, first, second)
    ensures InOrder(trace + more, first, second)
  {
    var k :| 0 <= k < |trace| && trace[k] == second && Earlier(trace, first, k);
    PastIsFixed(trace, more, first, 0, k);
    assert (trace + more)[k] == second;
  }

  lemma InOrderNow(trace: seq<Event>, first: Event, second: Event)
    requires first in trace
    ensures InOrder(trace + [second], first, second)
  {
    var full := trace + [second];
    MemberIsEarlier(trace, first);
    PastIsFixed(trace, [second], first, 0, |trace|);
    assert full[|trace|] == second;
  }

  lemma EventStaysOk(trace: seq<Event>, event: Event, k: nat)
    requires k < |trace| && EventOk(trace, k)
    ensures EventOk(trace + [event], k)
  {
    var full := trace + [event];
    assert full[k] == trace[k] && (k > 0 ==> full[k - 1] == trace[k - 1]);
    match trace[k]
    case Clicked(id) => PastIsFixed(trace, [event], event, id, k);
    case StageReturned(id, _) => PastIsFixed(trace, [event], StageSent(id), id, k);
    case _ =>
  }

  lemma TraceExtends(trace: seq<Event>, event: Event)
    requires TraceOk(trace) && EventOk(trace + [event], |trace|)
    ensures TraceOk(trace + [event])
  {
    hide EventOk;
    forall k | 0 <= k < |trace + [event]|
      ensures EventOk(trace + [event], k)
    {
      if k < |trace| {
        EventStaysOk(trace, event, k);
      }
    }
  }

  predicate About(more: seq<Event>, id: Id) {
    forall k | 0 <= k < |more| :: Subject(more[k]) == Some(id)
  }

  /** Events about another action, or about none, leave what is known of this one. */
  lemma OthersKeep(a: Action, phase: Option<Phase>, trace: seq<Event>, more: seq<Event>)
    requires ActionOk(a, phase, trace)
    requires forall k | 0 <= k < |more| :: Subject(more[k]) != Some(a.id)
    ensures ActionOk(a, phase, trace + more)
  {
    match a.state
    case Approved =>
      if a.mutating {
        InOrderExtends(trace, more, ApproveSent(a.id, a.bridgeRequestId.value), ApproveReturned(a.id));
      } else {
        InOrderExtends(trace, more, ReadSent(a.id), ReadReturned(a.id));
      }
    case _ =>
  }

  lemma FindAt(actions: seq<Action>, i: nat)
    requires DistinctIds(actions) && i < |actions|
    ensures Find(actions, actions[i].id) == Some(actions[i])
  {
  }

  lemma IndexOfFound(actions: seq<Action>, id: Id) returns (i: nat)
    requires Find(actions, id).Some?
    ensures i < |actions| && actions[i].id == id && Find(actions, id).value == actions[i]
  {
    i :| 0 <= i < |actions| && actions[i] == Find(actions, id).value;
  }

  /** Patching by id changes exactly one entry. */
  lemma PatchedEntry(actions: seq<Action>, i: nat, state: ApprovalState, requestId: RequestId)
    requires DistinctIds(actions) && i < |actions|
    ensures Change(actions, actions[i].id, state) == actions[i := actions[i].(state := state)]
    ensures Name(actions, actions[i].id, requestId) == actions[i := actions[i].(bridgeRequestId := Some(requestId))]
  {
  }

  function Wait(waiting: map<Id, Phase>, id: Id, phase: Option<Phase>): map<Id, Phase> {
    if phase.Some? then waiting[id := phase.value] else waiting - {id}
  }

  /** The queue after a step of one action: its own entry, its own wait, its own events. */
  function Patched(q: Queue, i: nat, a: Action, phase: Option<Phase>, more: seq<Event>): Queue
    requires i < |q.actions|
  {
    Queue(q.actions[i := a], Wait(q.waiting, a.id, phase), q.trace + more, q.nextId)
  }

  lemma PatchedIds(q: Queue, i: nat, a: Action, phase: Option<Phase>, more: seq<Event>)
    requires IdsOk(q) && i < |q.actions| && a.id == q.actions[i].id && a.id < q.nextId && About(more, a.id)
    ensures IdsOk(Patched(q, i, a, phase, more))
  {
    var r := Patched(q, i, a, phase, more);
    forall id | id in r.waiting
      ensures Find(r.actions, id).Some?
    {
      if id == a.id {
        assert r.actions[i].id == id;
      } else {
        var j := IndexOfFound(q.actions, id);
        assert r.actions[j].id == id;
      }
    }
    forall k | 0 <= k < |r.trace|
      ensures Subject(r.trace[k]).Some? ==> Subject(r.trace[k]).value < r.nextId
    {
      if k >= |q.trace| {
        assert r.trace[k] == more[k - |q.trace|];
      }
    }
  }

  lemma PatchedActions(q: Queue, i: nat, a: Action, phase: Option<Phase>, more: seq<Event>)
    requires DistinctIds(q.actions) && ActionsOk(q) && i < |q.actions|
    requires a.id == q.actions[i].id && About(more, a.id) && ActionOk(a, phase, q.trace + more)
    ensures ActionsOk(Patched(q, i, a, phase, more))
  {
    hide ActionOk;
    var r := Patched(q, i, a, phase, more);
    forall j | 0 <= j < |r.actions|
      ensures r.actions[j].id < r.nextId && ActionOk(r.actions[j], PhaseOf(r.waiting, r.actions[j].id), r.trace)
    {
      if j != i {
        OthersKeep(q.actions[j], PhaseOf(q.waiting, q.actions[j].id), q.trace, more);
      }
    }
  }

  lemma OneActionStep(q: Queue, i: nat, a: Action, phase: Option<Phase>, more: seq<Event>)
    requires Inv(q) && i < |q.actions| && a.id == q.actions[i].id && a.fingerprint == q.actions[i].fingerprint
    requires About(more, a.id) && TraceOk(q.trace + more) && ActionOk(a, phase, q.trace + more)
    ensures Inv(Patched(q, i, a, phase, more))
  {
    hide ActionOk, TraceOk, IdsOk;
    PatchedIds(q, i, a, phase, more);
    PatchedActions(q, i, a, phase, more);
    assert a.id < q.nextId;
  }

  lemma TwoEvents(trace: seq<Event>, e: Event, f: Event)
    requires TraceOk(trace) && EventOk(trace + [e], |trace|) && EventOk(trace + [e, f], |trace| + 1)
    ensures TraceOk(trace + [e, f])
  {
    hide TraceOk, EventOk;
    TraceExtends(trace, e);
    assert trace + [e, f] == trace + [e] + [f];
    TraceExtends(trace + [e], f);
  }

  lemma SentAfterClick(trace: seq<Event>, a: Action, sent: Event)
    requires TraceOk(trace) && NothingBefore(trace, a.id, |trace|)
    requires sent == if a.mutating then StageSent(a.id) else ReadSent(a.id)
    ensures TraceOk(trace + [Clicked(a.id), sent])
    ensures WaitOk(a, if a.mutating then Staging else Reading, trace + [Clicked(a.id), sent])
  {
    hide TraceOk;
    var full := trace + [Clicked(a.id), sent];
    PastIsFixed(trace, [Clicked(a.id)], sent, a.id, |trace|);
    assert (trace + [Clicked(a.id)])[|trace|] == Clicked(a.id);
    assert full[|trace|] == Clicked(a.id) && full[|trace| + 1] == sent;
    TwoEvents(trace, Clicked(a.id), sent);
  }

  lemma ApproveKeeps(q: Queue, id: Id)
    requires Inv(q)
    ensures Inv(OnApprove(q, id))
  {
    hide TraceOk, IdsOk, WaitOk, NothingBefore, OnlyStagedBefore;
    if IsPending(q, id) {
      var i := IndexOfFound(q.actions, id);
      var a := q.actions[i];
      var sent := if a.mutating then StageSent(id) else ReadSent(id);
      SentAfterClick(q.trace, a.(state := Approving), sent);
      PatchedEntry(q.actions, i, Approving, "");
      OneActionStep(q, i, a.(state := Approving), Some(if a.mutating then Staging else Reading), [Clicked(id), sent]);
    }
  }

  lemma RejectKeeps(q: Queue, id: Id)
    requires Inv(q)
    ensures Inv(OnReject(q, id))
  {
    hide TraceOk, IdsOk, WaitOk, NothingBefore;
    if IsPending(q, id) {
      var i := IndexOfFound(q.actions, id);
      assert q.trace + [] == q.trace;
      assert q.waiting - {id} == q.waiting;
      PatchedEntry(q.actions, i, Rejected, "");
      OneActionStep(q, i, q.actions[i].(state := Rejected), None, []);
    }
  }

  lemma WaitingAction(q: Queue, id: Id) returns (i: nat)
    requires Inv(q) && id in q.waiting
    ensures i < |q.actions| && q.actions[i].id == id && q.actions[i].state == Approving
    ensures WaitOk(q.actions[i], q.waiting[id], q.trace)
  {
    i := IndexOfFound(q.actions, id);
    assert ActionOk(q.actions[i], Some(q.waiting[id]), q.trace);
  }

  lemma FailKeeps(q: Queue, id: Id)
    requires Inv(q) && id in q.waiting
    ensures Inv(Fail(q, id))
  {
    hide TraceOk, IdsOk, WaitOk;
    var i := WaitingAction(q, id);
    assert q.trace + [] == q.trace;
    PatchedEntry(q.actions, i, Failed, "");
    OneActionStep(q, i, q.actions[i].(state := Failed), None, []);
  }

  lemma ReturnedTrace(trace: seq<Event>, id: Id, requestId: RequestId)
    requires TraceOk(trace) && StageSent(id) in trace && OnlyStagedBefore(trace, id, |trace|)
    ensures TraceOk(trace + [StageReturned(id, requestId), ApproveSent(id, requestId)])
    ensures ApproveSent(id, requestId) in trace + [StageReturned(id, requestId), ApproveSent(id, requestId)]
  {
    hide TraceOk;
    var returned, sent := StageReturned(id, requestId), ApproveSent(id, requestId);
    MemberIsEarlier(trace, StageSent(id));
    PastIsFixed(trace, [returned], StageSent(id), id, |trace|);
    assert (trace + [returned])[|trace|] == returned;
    var full := trace + [returned, sent];
    assert full[|trace|] == returned && full[|trace| + 1] == sent;
    TwoEvents(trace, returned, sent);
  }

  lemma StageReplyKeeps(q: Queue, id: Id, requestId: RequestId)
    requires Inv(q) && id in q.waiting && q.waiting[id].Staging?
    ensures Inv(OnStageReply(q, id, Some(requestId)))
  {
    hide TraceOk, IdsOk;
    var i := WaitingAction(q, id);
    ReturnedTrace(q.trace, id, requestId);
    PatchedEntry(q.actions, i, Approving, requestId);
    OneActionStep(q, i, q.actions[i].(bridgeRequestId := Some(requestId)), Some(Executing(requestId)),
                  [StageReturned(id, requestId), ApproveSent(id, requestId)]);
  }

  lemma FinishKeeps(q: Queue, id: Id, event: Event)
    requires Inv(q) && id in q.waiting
    requires match q.waiting[id]
      case Executing(_) => event == ApproveReturned(id)
      case Reading => event == ReadReturned(id)
      case Staging => false
    ensures Inv(Finish(q, id, event))
  {
    hide TraceOk, IdsOk, InOrder;
    var i := WaitingAction(q, id);
    var a := q.actions[i];
    assert EventOk(q.trace + [event], |q.trace|);
    TraceExtends(q.trace, event);
    InOrderNow(q.trace, if a.mutating then ApproveSent(id, a.bridgeRequestId.value) else ReadSent(id), event);
    PatchedEntry(q.actions, i, Approved, "");
    OneActionStep(q, i, a.(state := Approved), None, [event]);
  }

  lemma CaptureOneKeeps(q: Queue, fingerprint: string, mutating: bool)
    requires Inv(q)
    ensures Inv(q.(actions := AddPending(q.actions, Action(q.nextId, fingerprint, mutating, Pending, None)),
                   nextId := q.nextId + 1))
  {
    hide TraceOk, WaitOk, DoneOk;
    var action := Action(q.nextId, fingerprint, mutating, Pending, None);
    var actions := AddPending(q.actions, action);
    if q.nextId in q.waiting {
      var i := IndexOfFound(q.actions, q.nextId);
      assert false;
    }
    forall id | id in q.waiting
      ensures Find(actions, id).Some?
    {
      var i := IndexOfFound(q.actions, id);
      assert actions[i].id == id;
    }
  }

  lemma {:induction false} CaptureKeeps(q: Queue, results: seq<ParseResult>)
    requires Inv(q)
    ensures Inv(Captured(q, results))
    decreases results
  {
    hide Inv;
    if results != [] {
      match results[0]
      case Ignored => CaptureKeeps(q, results[1..]);
      case Valid(fingerprint, mutating) =>
        CaptureOneKeeps(q, fingerprint, mutating);
        var action := Action(q.nextId, fingerprint, mutating, Pending, None);
        CaptureKeeps(q.(actions := AddPending(q.actions, action), nextId := q.nextId + 1), results[1..]);
    }
  }

  lemma RecoveredKeeps(q: Queue, requestId: RequestId)
    requires Inv(q)
    ensures Inv(Next(q, ApproveRecovered(requestId)))
  {
    hide TraceOk, ActionOk;
    var r, event := Next(q, ApproveRecovered(requestId)), RecoveredApproveSent(requestId);
    assert EventOk(r.trace, |q.trace|);
    TraceExtends(q.trace, event);
    forall i | 0 <= i < |r.actions|
      ensures ActionOk(r.actions[i], PhaseOf(r.waiting, r.actions[i].id), r.trace)
    {
      OthersKeep(q.actions[i], PhaseOf(q.waiting, q.actions[i].id), q.trace, [event]);
    }
  }

  /** The cards are stored, the handlers that waited are gone. */
  lemma ReloadKeeps(q: Queue)
    requires Inv(q)
    ensures Inv(Next(q, Reload))
  {
    hide TraceOk, WaitOk, DoneOk, NothingBefore;
  }

  lemma StepKeeps(q: Queue, step: Step)
    requires Inv(q)
    ensures Inv(Next(q, step))
  {
    hide Inv, Captured, OnApprove, OnReject, Fail, Finish;
    match step
    case Capture(results) => CaptureKeeps(q, results);
    case Approve(id) => ApproveKeeps(q, id);
    case Reject(id) => RejectKeeps(q, id);
    case ApproveRecovered(requestId) => RecoveredKeeps(q, requestId);
    case Reload => ReloadKeeps(q);
    case StageReply(id, reply) =>
      if id in q.waiting && q.waiting[id].Staging? {
        if reply.Some? {
          StageReplyKeeps(q, id, reply.value);
        } else {
          FailKeeps(q, id);
        }
      }
    case ApproveReply(id, ok) =>
      if id in q.waiting && q.waiting[id].Executing? {
        if ok {
          FinishKeeps(q, id, ApproveReturned(id));
        } else {
          FailKeeps(q, id);
        }
      }
    case ReadReply(id, ok) =>
      if id in q.waiting && q.waiting[id].Reading? {
        if ok {
          FinishKeeps(q, id, ReadReturned(id));
        } else {
          FailKeeps(q, id);
        }
      }
  }

  lemma {:induction false} RunKeeps(q: Queue, steps: seq<Step>)
    requires Inv(q)
    ensures Inv(Run(q, steps))
    decreases steps
  {
    hide Inv, Next;
    if steps != [] {
      StepKeeps(q, steps[0]);
      RunKeeps(Next(q, steps[0]), steps[1..]);
    }
  }
}
