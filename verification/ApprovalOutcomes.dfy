/** What becomes of a card: each click and each reply on its own, and one card over a whole run. */
module ApprovalOutcomes {
  import opened Options
  import opened Sequences
  import opened Approvals
  import opened ApprovalSafety

  // ------------------------------------------------------------------------ one step

  /** Card `i` has this state and this request, and all other cards and handlers are as they were. */
  ghost predicate Became(q: Queue, v: Queue, i: nat, state: ApprovalState, requestId: Option<RequestId>)
    requires i < |q.actions|
  {
    && |v.actions| == |q.actions| && v.nextId == q.nextId
    && (forall j | 0 <= j < |q.actions| && j != i :: v.actions[j] == q.actions[j])
    && v.actions[i] == q.actions[i].(state := state, bridgeRequestId := requestId)
    && forall id | id != q.actions[i].id :: PhaseOf(v.waiting, id) == PhaseOf(q.waiting, id)
  }

  lemma CardFacts(q: Queue, i: nat)
    requires Inv(q) && i < |q.actions|
    ensures Find(q.actions, q.actions[i].id) == Some(q.actions[i])
    ensures forall j | 0 <= j < |q.actions| && j != i :: q.actions[j].id != q.actions[i].id
  {
    FindAt(q.actions, i);
    forall j | 0 <= j < |q.actions| && j != i
      ensures q.actions[j].id != q.actions[i].id
    {
    }
  }

  lemma ChangedBecame(q: Queue, v: Queue, i: nat, state: ApprovalState, requestId: Option<RequestId>)
    requires i < |q.actions| && |v.actions| == |q.actions| && v.nextId == q.nextId
    requires forall j | 0 <= j < |q.actions| && j != i :: q.actions[j].id != q.actions[i].id
    requires forall j | 0 <= j < |q.actions| && j != i :: v.actions[j] == q.actions[j]
    requires v.actions[i] == q.actions[i].(state := state, bridgeRequestId := requestId)
    requires forall id | id != q.actions[i].id :: PhaseOf(v.waiting, id) == PhaseOf(q.waiting, id)
    ensures Became(q, v, i, state, requestId)
  {
  }

  lemma OthersWait(waiting: map<Id, Phase>, id: Id, phase: Phase)
    ensures forall other | other != id :: PhaseOf(waiting[id := phase], other) == PhaseOf(waiting, other)
    ensures forall other | other != id :: PhaseOf(waiting - {id}, other) == PhaseOf(waiting, other)
  {
  }

  /** Approve on a pending card starts its handler and sends the staging call of a write, or the read. */
  lemma ApproveStarts(q: Queue, i: nat)
    requires Inv(q) && i < |q.actions| && q.actions[i].state == Pending
    ensures var card := q.actions[i];
      var v := Next(q, Approve(card.id));
      && Became(q, v, i, Approving, card.bridgeRequestId)
      && PhaseOf(v.waiting, card.id) == Some(if card.mutating then Staging else Reading)
      && v.trace == q.trace + [Clicked(card.id), if card.mutating then StageSent(card.id) else ReadSent(card.id)]
  {
    hide Inv, Became, Find;
    var card := q.actions[i];
    CardFacts(q, i);
    OthersWait(q.waiting, card.id, if card.mutating then Staging else Reading);
    ChangedBecame(q, Next(q, Approve(card.id)), i, Approving, card.bridgeRequestId);
  }

  /** Reject on a pending card decides it; nothing is sent. */
  lemma RejectDecides(q: Queue, i: nat)
    requires Inv(q) && i < |q.actions| && q.actions[i].state == Pending
    ensures var card := q.actions[i];
      var v := Next(q, Reject(card.id));
      Became(q, v, i, Rejected, card.bridgeRequestId) && v.waiting == q.waiting && v.trace == q.trace
  {
    hide Inv, Became, Find;
    var card := q.actions[i];
    CardFacts(q, i);
    ChangedBecame(q, Next(q, Reject(card.id)), i, Rejected, card.bridgeRequestId);
  }

  /** A handler that fails its card, or finishes it, touches nothing else. */
  lemma EndingBecomes(q: Queue, i: nat, event: Event)
    requires Inv(q) && i < |q.actions|
    ensures var card := q.actions[i];
      && Became(q, Fail(q, card.id), i, ApprovalState.Failed, card.bridgeRequestId)
      && Became(q, Finish(q, card.id, event), i, Approved, card.bridgeRequestId)
  {
    hide Inv, Became, Find;
    var card := q.actions[i];
    CardFacts(q, i);
    OthersWait(q.waiting, card.id, Staging);
    ChangedBecame(q, Fail(q, card.id), i, ApprovalState.Failed, card.bridgeRequestId);
    ChangedBecame(q, Finish(q, card.id, event), i, Approved, card.bridgeRequestId);
  }

  lemma NamingBecomes(q: Queue, i: nat, requestId: RequestId)
    requires Inv(q) && i < |q.actions| && q.actions[i].state == Approving
    ensures Became(q, OnStageReply(q, q.actions[i].id, Some(requestId)), i, Approving, Some(requestId))
  {
    hide Inv, Became, Find;
    var card := q.actions[i];
    CardFacts(q, i);
    OthersWait(q.waiting, card.id, Executing(requestId));
    ChangedBecame(q, OnStageReply(q, card.id, Some(requestId)), i, Approving, Some(requestId));
  }

  /** A waiting handler belongs to an approving card. */
  lemma WaitingIsApproving(q: Queue, i: nat)
    requires Inv(q) && i < |q.actions|
    ensures q.actions[i].id in q.waiting ==> q.actions[i].state == Approving
  {
    assert ActionOk(q.actions[i], PhaseOf(q.waiting, q.actions[i].id), q.trace);
  }

  /** A staged request is named on the card and its approve call goes out; a refused staging fails the card. */
  lemma StagingSettles(q: Queue, i: nat, reply: Option<RequestId>)
    requires Inv(q) && i < |q.actions| && PhaseOf(q.waiting, q.actions[i].id) == Some(Staging)
    ensures var card := q.actions[i];
      var v := Next(q, StageReply(card.id, reply));
      if reply.Some? then
        && Became(q, v, i, Approving, reply) && PhaseOf(v.waiting, card.id) == Some(Executing(reply.value))
        && v.trace == q.trace + [StageReturned(card.id, reply.value), ApproveSent(card.id, reply.value)]
      else
        Became(q, v, i, ApprovalState.Failed, card.bridgeRequestId)
        && card.id !in v.waiting && v.trace == q.trace
  {
    hide Inv, Became, Find, Change, Name;
    WaitingIsApproving(q, i);
    EndingBecomes(q, i, ApproveReturned(q.actions[i].id));
    if reply.Some? {
      NamingBecomes(q, i, reply.value);
    }
  }

  /** A successful approve reply approves the card and is recorded; a refused one fails it. */
  lemma ApproveSettles(q: Queue, i: nat, ok: bool)
    requires Inv(q) && i < |q.actions| && q.actions[i].id in q.waiting && q.waiting[q.actions[i].id].Executing?
    ensures var card := q.actions[i];
      var v := Next(q, ApproveReply(card.id, ok));
      && Became(q, v, i, if ok then Approved else ApprovalState.Failed, card.bridgeRequestId)
      && card.id !in v.waiting && v.trace == q.trace + if ok then [ApproveReturned(card.id)] else []
  {
    hide Inv, Became, Find, Change;
    EndingBecomes(q, i, ApproveReturned(q.actions[i].id));
    assert q.trace + [] == q.trace;
  }

  /** The same for the read of a card that changes nothing. */
  lemma ReadSettles(q: Queue, i: nat, ok: bool)
    requires Inv(q) && i < |q.actions| && PhaseOf(q.waiting, q.actions[i].id) == Some(Reading)
    ensures var card := q.actions[i];
      var v := Next(q, ReadReply(card.id, ok));
      && Became(q, v, i, if ok then Approved else ApprovalState.Failed, card.bridgeRequestId)
      && card.id !in v.waiting && v.trace == q.trace + if ok then [ReadReturned(card.id)] else []
  {
    hide Inv, Became, Find, Change;
    EndingBecomes(q, i, ReadReturned(q.actions[i].id));
    assert q.trace + [] == q.trace;
  }

  // ------------------------------------------------------------------------- capture

  /** The valid results whose fingerprint is not in `known` and has not come earlier. */
  function Unknown(results: seq<ParseResult>, known: set<string>): seq<ParseResult> {
    if results == [] then []
    else if results[0].Ignored? || results[0].fingerprint in known then Unknown(results[1..], known)
    else [results[0]] + Unknown(results[1..], known + {results[0].fingerprint})
  }

  function Fingerprints(actions: seq<Action>): set<string> {
    set i | 0 <= i < |actions| :: actions[i].fingerprint
  }

  /** The cards after the first `n` are pending and show these blocks, in order. */
  ghost predicate ShowBlocks(actions: seq<Action>, n: nat, blocks: seq<ParseResult>) {
    && |actions| == n + |blocks|
    && forall j | 0 <= j < |blocks| ::
         var card := actions[n + j];
         && blocks[j].Valid? && card.fingerprint == blocks[j].fingerprint && card.mutating == blocks[j].mutating
         && card.state == Pending && card.bridgeRequestId == None
  }

  /**
   * Capturing keeps the cards there are and adds, in order, one pending card for each valid block that is new,
   * with the block's fingerprint and kind; nothing is sent and no handler starts.
   */
  lemma {:induction false} CaptureAddsTheNewBlocks(q: Queue, results: seq<ParseResult>)
    ensures var v := Next(q, Capture(results));
      && v.waiting == q.waiting && v.trace == q.trace
      && q.actions <= v.actions
      && ShowBlocks(v.actions, |q.actions|, Unknown(results, Fingerprints(q.actions)))
    decreases results
  {
    hide ShowBlocks;
    if results == [] {
      NoBlocks(q.actions);
    } else {
      match results[0]
      case Ignored => CaptureAddsTheNewBlocks(q, results[1..]);
      case Valid(fingerprint, mutating) =>
        var action := Action(q.nextId, fingerprint, mutating, Pending, None);
        var r := q.(actions := AddPending(q.actions, action), nextId := q.nextId + 1);
        var v := Next(q, Capture(results));
        assert v == Next(r, Capture(results[1..]));
        CaptureAddsTheNewBlocks(r, results[1..]);
        assert Known(q.actions, fingerprint) <==> fingerprint in Fingerprints(q.actions);
        if !Known(q.actions, fingerprint) {
          AddedFingerprint(q.actions, action);
          var rest := Unknown(results[1..], Fingerprints(r.actions));
          OneBlockMore(v.actions, q.actions, action, results[0], rest);
        }
    }
  }

  lemma NoBlocks(actions: seq<Action>)
    ensures ShowBlocks(actions, |actions|, [])
  {
  }

  lemma OneBlockMore(
      actions: seq<Action>, before: seq<Action>, card: Action, block: ParseResult, rest: seq<ParseResult>)
    requires block.Valid? && card.fingerprint == block.fingerprint && card.mutating == block.mutating
    requires card.state == Pending && card.bridgeRequestId == None
    requires before + [card] <= actions && ShowBlocks(actions, |before| + 1, rest)
    ensures before <= actions && ShowBlocks(actions, |before|, [block] + rest)
  {
    var n, blocks := |before|, [block] + rest;
    assert (before + [card])[n] == card && actions[n] == card;
    forall j | 0 <= j < n
      ensures actions[j] == before[j]
    {
      assert (before + [card])[j] == before[j];
    }
    forall j | 0 < j < |blocks|
      ensures blocks[j] == rest[j - 1] && actions[n + j] == actions[n + 1 + (j - 1)]
    {
    }
  }

  lemma AddedFingerprint(actions: seq<Action>, action: Action)
    ensures Fingerprints(actions + [action]) == Fingerprints(actions) + {action.fingerprint}
  {
    var all := actions + [action];
    assert all[|actions|] == action;
    assert forall i | 0 <= i < |actions| :: all[i] == actions[i];
  }

  // ------------------------------------------------------------------- one card's life

  /** How far a card has come. */
  datatype Life =
    | New | Refused | StagingCall | ExecutingCall(requestId: RequestId) | ReadingCall | Done | Broken | Stuck

  function LifeOf(q: Queue, i: nat): Life
    requires i < |q.actions|
  {
    var card := q.actions[i];
    match card.state
    case Pending => New
    case Rejected => Refused
    case Approved => Done
    case Failed => Broken
    case Approving =>
      match PhaseOf(q.waiting, card.id)
      case None => Stuck
      case Some(Staging) => StagingCall
      case Some(Reading) => ReadingCall
      case Some(Executing(requestId)) => ExecutingCall(requestId)
  }

  /** One card as a machine of its own: only its own clicks, its own awaited replies and reloads move it. */
  function Lives(life: Life, mutating: bool, id: Id, step: Step): Life {
    match step
    case Approve(x) => if x == id && life.New? then if mutating then StagingCall else ReadingCall else life
    case Reject(x) => if x == id && life.New? then Refused else life
    case StageReply(x, reply) =>
      if x == id && life.StagingCall? then if reply.Some? then ExecutingCall(reply.value) else Broken else life
    case ApproveReply(x, ok) => if x == id && life.ExecutingCall? then if ok then Done else Broken else life
    case ReadReply(x, ok) => if x == id && life.ReadingCall? then if ok then Done else Broken else life
    case Reload => if life.StagingCall? || life.ExecutingCall? || life.ReadingCall? then Stuck else life
    case _ => life
  }

  function LivesOn(life: Life, mutating: bool, id: Id, steps: seq<Step>): Life
    decreases steps
  {
    if steps == [] then life else LivesOn(Lives(life, mutating, id, steps[0]), mutating, id, steps[1..])
  }

  lemma SameLife(q: Queue, v: Queue, i: nat)
    requires i < |q.actions| && i < |v.actions| && v.actions[i] == q.actions[i]
    requires PhaseOf(v.waiting, q.actions[i].id) == PhaseOf(q.waiting, q.actions[i].id)
    ensures LifeOf(v, i) == LifeOf(q, i)
  {
  }

  /** A click or reply about another card leaves this one alone. */
  lemma OthersLifeKeeps(q: Queue, step: Step, i: nat)
    requires Inv(q) && i < |q.actions| && !step.Capture? && !step.Reload? && !step.ApproveRecovered?
    requires step.id != q.actions[i].id
    ensures var v := Next(q, step);
      i < |v.actions| && v.actions[i] == q.actions[i]
      && PhaseOf(v.waiting, q.actions[i].id) == PhaseOf(q.waiting, q.actions[i].id)
  {
    hide Inv, Find;
  }

  lemma BecameFacts(q: Queue, v: Queue, i: nat, state: ApprovalState, requestId: Option<RequestId>)
    requires i < |q.actions| && Became(q, v, i, state, requestId)
    ensures i < |v.actions| && v.actions[i] == q.actions[i].(state := state, bridgeRequestId := requestId)
  {
  }

  lemma OwnClick(q: Queue, i: nat)
    requires Inv(q) && i < |q.actions|
    ensures var card := q.actions[i];
      var a, r := Next(q, Approve(card.id)), Next(q, Reject(card.id));
      && i < |a.actions| && LifeOf(a, i) == Lives(LifeOf(q, i), card.mutating, card.id, Approve(card.id))
      && i < |r.actions| && LifeOf(r, i) == Lives(LifeOf(q, i), card.mutating, card.id, Reject(card.id))
  {
    var card := q.actions[i];
    CardFacts(q, i);
    if card.state == Pending {
      hide Inv, Became, Find, Next;
      ApproveStarts(q, i);
      BecameFacts(q, Next(q, Approve(card.id)), i, Approving, card.bridgeRequestId);
      RejectDecides(q, i);
      BecameFacts(q, Next(q, Reject(card.id)), i, Rejected, card.bridgeRequestId);
    }
  }

  lemma IdleStaging(q: Queue, id: Id, reply: Option<RequestId>)
    ensures PhaseOf(q.waiting, id) != Some(Staging) ==> Next(q, StageReply(id, reply)) == q
  {
  }

  lemma OwnStaging(q: Queue, i: nat, reply: Option<RequestId>)
    requires Inv(q) && i < |q.actions|
    ensures var card := q.actions[i];
      var v := Next(q, StageReply(card.id, reply));
      i < |v.actions| && LifeOf(v, i) == Lives(LifeOf(q, i), card.mutating, card.id, StageReply(card.id, reply))
  {
    hide Inv, Became, Next;
    var card := q.actions[i];
    WaitingIsApproving(q, i);
    IdleStaging(q, card.id, reply);
    if PhaseOf(q.waiting, card.id) == Some(Staging) {
      StagingSettles(q, i, reply);
      BecameFacts(q, Next(q, StageReply(card.id, reply)), i,
                  if reply.Some? then Approving else ApprovalState.Failed,
                  if reply.Some? then reply else card.bridgeRequestId);
    }
  }

  lemma IdleReplies(q: Queue, id: Id, ok: bool)
    ensures !(id in q.waiting && q.waiting[id].Executing?) ==> Next(q, ApproveReply(id, ok)) == q
    ensures !(id in q.waiting && q.waiting[id].Reading?) ==> Next(q, ReadReply(id, ok)) == q
  {
  }

  /** What a card's own handler waits for, in terms of its life. */
  lemma LifeAndPhase(q: Queue, i: nat)
    requires Inv(q) && i < |q.actions|
    ensures var id := q.actions[i].id;
      && (LifeOf(q, i).ExecutingCall? <==> id in q.waiting && q.waiting[id].Executing?)
      && (LifeOf(q, i).ReadingCall? <==> PhaseOf(q.waiting, id) == Some(Reading))
  {
    WaitingIsApproving(q, i);
    hide Inv;
  }

  lemma OwnApproveReply(q: Queue, i: nat, ok: bool)
    requires Inv(q) && i < |q.actions|
    ensures var card := q.actions[i];
      var v := Next(q, ApproveReply(card.id, ok));
      i < |v.actions| && LifeOf(v, i) == Lives(LifeOf(q, i), card.mutating, card.id, ApproveReply(card.id, ok))
  {
    hide Inv, Became, Next;
    var card := q.actions[i];
    LifeAndPhase(q, i);
    IdleReplies(q, card.id, ok);
    if card.id in q.waiting && q.waiting[card.id].Executing? {
      ApproveSettles(q, i, ok);
      BecameFacts(q, Next(q, ApproveReply(card.id, ok)), i, if ok then Approved else ApprovalState.Failed,
                  card.bridgeRequestId);
    }
  }

  lemma OwnReadReply(q: Queue, i: nat, ok: bool)
    requires Inv(q) && i < |q.actions|
    ensures var card := q.actions[i];
      var v := Next(q, ReadReply(card.id, ok));
      i < |v.actions| && LifeOf(v, i) == Lives(LifeOf(q, i), card.mutating, card.id, ReadReply(card.id, ok))
  {
    hide Inv, Became, Next;
    var card := q.actions[i];
    LifeAndPhase(q, i);
    IdleReplies(q, card.id, ok);
    if PhaseOf(q.waiting, card.id) == Some(Reading) {
      ReadSettles(q, i, ok);
      BecameFacts(q, Next(q, ReadReply(card.id, ok)), i, if ok then Approved else ApprovalState.Failed,
                  card.bridgeRequestId);
    }
  }

  lemma CaptureKeepsLife(q: Queue, results: seq<ParseResult>, i: nat)
    requires i < |q.actions|
    ensures i < |Next(q, Capture(results)).actions| && LifeOf(Next(q, Capture(results)), i) == LifeOf(q, i)
  {
    CaptureAddsTheNewBlocks(q, results);
    hide Next;
    var v := Next(q, Capture(results));
    assert v.actions[i] == v.actions[..|q.actions|][i];
    SameLife(q, v, i);
  }

  lemma ReloadsAndRecoveries(q: Queue, requestId: RequestId, i: nat)
    requires i < |q.actions|
    ensures var card := q.actions[i];
      && i < |Next(q, Reload).actions| && i < |Next(q, ApproveRecovered(requestId)).actions|
      && LifeOf(Next(q, Reload), i) == Lives(LifeOf(q, i), card.mutating, card.id, Reload)
      && LifeOf(Next(q, ApproveRecovered(requestId)), i) == LifeOf(q, i)
  {
  }

  lemma StepOfLife(q: Queue, step: Step, i: nat)
    requires Inv(q) && i < |q.actions|
    ensures i < |Next(q, step).actions|
    ensures LifeOf(Next(q, step), i) == Lives(LifeOf(q, i), q.actions[i].mutating, q.actions[i].id, step)
  {
    hide Inv, Next, LifeOf;
    if step.Capture? {
      CaptureKeepsLife(q, step.results, i);
    } else if step.Reload? || step.ApproveRecovered? {
      ReloadsAndRecoveries(q, if step.ApproveRecovered? then step.requestId else "", i);
    } else if step.id != q.actions[i].id {
      OthersLifeKeeps(q, step, i);
      SameLife(q, Next(q, step), i);
    } else {
      OwnStep(q, step, i);
    }
  }

  lemma OwnStep(q: Queue, step: Step, i: nat)
    requires Inv(q) && i < |q.actions| && !step.Capture? && !step.Reload? && !step.ApproveRecovered?
    requires step.id == q.actions[i].id
    ensures i < |Next(q, step).actions|
    ensures LifeOf(Next(q, step), i) == Lives(LifeOf(q, i), q.actions[i].mutating, q.actions[i].id, step)
  {
    hide Inv, Next, LifeOf, Lives;
    match step
    case Approve(_) => OwnClick(q, i);
    case Reject(_) => OwnClick(q, i);
    case StageReply(_, reply) => OwnStaging(q, i, reply);
    case ApproveReply(_, ok) => OwnApproveReply(q, i, ok);
    case ReadReply(_, ok) => OwnReadReply(q, i, ok);
  }

  /**
   * Over every run each card lives as if it were alone: what becomes of it is told by the steps about it and
   * the reloads, whatever happens to other cards.
   */
  lemma {:induction false} CardsLiveAlone(q: Queue, steps: seq<Step>, i: nat)
    requires Inv(q) && i < |q.actions|
    ensures i < |Run(q, steps).actions|
    ensures LifeOf(Run(q, steps), i) == LivesOn(LifeOf(q, i), q.actions[i].mutating, q.actions[i].id, steps)
    decreases steps
  {
    hide Inv, Next, LifeOf, Lives;
    if steps != [] {
      var v := Next(q, steps[0]);
      StepKeeps(q, steps[0]);
      StepOfLife(q, steps[0], i);
      StepKeepsCard(q, steps[0], i);
      CardsLiveAlone(v, steps[1..], i);
    }
  }

  // ---------------------------------------------------------------- how a card was settled

  predicate IsReply(step: Step, id: Id, ok: bool) {
    || (step.ApproveReply? && step.id == id && step.ok == ok)
    || (step.ReadReply? && step.id == id && step.ok == ok)
    || (step.StageReply? && step.id == id && step.reply.None? && !ok)
  }

  /** At step `k` of the run the reply that the card's handler waits for comes in, and it is `ok` or not. */
  predicate AnsweredAt(life: Life, mutating: bool, id: Id, steps: seq<Step>, k: int, ok: bool) {
    && 0 <= k < |steps| && IsReply(steps[k], id, ok)
    && var before := LivesOn(life, mutating, id, steps[..k]);
    && (steps[k].ApproveReply? ==> before.ExecutingCall?) && (steps[k].ReadReply? ==> before.ReadingCall?)
    && (steps[k].StageReply? ==> before.StagingCall?)
  }

  lemma {:induction false} SettledOnce(life: Life, mutating: bool, id: Id, steps: seq<Step>)
    requires life.Done? || life.Broken? || life.Refused? || life.Stuck?
    ensures LivesOn(life, mutating, id, steps) == life
    ensures forall k, ok :: !AnsweredAt(life, mutating, id, steps, k, ok)
    decreases steps
  {
    if steps != [] {
      SettledOnce(life, mutating, id, steps[1..]);
    }
    forall k, ok
      ensures !AnsweredAt(life, mutating, id, steps, k, ok)
    {
      if 0 <= k < |steps| {
        SettledStays(life, mutating, id, steps[..k]);
      }
    }
  }

  lemma {:induction false} SettledStays(life: Life, mutating: bool, id: Id, steps: seq<Step>)
    requires life.Done? || life.Broken? || life.Refused? || life.Stuck?
    ensures LivesOn(life, mutating, id, steps) == life
    decreases steps
  {
    if steps != [] {
      SettledStays(life, mutating, id, steps[1..]);
    }
  }

  lemma AnsweredLater(life: Life, mutating: bool, id: Id, steps: seq<Step>, k: int, ok: bool)
    requires steps != [] && k != 0
    ensures AnsweredAt(life, mutating, id, steps, k, ok) <==>
      AnsweredAt(Lives(life, mutating, id, steps[0]), mutating, id, steps[1..], k - 1, ok)
  {
    hide Lives, IsReply;
    if 0 < k < |steps| {
      assert steps[..k][0] == steps[0] && steps[..k][1..] == steps[1..][..k - 1];
    }
  }

  /** An unsettled card is done exactly if a success it waited for has come, broken exactly if a refusal has. */
  lemma {:induction false} LifeEndsByReply(life: Life, mutating: bool, id: Id, steps: seq<Step>)
    requires life.New? || life.StagingCall? || life.ExecutingCall? || life.ReadingCall?
    ensures LivesOn(life, mutating, id, steps).Done? <==> exists k :: AnsweredAt(life, mutating, id, steps, k, true)
    ensures LivesOn(life, mutating, id, steps).Broken? <==> exists k :: AnsweredAt(life, mutating, id, steps, k, false)
    decreases steps
  {
    hide AnsweredAt;
    if steps == [] {
      NeverAnswered(life, mutating, id);
    } else {
      var next := Lives(life, mutating, id, steps[0]);
      FirstAnswer(life, mutating, id, steps);
      forall k, ok | k != 0
        ensures AnsweredAt(life, mutating, id, steps, k, ok) <==> AnsweredAt(next, mutating, id, steps[1..], k - 1, ok)
      {
        AnsweredLater(life, mutating, id, steps, k, ok);
      }
      if next.Done? || next.Broken? || next.Refused? || next.Stuck? {
        SettledOnce(next, mutating, id, steps[1..]);
      } else {
        LifeEndsByReply(next, mutating, id, steps[1..]);
      }
      ShiftAnswers(life, next, mutating, id, steps);
    }
  }

  lemma ShiftAnswers(life: Life, next: Life, mutating: bool, id: Id, steps: seq<Step>)
    requires steps != []
    requires forall k, ok | k != 0 ::
      AnsweredAt(life, mutating, id, steps, k, ok) <==> AnsweredAt(next, mutating, id, steps[1..], k - 1, ok)
    ensures forall ok :: (exists k :: AnsweredAt(life, mutating, id, steps, k, ok)) <==>
      AnsweredAt(life, mutating, id, steps, 0, ok) || exists k :: AnsweredAt(next, mutating, id, steps[1..], k, ok)
  {
    forall ok, k | AnsweredAt(next, mutating, id, steps[1..], k, ok)
      ensures AnsweredAt(life, mutating, id, steps, k + 1, ok)
    {
      assert k >= 0;
      assert AnsweredAt(next, mutating, id, steps[1..], k + 1 - 1, ok);
    }
    hide AnsweredAt;
    forall ok, k | AnsweredAt(life, mutating, id, steps, k, ok) && k != 0
      ensures AnsweredAt(next, mutating, id, steps[1..], k - 1, ok)
    {
    }
  }

  lemma NeverAnswered(life: Life, mutating: bool, id: Id)
    ensures forall k, ok :: !AnsweredAt(life, mutating, id, [], k, ok)
  {
  }

  lemma FirstAnswer(life: Life, mutating: bool, id: Id, steps: seq<Step>)
    requires steps != [] && (life.New? || life.StagingCall? || life.ExecutingCall? || life.ReadingCall?)
    ensures AnsweredAt(life, mutating, id, steps, 0, true) <==> Lives(life, mutating, id, steps[0]).Done?
    ensures AnsweredAt(life, mutating, id, steps, 0, false) <==> Lives(life, mutating, id, steps[0]).Broken?
  {
    assert steps[..0] == [];
  }

  /**
   * Over every run a card that was not settled ends approved exactly if a reply its handler waited for was
   * successful, and failed exactly if such a reply was a refusal.
   */
  lemma OutcomeIsTheReply(q: Queue, steps: seq<Step>, i: nat)
    requires Inv(q) && i < |q.actions| && !Settled(q, i)
    ensures i < |Run(q, steps).actions|
    ensures var card, v := q.actions[i], Run(q, steps).actions[i];
      && (v.state == Approved <==>
            exists k :: AnsweredAt(LifeOf(q, i), card.mutating, card.id, steps, k, true))
      && (v.state == ApprovalState.Failed <==>
            exists k :: AnsweredAt(LifeOf(q, i), card.mutating, card.id, steps, k, false))
  {
    hide Inv, Run, AnsweredAt, Lives, LivesOn;
    var card := q.actions[i];
    CardsLiveAlone(q, steps, i);
    LifeEndsByReply(LifeOf(q, i), card.mutating, card.id, steps);
  }
}
