/** What every run of the approval protocol keeps. */
module ApprovalSafety {
  import opened Options
  import opened Approvals

  /** Whatever is clicked and whatever the Bridge answers, an action is staged at most once. */
  lemma StagedAtMostOnce(steps: seq<Step>, j: nat, k: nat)
    requires j < k < |Run(EMPTY, steps).trace|
    requires Run(EMPTY, steps).trace[j].StageSent?
    ensures Run(EMPTY, steps).trace[j] != Run(EMPTY, steps).trace[k]
  {
    RunKeeps(EMPTY, steps);
    var trace := Run(EMPTY, steps).trace;
    assert EventOk(trace, k) && EventOk(trace, k - 1);
    assert Subject(trace[j]) == Some(trace[j].id);
  }

  /** An approve call goes out once per action, with the request id its own staging has just returned. */
  lemma ApproveCarriesItsOwnStaging(steps: seq<Step>, k: nat)
    requires k < |Run(EMPTY, steps).trace| && Run(EMPTY, steps).trace[k].ApproveSent?
    ensures var trace := Run(EMPTY, steps).trace;
      && k > 0 && trace[k - 1] == StageReturned(trace[k].id, trace[k].requestId)
      && Earlier(trace, StageSent(trace[k].id), k - 1)
      && forall j | 0 <= j < k :: !(trace[j].ApproveSent? && trace[j].id == trace[k].id)
  {
    RunKeeps(EMPTY, steps);
    var trace := Run(EMPTY, steps).trace;
    assert EventOk(trace, k) && EventOk(trace, k - 1);
    forall j | 0 <= j < k - 1 && Subject(trace[j]) == Some(trace[k].id)
      ensures !trace[j].ApproveSent?
    {
    }
  }

  /** What the user sees as approved was executed: its own approve or read call was sent, then succeeded. */
  lemma ApprovedMeansExecuted(steps: seq<Step>, i: nat)
    requires i < |Run(EMPTY, steps).actions| && Run(EMPTY, steps).actions[i].state == Approved
    ensures DoneOk(Run(EMPTY, steps).actions[i], Run(EMPTY, steps).trace)
  {
    RunKeeps(EMPTY, steps);
    var q := Run(EMPTY, steps);
    assert ActionOk(q.actions[i], PhaseOf(q.waiting, q.actions[i].id), q.trace);
  }

  /** Nothing about a pending or rejected action has ever reached the Bridge. */
  lemma UnapprovedNeverReachesTheBridge(steps: seq<Step>, i: nat, k: nat)
    requires i < |Run(EMPTY, steps).actions| && k < |Run(EMPTY, steps).trace|
    requires Run(EMPTY, steps).actions[i].state in {Pending, Rejected}
    ensures Subject(Run(EMPTY, steps).trace[k]) != Some(Run(EMPTY, steps).actions[i].id)
  {
    RunKeeps(EMPTY, steps);
    var q := Run(EMPTY, steps);
    assert ActionOk(q.actions[i], PhaseOf(q.waiting, q.actions[i].id), q.trace);
  }

  /** One card per block: re-rendered blocks never come back, not even after a decision. */
  lemma PendingFingerprintsStayDistinct(steps: seq<Step>)
    ensures DistinctFingerprints(Run(EMPTY, steps).actions) && DistinctIds(Run(EMPTY, steps).actions)
  {
    RunKeeps(EMPTY, steps);
  }

  predicate Decided(state: ApprovalState) {
    state in {Approved, Rejected, Failed}
  }

  /** Nothing will happen to the card any more: it was decided, or it was approving when its handler was lost. */
  predicate Settled(q: Queue, i: nat)
    requires i < |q.actions|
  {
    Decided(q.actions[i].state) || Stranded(q, i)
  }

  predicate Stranded(q: Queue, i: nat)
    requires i < |q.actions|
  {
    q.actions[i].state == Approving && q.actions[i].id !in q.waiting
  }

  /** The card at position `i` is the same card, unchanged if it was settled, and nothing more happened to it. */
  predicate SameCard(q: Queue, r: Queue, i: nat)
    requires i < |q.actions|
  {
    && i < |r.actions| && q.trace <= r.trace
    && r.actions[i].id == q.actions[i].id
    && r.actions[i].fingerprint == q.actions[i].fingerprint
    && r.actions[i].mutating == q.actions[i].mutating
    && (Settled(q, i) ==> r.actions[i] == q.actions[i] && Settled(r, i) && Quiet(q, r, q.actions[i].id))
  }

  predicate Quiet(q: Queue, r: Queue, id: Id) {
    forall k | |q.trace| <= k < |r.trace| :: Subject(r.trace[k]) != Some(id)
  }

  lemma {:induction false} CapturedKeepsCards(q: Queue, results: seq<ParseResult>)
    ensures var r := Captured(q, results);
      r.trace == q.trace && r.waiting == q.waiting && q.actions <= r.actions
    ensures forall i | |q.actions| <= i < |Captured(q, results).actions| ::
      Captured(q, results).actions[i].state == Pending
    decreases results
  {
    if results != [] {
      match results[0]
      case Ignored => CapturedKeepsCards(q, results[1..]);
      case Valid(fingerprint, mutating) =>
        var action := Action(q.nextId, fingerprint, mutating, Pending, None);
        CapturedKeepsCards(q.(actions := AddPending(q.actions, action), nextId := q.nextId + 1), results[1..]);
    }
  }

  lemma PatchedKeepsCard(q: Queue, r: Queue, id: Id, more: seq<Event>, i: nat)
    requires i < |q.actions| && |r.actions| == |q.actions| && r.trace == q.trace + more
    requires q.actions[i].id == id ==> !Settled(q, i)
    requires forall other | other != id :: other in r.waiting <==> other in q.waiting
    requires r.actions[i] ==
      if q.actions[i].id == id then
        q.actions[i].(state := r.actions[i].state, bridgeRequestId := r.actions[i].bridgeRequestId)
      else q.actions[i]
    requires About(more, id)
    ensures SameCard(q, r, i)
  {
    forall k | |q.trace| <= k < |r.trace|
      ensures Subject(r.trace[k]) == Some(id)
    {
      assert r.trace[k] == more[k - |q.trace|];
    }
  }

  lemma ClickKeepsCard(q: Queue, id: Id, i: nat)
    requires Inv(q) && i < |q.actions|
    ensures SameCard(q, OnApprove(q, id), i) && SameCard(q, OnReject(q, id), i)
  {
    hide Inv, SameCard, Settled, Find;
    UniqueCard(q, id, i);
    if IsPending(q, id) {
      var sent := if Find(q.actions, id).value.mutating then StageSent(id) else ReadSent(id);
      PatchedKeepsCard(q, OnApprove(q, id), id, [Clicked(id), sent], i);
      assert q.trace + [] == q.trace;
      PatchedKeepsCard(q, OnReject(q, id), id, [], i);
    } else {
      SameQueueKeepsCard(q, i);
    }
  }

  lemma SameQueueKeepsCard(q: Queue, i: nat)
    requires i < |q.actions|
    ensures SameCard(q, q, i)
  {
  }

  lemma UniqueCard(q: Queue, id: Id, i: nat)
    requires Inv(q) && i < |q.actions|
    ensures q.actions[i].id == id ==> Find(q.actions, id) == Some(q.actions[i])
    ensures q.actions[i].id == id && (id in q.waiting || q.actions[i].state == Pending) ==> !Settled(q, i)
  {
    FindAt(q.actions, i);
    assert ActionOk(q.actions[i], PhaseOf(q.waiting, q.actions[i].id), q.trace);
  }

  lemma ReplyKeepsCard(q: Queue, step: Step, i: nat)
    requires Inv(q) && i < |q.actions| && (step.StageReply? || step.ApproveReply? || step.ReadReply?)
    ensures SameCard(q, Next(q, step), i)
  {
    hide Inv, SameCard, Settled, Find;
    var r := Next(q, step);
    UniqueCard(q, step.id, i);
    SameQueueKeepsCard(q, i);
    if r != q {
      var more := r.trace[|q.trace|..];
      assert r.trace == q.trace + more;
      PatchedKeepsCard(q, r, step.id, more, i);
    }
  }

  lemma StepKeepsCard(q: Queue, step: Step, i: nat)
    requires Inv(q) && i < |q.actions|
    ensures SameCard(q, Next(q, step), i)
  {
    hide Inv, Captured, OnApprove, OnReject;
    match step
    case Capture(results) => CapturedKeepsCards(q, results);
    case Approve(id) => ClickKeepsCard(q, id, i);
    case Reject(id) => ClickKeepsCard(q, id, i);
    case ApproveRecovered(_) =>
    case Reload =>
    case _ => ReplyKeepsCard(q, step, i);
  }

  /**
   * Approved, rejected and failed are final, a stranded card stays stranded, and no step ever changes what a
   * card stands for.
   */
  lemma {:induction false} CardsAreStable(q: Queue, steps: seq<Step>, i: nat)
    requires Inv(q) && i < |q.actions|
    ensures SameCard(q, Run(q, steps), i)
    decreases steps
  {
    hide Inv, Next, Settled;
    if steps != [] {
      var r := Next(q, steps[0]);
      StepKeeps(q, steps[0]);
      StepKeepsCard(q, steps[0], i);
      CardsAreStable(r, steps[1..], i);
      var s := Run(r, steps[1..]);
      forall k | |q.trace| <= k < |s.trace| && Settled(q, i)
        ensures Subject(s.trace[k]) != Some(q.actions[i].id)
      {
        if k < |r.trace| {
          assert s.trace[k] == r.trace[k];
        }
      }
    }
  }

  lemma EmptyIsFine()
    ensures Inv(EMPTY)
  {
  }

  lemma InvFacts(q: Queue)
    requires Inv(q)
    ensures DistinctIds(q.actions) && DistinctFingerprints(q.actions)
  {
  }

  /** A reload settles exactly the cards that are not pending: no handler is left to serve them. */
  lemma ReloadStrands(q: Queue, i: nat)
    requires i < |q.actions|
    ensures var r := Next(q, Reload);
      r.actions == q.actions && (Settled(r, i) <==> q.actions[i].state != Pending)
  {
  }

  // ---------------------------------------------------------- cards that get stuck

  lemma ChangeStrandsNobody(q: Queue, r: Queue, id: Id, i: nat)
    requires i < |r.actions| && |r.actions| == |q.actions| && Stranded(r, i)
    requires forall other | other != id :: other in r.waiting <==> other in q.waiting
    requires r.actions[i].id == q.actions[i].id
    requires if q.actions[i].id == id then r.actions[i].state != Approving || id in r.waiting
             else r.actions[i].state == q.actions[i].state
    ensures Stranded(q, i)
  {
  }

  /** Only a reload strands a card. */
  lemma OnlyReloadStrands(q: Queue, step: Step, i: nat)
    requires !step.Reload? && i < |Next(q, step).actions| && Stranded(Next(q, step), i)
    ensures i < |q.actions| && Stranded(q, i)
  {
    var r := Next(q, step);
    match step
    case Capture(results) => CapturedKeepsCards(q, results);
    case ApproveRecovered(_) =>
    case Approve(id) =>
      if r != q {
        ChangeStrandsNobody(q, r, id, i);
      }
    case Reject(id) =>
      if r != q {
        ChangeStrandsNobody(q, r, id, i);
      }
    case StageReply(id, _) =>
      if r != q {
        ChangeStrandsNobody(q, r, id, i);
      }
    case ApproveReply(id, _) =>
      if r != q {
        ChangeStrandsNobody(q, r, id, i);
      }
    case ReadReply(id, _) =>
      if r != q {
        ChangeStrandsNobody(q, r, id, i);
      }
  }

  /** Step `k` of the run reloads the page while card `i` is on the list and being approved. */
  predicate ReloadedWhileApproving(steps: seq<Step>, k: int, i: nat) {
    && 0 <= k < |steps| && steps[k].Reload?
    && i < |Run(EMPTY, steps[..k]).actions| && Run(EMPTY, steps[..k]).actions[i].state == Approving
  }

  lemma RunOneMore(steps: seq<Step>, last: Step)
    ensures Run(EMPTY, steps + [last]) == Next(Run(EMPTY, steps), last)
  {
    RunAppend(EMPTY, steps, [last]);
    assert [last][1..] == [];
    assert Run(Run(EMPTY, steps), [last]) == Next(Run(EMPTY, steps), last);
  }

  /**
   * A card is stuck, approving with nobody left to carry it on, exactly when some reload came while it was
   * being approved. Only that strands a card, and nothing afterwards moves it.
   */
  lemma {:induction false} StrandedExactlyWhen(steps: seq<Step>, i: nat)
    requires i < |Run(EMPTY, steps).actions|
    ensures Stranded(Run(EMPTY, steps), i) <==> exists k :: ReloadedWhileApproving(steps, k, i)
    decreases |steps|
  {
    hide Inv, Next, Run;
    if steps == [] {
      assert Run(EMPTY, []).actions == [] by { RunNothing(); }
    } else {
      var init, last := steps[..|steps| - 1], steps[|steps| - 1];
      assert steps == init + [last];
      RunOneMore(init, last);
      var q := Run(EMPTY, init);
      assert Inv(q) by { EmptyIsFine(); RunKeeps(EMPTY, init); }
      assert forall k | 0 <= k < |init| :: steps[..k] == init[..k] && steps[k] == init[k];
      assert steps[..|init|] == init;
      if i < |q.actions| {
        StrandedExactlyWhen(init, i);
        StepKeepsCard(q, last, i);
        if k :| ReloadedWhileApproving(init, k, i) {
          assert ReloadedWhileApproving(steps, k, i);
        }
      } else {
        NotYetThere(init, i);
      }
      if last.Reload? {
        ReloadKeepsActions(q);
        ReloadStrands(q, i);
        if q.actions[i].state == Approving {
          assert ReloadedWhileApproving(steps, |init|, i);
        }
      } else if Stranded(Run(EMPTY, steps), i) {
        OnlyReloadStrands(q, last, i);
      }
      if k :| ReloadedWhileApproving(steps, k, i) {
        assert k < |init| ==> ReloadedWhileApproving(init, k, i);
      }
    }
  }

  lemma ReloadKeepsActions(q: Queue)
    ensures Next(q, Reload).actions == q.actions
  {
  }

  lemma RunNothing()
    ensures Run(EMPTY, []) == EMPTY
  {
  }

  /** A card that is not on the list yet was never there before. */
  lemma {:induction false} NotYetThere(steps: seq<Step>, i: nat)
    requires i >= |Run(EMPTY, steps).actions|
    ensures forall k | 0 <= k <= |steps| :: i >= |Run(EMPTY, steps[..k]).actions|
    decreases |steps|
  {
    hide Inv, Next, Run;
    if steps == [] {
    } else {
      var init, last := steps[..|steps| - 1], steps[|steps| - 1];
      assert steps == init + [last];
      RunOneMore(init, last);
      assert Inv(Run(EMPTY, init)) by { EmptyIsFine(); RunKeeps(EMPTY, init); }
      if i < |Run(EMPTY, init).actions| {
        StepKeepsCard(Run(EMPTY, init), last, i);
      }
      NotYetThere(init, i);
      assert forall k | 0 <= k <= |init| :: steps[..k] == init[..k];
      assert steps[..|steps|] == steps;
    }
  }

  /** One block captured and approved is all it takes: a reload then strands its card. */
  lemma StrandingIsReachable(fingerprint: string, mutating: bool)
    ensures var q := Run(EMPTY, [Capture([Valid(fingerprint, mutating)]), Approve(0), Reload]);
      |q.actions| == 1 && Stranded(q, 0)
  {
    var results := [Valid(fingerprint, mutating)];
    assert results[1..] == [];
    var q1 := Next(EMPTY, Capture(results));
    var card := Action(0, fingerprint, mutating, Pending, None);
    assert AddPending([], card) == [card];
    assert q1 == Captured(EMPTY.(actions := [card], nextId := 1), []);
    assert q1.actions == [card];
    var q2 := Next(q1, Approve(0));
    assert [Capture(results), Approve(0), Reload][1..] == [Approve(0), Reload];
    assert [Approve(0), Reload][1..] == [Reload] && [Reload][1..] == [];
    assert Run(q2, [Reload]) == Next(q2, Reload);
    assert Run(q1, [Approve(0), Reload]) == Next(q2, Reload);
  }

  /**
   * A card whose approval was under way when the page was reloaded never leaves that state: it shows
   * "approving" for good, in every later run, and its block is not offered again.
   */
  lemma ReloadStrandsApprovingCards(before: seq<Step>, after: seq<Step>, i: nat)
    requires var q := Run(EMPTY, before); i < |q.actions| && q.actions[i].state == Approving
    ensures var q := Run(EMPTY, before);
      var r := Run(Next(q, Reload), after);
      i < |r.actions| && r.actions[i] == q.actions[i] && DistinctFingerprints(r.actions)
  {
    hide Inv, Next, Run;
    var q := Run(EMPTY, before);
    assert Inv(EMPTY) by { EmptyIsFine(); }
    RunKeeps(EMPTY, before);
    StepKeeps(q, Reload);
    RunKeeps(Next(q, Reload), after);
    ReloadStrands(q, i);
    CardsAreStable(Next(q, Reload), after, i);
    assert DistinctFingerprints(Run(Next(q, Reload), after).actions) by { InvFacts(Run(Next(q, Reload), after)); }
  }
}
