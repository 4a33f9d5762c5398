/** The approval handlers of the controller, each up to its next network await. */
module ApprovalController {
  import opened Options
  import opened Approvals

  class ApprovalHandlers {
    var pendingActions: seq<Action>
    /** The handlers that wait for the Bridge, by the card they serve. */
    var waiting: map<Id, Phase>
    var counter: Id
    /** What went over the wire, oldest first. */
    var trace: seq<Event>

    /** A page load: the stored cards come back, and no handler waits for any of them. */
    constructor (stored: seq<Action>, counter: Id, sent: seq<Event>)
      ensures forall waiting :: State() == Next(Queue(stored, waiting, sent, counter), Reload)
    {
      pendingActions, waiting, this.counter, trace := stored, map[], counter, sent;
    }

    ghost function State(): Queue
      reads this
    {
      Queue(pendingActions, waiting, trace, counter)
    }

    /** The store's `addPending`: a block that is already on the list is not added again. */
    method AddPending(action: Action)
      modifies this`pendingActions
      ensures pendingActions == Approvals.AddPending(old(pendingActions), action)
    {
      if Known(pendingActions, action.fingerprint) {
        return;
      }
      pendingActions := pendingActions + [action];
    }

    /** Parser output from the observer: valid blocks become cards, the others are only logged. */
    method HandleParseResults(results: seq<ParseResult>)
      modifies this
      ensures State() == Next(old(State()), Capture(results))
    {
      assert results[0..] == results;
      for i := 0 to |results|
        invariant Captured(State(), results[i..]) == Captured(old(State()), results)
      {
        assert results[i..][0] == results[i] && results[i..][1..] == results[i + 1..];
        match results[i] {
          case Ignored =>
          case Valid(fingerprint, mutating) =>
            var id := counter;
            counter := counter + 1;
            ghost var before := pendingActions;
            AddPending(Action(id, fingerprint, mutating, Pending, None));
            CapturedCard(before, waiting, trace, id, results[i..]);
        }
      }
    }

    /** Approve: stage a write on the Bridge, or send a read. */
    method ApproveClicked(id: Id)
      modifies this
      ensures State() == Next(old(State()), Approve(id))
    {
      var item := Find(pendingActions, id);
      if item.None? || item.value.state != Pending {
        return;
      }
      pendingActions := Change(pendingActions, id, Approving);
      trace := trace + [Clicked(id)];
      if !item.value.mutating {
        waiting := waiting[id := Reading];
        trace := trace + [ReadSent(id)];
      } else {
        waiting := waiting[id := Staging];
        trace := trace + [StageSent(id)];
      }
      assert trace == old(trace) + [Clicked(id), if item.value.mutating then StageSent(id) else ReadSent(id)];
    }

    /** Reject: nothing is sent. */
    method RejectClicked(id: Id)
      modifies this
      ensures State() == Next(old(State()), Reject(id))
    {
      var item := Find(pendingActions, id);
      if item.None? || item.value.state != Pending {
        return;
      }
      pendingActions := Change(pendingActions, id, Rejected);
    }

    /** The code after the awaited staging call; a refused or lost call ends in `failAction`. */
    method StageSettled(id: Id, reply: Option<RequestId>)
      requires id in waiting && waiting[id].Staging?
      modifies this
      ensures State() == Next(old(State()), StageReply(id, reply))
    {
      if reply.None? {
        FailAction(id);
        return;
      }
      trace := trace + [StageReturned(id, reply.value)];
      pendingActions := Name(pendingActions, id, reply.value);
      trace := trace + [ApproveSent(id, reply.value)];
      waiting := waiting[id := Executing(reply.value)];
      assert trace == old(trace) + [StageReturned(id, reply.value), ApproveSent(id, reply.value)];
    }

    /** The code after the awaited approve call. */
    method ApproveSettled(id: Id, ok: bool)
      requires id in waiting && waiting[id].Executing?
      modifies this
      ensures State() == Next(old(State()), ApproveReply(id, ok))
    {
      if !ok {
        FailAction(id);
        return;
      }
      trace := trace + [ApproveReturned(id)];
      pendingActions := Change(pendingActions, id, Approved);
      waiting := waiting - {id};
    }

    /** The code after the awaited read call. */
    method ReadSettled(id: Id, ok: bool)
      requires id in waiting && waiting[id].Reading?
      modifies this
      ensures State() == Next(old(State()), ReadReply(id, ok))
    {
      if !ok {
        FailAction(id);
        return;
      }
      trace := trace + [ReadReturned(id)];
      pendingActions := Change(pendingActions, id, Approved);
      waiting := waiting - {id};
    }

    method FailAction(id: Id)
      modifies this
      ensures State() == Fail(old(State()), id)
    {
      pendingActions := Change(pendingActions, id, Failed);
      waiting := waiting - {id};
    }
  }

  lemma CapturedCard(actions: seq<Action>, waiting: map<Id, Phase>, trace: seq<Event>, id: Id, results: seq<ParseResult>)
    requires results != [] && results[0].Valid?
    ensures var action := Action(id, results[0].fingerprint, results[0].mutating, Pending, None);
      Captured(Queue(actions, waiting, trace, id), results)
      == Captured(Queue(AddPending(actions, action), waiting, trace, id + 1), results[1..])
  {
  }
}
