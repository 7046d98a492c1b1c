/** The dispatch fields of the session agent and the critical sections that change
    them, each tied to what it does to one session's state. */
module SessionAgent {
  import opened Transcript
  import opened DispatchSorting
  import opened DispatchState

  class AcceptedRun {
    const session: string
    const seqNo: nat
    var done: bool

    constructor (session: string, seqNo: nat)
      ensures this.session == session && this.seqNo == seqNo && !done
    {
      this.session, this.seqNo, done := session, seqNo, false;
    }
  }

  predicate Sorted(queue: seq<Queued>, mark: nat, keep: seq<Queued>, fold: seq<Queued>, canceled: seq<Queued>) {
    keep == Pick(queue, mark, Keep) && fold == Pick(queue, mark, Fold) && canceled == Named(Pick(queue, mark, Drop))
  }

  lemma SortedSnoc(front: seq<Queued>, q: Queued, mark: nat, keep: seq<Queued>, fold: seq<Queued>,
                   canceled: seq<Queued>)
    requires Sorted(front, mark, keep, fold, canceled)
    ensures match FateOf(q, mark)
      case Drop => Sorted(front + [q], mark, keep, fold, if q.runId != "" then canceled + [q] else canceled)
      case Keep => Sorted(front + [q], mark, keep + [q], fold, canceled)
      case Fold => Sorted(front + [q], mark, keep, fold + [q], canceled)
  {
    PickSnoc(front, q, mark, Keep);
    PickSnoc(front, q, mark, Fold);
    PickSnoc(front, q, mark, Drop);
    NamedSnoc(Pick(front, mark, Drop), q);
  }

  class Agent {
    var acceptSeqGen: nat
    var acceptedRuns: map<string, nat>
    var cancelMark: map<string, nat>
    var messageQueue: map<string, seq<Queued>>
    var activeRequests: map<string, nat>
    /** The dropped prompts a cancelled terminal event was published for. */
    var published: seq<Queued>

    constructor ()
      ensures forall s :: View(s) == Shared(0, 0, 0, [], None)
      ensures published == []
    {
      acceptSeqGen, acceptedRuns, cancelMark := 0, map[], map[];
      messageQueue, activeRequests, published := map[], map[], [];
    }

    /** One session's dispatch state; an absent entry is a zero. */
    ghost function View(s: string): Shared
      reads this
    {
      Shared(acceptSeqGen,
             if s in acceptedRuns then acceptedRuns[s] else 0,
             if s in cancelMark then cancelMark[s] else 0,
             if s in messageQueue then messageQueue[s] else [],
             if s in activeRequests then Some(activeRequests[s]) else None)
    }

    /** Other sessions see nothing but the accept sequence move. */
    twostate predicate OthersKeep(s: string)
      reads this
    {
      forall t :: t != s ==> View(t) == old(View(t)).(seqGen := acceptSeqGen)
    }

    method BeginAccepted(s: string) returns (run: AcceptedRun)
      modifies this
      ensures View(s) == Begin(old(View(s))) && OthersKeep(s) && published == old(published)
      ensures fresh(run) && run.session == s && run.seqNo == acceptSeqGen && !run.done
    {
      var count := if s in acceptedRuns then acceptedRuns[s] else 0;
      acceptedRuns := acceptedRuns[s := count + 1];
      acceptSeqGen := acceptSeqGen + 1;
      run := new AcceptedRun(s, acceptSeqGen);
    }

    method EndAccepted(s: string)
      modifies this
      ensures View(s) == End(old(View(s))) && OthersKeep(s) && published == old(published)
    {
      if s !in acceptedRuns || acceptedRuns[s] <= 1 {
        acceptedRuns := acceptedRuns - {s};
        cancelMark := cancelMark - {s};
        return;
      }
      acceptedRuns := acceptedRuns[s := acceptedRuns[s] - 1];
    }

    /** Closing a handle twice releases its reservation once. */
    method Close(run: AcceptedRun)
      modifies this, run
      ensures run.done
      ensures View(run.session) == (if old(run.done) then old(View(run.session)) else End(old(View(run.session))))
      ensures OthersKeep(run.session) && published == old(published)
    {
      if run.done { return; }
      run.done := true;
      EndAccepted(run.session);
    }

    predicate CanceledBySeq(s: string, seqNo: nat)
      reads this
      ensures CanceledBySeq(s, seqNo) <==> Covered(View(s).mark, seqNo)
    {
      s in cancelMark && cancelMark[s] != 0 && (seqNo == 0 || seqNo <= cancelMark[s])
    }

    method EnqueueCall(s: string, ticket: nat, runId: string, accepted: AcceptedRun?)
      modifies this`messageQueue
      ensures View(s) == old(View(s)).(queue := old(View(s).queue) +
                           [Queued(ticket, runId, if accepted != null then accepted.seqNo else 0)])
      ensures OthersKeep(s)
    {
      var existing := if s in messageQueue then messageQueue[s] else [];
      var queued := Queued(ticket, runId, if accepted != null then accepted.seqNo else 0);
      messageQueue := messageQueue[s := existing + [queued]];
    }

    method SortQueue(s: string, queue: seq<Queued>)
      returns (keep: seq<Queued>, fold: seq<Queued>, canceled: seq<Queued>)
      ensures keep == Pick(queue, View(s).mark, Keep) && fold == Pick(queue, View(s).mark, Fold)
      ensures canceled == Named(Pick(queue, View(s).mark, Drop))
    {
      keep, fold, canceled := [], [], [];
      ghost var mark := View(s).mark;
      for i := 0 to |queue|
        invariant Sorted(queue[..i], mark, keep, fold, canceled)
      {
        var q := queue[i];
        assert queue[..i + 1] == queue[..i] + [q];
        SortedSnoc(queue[..i], q, mark, keep, fold, canceled);
        if CanceledBySeq(s, q.acceptSeq) {
          if q.runId != "" { canceled := canceled + [q]; }
        } else if q.runId != "" {
          keep := keep + [q];
        } else {
          fold := fold + [q];
        }
      }
      assert queue[..|queue|] == queue;
    }

    method DrainQueueForStep(s: string) returns (fold: seq<Queued>, canceled: seq<Queued>)
      modifies this`messageQueue
      ensures View(s) == Drain(old(View(s))) && OthersKeep(s)
      ensures fold == Pick(old(View(s).queue), View(s).mark, Fold)
      ensures canceled == Named(Pick(old(View(s).queue), View(s).mark, Drop))
      ensures var queue, mark := old(View(s).queue), old(View(s).mark);
        && TakenFrom(View(s).queue, queue, Where(queue, mark, false, true))
        && TakenFrom(fold, queue, Where(queue, mark, false, false))
        && TakenFrom(canceled, queue, Where(queue, mark, true, true))
    {
      DrainSorts(View(s).queue, View(s).mark);
      var keep;
      keep, fold, canceled := SortQueue(s, if s in messageQueue then messageQueue[s] else []);
      if |keep| == 0 {
        messageQueue := messageQueue - {s};
      } else {
        messageQueue := messageQueue[s := keep];
      }
    }

    method PublishCanceledQueueDrops(drops: seq<Queued>)
      modifies this`published
      ensures published == old(published) + Named(drops)
    {
      for i := 0 to |drops|
        invariant published == old(published) + Named(drops[..i])
      {
        assert drops[..i + 1][..i] == drops[..i];
        if drops[i].runId != "" { published := published + [drops[i]]; }
      }
      assert drops[..|drops|] == drops;
    }

    method ClearQueueAndNotify(s: string)
      modifies this`messageQueue, this`published
      ensures View(s) == old(View(s)).(queue := []) && OthersKeep(s)
      ensures published == old(published) + Named(old(View(s).queue))
    {
      if s in messageQueue {
        var queued := messageQueue[s];
        messageQueue := messageQueue - {s};
        PublishCanceledQueueDrops(queued);
      }
    }

    /** The dispatch decision at the head of a turn. */
    method EnterTurn(s: string, ticket: nat, runId: string, accepted: AcceptedRun?, token: nat) returns (entry: Entry)
      requires accepted != null ==> accepted.session == s && !accepted.done
      modifies this, accepted
      ensures var handle := if accepted != null then Some(accepted.seqNo) else None;
        entry == EntryOf(old(View(s)), handle) && View(s) == Enter(old(View(s)), ticket, runId, handle, token)
      ensures accepted != null ==> accepted.done
      ensures OthersKeep(s) && published == old(published)
    {
      if accepted != null && CanceledBySeq(s, accepted.seqNo) {
        Close(accepted);
        return CanceledOnEntry;
      }
      if s in activeRequests {
        EnqueueCall(s, ticket, runId, accepted);
        if accepted != null { Close(accepted); }
        return Enqueued;
      }
      activeRequests := activeRequests[s := token];
      if accepted != null { Close(accepted); }
      return BecameActive;
    }

    /** A finished run gives up the slot without looking at who holds it. */
    method ReleaseSlot(s: string)
      modifies this`activeRequests
      ensures View(s) == old(View(s)).(active := None) && OthersKeep(s)
    {
      activeRequests := activeRequests - {s};
    }

    method CompareAndDelete(s: string, token: nat)
      modifies this`activeRequests
      ensures View(s) == (if old(View(s).active) == Some(token) then old(View(s)).(active := None) else old(View(s)))
      ensures OthersKeep(s)
    {
      if s in activeRequests && activeRequests[s] == token { activeRequests := activeRequests - {s}; }
    }

    method QueueRetry(s: string, retry: Queued)
      modifies this`messageQueue
      ensures View(s) == old(View(s)).(queue := [retry] + old(View(s).queue)) && OthersKeep(s)
    {
      var existing := if s in messageQueue then messageQueue[s] else [];
      messageQueue := messageQueue[s := [retry] + existing];
    }

    static method SortCovered(queued: seq<Queued>, mark: nat) returns (kept: seq<Queued>, drops: seq<Queued>)
      requires mark > 0
      ensures kept == Uncovered(queued, mark) && drops == Named(Pick(queued, mark, Drop))
    {
      kept, drops := [], [];
      for i := 0 to |queued|
        invariant kept == Uncovered(queued[..i], mark)
        invariant drops == Named(Pick(queued[..i], mark, Drop))
      {
        var q := queued[i];
        assert queued[..i + 1] == queued[..i] + [q];
        PickSnoc(queued[..i], q, mark, Drop);
        NamedSnoc(Pick(queued[..i], mark, Drop), q);
        if q.acceptSeq == 0 || q.acceptSeq <= mark {
          if q.runId != "" { drops := drops + [q]; }
        } else {
          kept := kept + [q];
        }
      }
      assert queued[..|queued|] == queued;
    }

    /** The part of a hand-off a standing mark triggers. */
    method DropCovered(s: string, queued: seq<Queued>) returns (kept: seq<Queued>)
      requires queued == View(s).queue
      modifies this`messageQueue, this`published
      ensures kept == Survivors(old(View(s)))
      ensures View(s) == old(View(s)).(queue := kept) && OthersKeep(s)
      ensures published == old(published) + Named(HandoffDrops(old(View(s))))
    {
      kept := queued;
      if s in cancelMark && cancelMark[s] > 0 && |queued| > 0 {
        var drops;
        kept, drops := SortCovered(queued, cancelMark[s]);
        messageQueue := messageQueue[s := kept];
        NamedTwice(Pick(queued, cancelMark[s], Drop));
        PublishCanceledQueueDrops(drops);
      }
    }

    /** A run ID that a queued prompt carries on is owed by that prompt's turn. */
    static method OwesRunComplete(queued: seq<Queued>, runId: string) returns (owes: bool)
      ensures owes <==> runId != "" && forall k :: 0 <= k < |queued| ==> queued[k].runId != runId
    {
      owes := runId != "";
      if owes {
        for i := 0 to |queued|
          invariant owes <==> forall k :: 0 <= k < i ==> queued[k].runId != runId
        {
          if queued[i].runId == runId { owes := false; }
        }
      }
    }

    /** No queued work is left: a mark nothing accepted still needs goes with it. */
    method GoIdle(s: string)
      modifies this`messageQueue, this`cancelMark
      ensures View(s) == old(View(s)).(queue := [], mark := if View(s).count == 0 then 0 else old(View(s).mark))
      ensures OthersKeep(s)
    {
      messageQueue := messageQueue - {s};
      if s !in acceptedRuns || acceptedRuns[s] == 0 { cancelMark := cancelMark - {s}; }
    }

    /** The tail of a finished turn: drop what a standing cancel covers, then hand
        a fresh reservation to the first prompt left. */
    method HandOffTurn(s: string, runId: string) returns (next: Option<Queued>, run: AcceptedRun?, owes: bool)
      modifies this
      ensures View(s) == HandOff(old(View(s))) && OthersKeep(s)
      ensures published == old(published) + Named(HandoffDrops(old(View(s))))
      ensures var kept := Survivors(old(View(s)));
        if kept == [] then next == None && run == null && owes
        else next == Some(kept[0]) && run != null && run.seqNo == View(s).seqGen && !run.done
             && (owes <==> runId != "" && forall k :: 0 <= k < |kept| ==> kept[k].runId != runId)
    {
      var queued := DropCovered(s, if s in messageQueue then messageQueue[s] else []);
      if |queued| == 0 {
        GoIdle(s);
        return None, null, true;
      }
      owes := OwesRunComplete(queued, runId);
      messageQueue := messageQueue[s := queued[1..]];
      next := Some(queued[0]);
      run := BeginAccepted(s);
    }

    /** The reservations a Cancel finds; they are read under a lock of their own. */
    method ReadReservations(s: string) returns (seen: Option<nat>)
      ensures seen == Seen(View(s))
    {
      seen := if s in acceptedRuns && acceptedRuns[s] > 0 then Some(acceptSeqGen) else None;
    }

    /** The rest of a Cancel: by now the reservations may be others. */
    method RecordCancel(s: string, seen: Option<nat>)
      modifies this
      ensures View(s) == Recorded(old(View(s)), seen) && OthersKeep(s)
      ensures published == old(published) + Named(old(View(s).queue))
    {
      if seen.Some? {
        var existing := if s in cancelMark then cancelMark[s] else 0;
        cancelMark := cancelMark[s := Max(existing, seen.value)];
      }
      if s in messageQueue && |messageQueue[s]| > 0 {
        ClearQueueAndNotify(s);
      }
    }

    /** Cancelling a session nobody reserves or releases in meanwhile; `cancelled` is
        the run whose context was cancelled. */
    method Cancel(s: string) returns (cancelled: Option<nat>)
      modifies this
      ensures View(s) == Recorded(old(View(s)), Seen(old(View(s)))) && OthersKeep(s)
      ensures cancelled == old(View(s).active)
      ensures published == old(published) + Named(old(View(s).queue))
    {
      cancelled := None;
      if s in activeRequests { cancelled := Some(activeRequests[s]); }
      var seen := ReadReservations(s);
      RecordCancel(s, seen);
    }
  }
}
