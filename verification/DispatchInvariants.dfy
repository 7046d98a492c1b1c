/** Every step of the dispatch protocol keeps its invariants. */
module DispatchInvariants {
  import opened Transcript
  import opened DispatchState
  import opened DispatchProtocol

  // ----------------------------------------------------------- bookkeeping

  lemma OpenUpdate(calls: map<nat, Prompt>, t: nat, c: Prompt)
    ensures |Open(calls[t := c])| == |Open(calls - {t})| + if c.phase.Accepted? then 1 else 0
    ensures t in calls ==> |Open(calls)| == |Open(calls - {t})| + if calls[t].phase.Accepted? then 1 else 0
    ensures t !in calls ==> calls - {t} == calls
  {
    var rest := Open(calls - {t});
    assert t !in rest;
    assert Open(calls[t := c]) == if c.phase.Accepted? then rest + {t} else rest;
    if t in calls {
      assert Open(calls) == if calls[t].phase.Accepted? then rest + {t} else rest;
    }
  }

  function Debt(c: Prompt, r: string): nat { if c.runId == r && Owing(c.phase) then 1 else 0 }

  lemma DebtorsAdd(rest: map<nat, Prompt>, t: nat, c: Prompt, r: string)
    requires t !in rest
    ensures |Debtors(rest[t := c], r)| == |Debtors(rest, r)| + Debt(c, r)
  {
    var now, was := Debtors(rest[t := c], r), Debtors(rest, r);
    assert t !in was;
    if Debt(c, r) == 1 { assert now == was + {t}; } else { assert now == was; }
  }

  lemma DebtorsUpdate(calls: map<nat, Prompt>, t: nat, c: Prompt, r: string)
    ensures |Debtors(calls[t := c], r)| == |Debtors(calls - {t}, r)| + Debt(c, r)
    ensures t in calls ==> |Debtors(calls, r)| == |Debtors(calls - {t}, r)| + Debt(calls[t], r)
    ensures t !in calls ==> calls - {t} == calls
  {
    var rest := calls - {t};
    DebtorsAdd(rest, t, c, r);
    assert rest[t := c] == calls[t := c];
    if t in calls {
      DebtorsAdd(rest, t, calls[t], r);
      assert rest[t := calls[t]] == calls;
    }
  }

  // ---------------------------------------------------- handles and the mark

  lemma FirstSurvivor(s: State)
    requires Inv(s) && Survivors(s.shared) != []
    ensures var q := Survivors(s.shared)[0];
      && q in s.shared.queue && FateOf(q, s.shared.mark) != Drop && q.ticket !in s.calls
      && q.ticket < |s.owner| && q.runId == s.owner[q.ticket]
  {
    var q := Survivors(s.shared)[0];
    SurvivorsArePicked(s.shared);
    PickMember(s.shared.queue, s.shared.mark, Drop, q);
    var j :| 0 <= j < |s.shared.queue| && s.shared.queue[j] == q;
    assert Matches(s.shared.queue[j], ByTicket(q.ticket));
    CountMember(s.shared.queue, ByTicket(q.ticket));
    assert Places(s, q.ticket) <= 1;
  }

  /** Steps that move no call. */
  predicate MovesNone(e: Step) { e.AcceptElsewhere? || e.DrainForStep? || e.Retry? || e.EndCancel? }

  /** Steps that move one call which holds no handle. */
  predicate MovesOne(e: Step) {
    e.PublishEntryCancel? || e.Release? || e.Fail? || e.Publish? || e.Leave? || e.ClearAfterError?
  }

  lemma OneMoved(s: State, e: Step)
    requires Enabled(s, e) && MovesOne(e)
    ensures var after := Next(s, e);
      && e.t in s.calls && !s.calls[e.t].phase.Accepted?
      && after.calls.Keys <= s.calls.Keys
      && (forall u :: u in s.calls && u != e.t ==> u in after.calls && after.calls[u] == s.calls[u])
      && (e.t in after.calls ==> !after.calls[e.t].phase.Accepted? && after.calls[e.t].runId == s.calls[e.t].runId)
      && after.shared.count == s.shared.count && after.shared.mark == s.shared.mark
      && after.shared.seqGen == s.shared.seqGen
      && (after.shared.queue == s.shared.queue || after.shared.queue == [])
      && after.tokens == s.tokens && after.owner == s.owner && after.canceller == s.canceller
      && after.orphan == s.orphan
  {
  }

  lemma OpenKept(s: State, e: Step)
    requires Enabled(s, e) && (MovesNone(e) || MovesOne(e))
    ensures Open(Next(s, e).calls) == Open(s.calls) && Next(s, e).shared.count == s.shared.count
  {
    if MovesOne(e) { OneMoved(s, e); }
  }

  lemma CountEntering(s: State, t: nat, runId: string, handle: Option<nat>, fails: bool)
    requires Counted(s)
    requires handle.Some? <==> t in s.calls && s.calls[t].phase.Accepted?
    requires handle.None? ==> t !in s.calls
    ensures Counted(Dispatch(s, t, runId, handle, fails))
  {
    var after := Dispatch(s, t, runId, handle, fails);
    if t in after.calls {
      OpenUpdate(s.calls, t, after.calls[t]);
    } else {
      OpenUpdate(s.calls, t, Prompt("", Cleanup));
    }
  }

  lemma CountHandingOff(s: State, t: nat)
    requires Inv(s) && Enabled(s, FinishTurn(t))
    ensures Counted(Next(s, FinishTurn(t)))
  {
    var kept, after := Survivors(s.shared), Next(s, FinishTurn(t));
    if kept == [] {
      assert Open(after.calls) == Open(s.calls);
    } else {
      FirstSurvivor(s);
      var next := kept[0].ticket;
      OpenUpdate(s.calls, next, after.calls[next]);
      assert Open(after.calls) == Open(s.calls[next := after.calls[next]]);
    }
  }

  lemma CountKept(s: State, e: Step)
    requires Inv(s) && Enabled(s, e)
    ensures Counted(Next(s, e))
  {
    match e {
      case Accept(runId) => OpenUpdate(s.calls, |s.owner|, Prompt(runId, Accepted(s.shared.seqGen + 1, false, true)));
      case GiveUp(t) => OpenUpdate(s.calls, t, s.calls[t]);
      case EnterAccepted(t, fails) => CountEntering(s, t, s.calls[t].runId, Some(s.calls[t].phase.seqNo), fails);
      case EnterUntracked(runId) => CountEntering(Submit(s, runId), |s.owner|, runId, None, false);
      case FinishTurn(t) => CountHandingOff(s, t);
      case BeginCancel => assert Open(Next(s, e).calls) == Open(s.calls);
      case _ => OpenKept(s, e);
    }
  }

  /** An open handle keeps the count above zero. */
  lemma OpenMeansCounted(s: State, t: nat)
    requires Counted(s) && t in s.calls && s.calls[t].phase.Accepted?
    ensures s.shared.count > 0
    ensures s.shared.count == 1 ==> forall u :: u in s.calls && s.calls[u].phase.Accepted? ==> u == t
  {
    var open := Open(s.calls);
    assert t in open;
    forall u | u in s.calls && s.calls[u].phase.Accepted? && |open| == 1 ensures u == t {
      assert u in open && |open - {t}| == 0;
    }
  }

  lemma NoneOpen(s: State, t: nat)
    requires Counted(s) && s.shared.count == 0 && t in s.calls
    ensures !s.calls[t].phase.Accepted?
  {
    if s.calls[t].phase.Accepted? { OpenMeansCounted(s, t); }
  }

  /** Entering closes one handle: the mark stands while another is open. */
  lemma EnteringMark(s: State, t: nat, fails: bool)
    requires Counted(s) && Enabled(s, EnterAccepted(t, fails))
    ensures var after := Next(s, EnterAccepted(t, fails));
      && after.shared.mark == (if s.shared.count == 1 then 0 else s.shared.mark)
      && after.shared.seqGen == s.shared.seqGen && after.shared.count == s.shared.count - 1
      && after.canceller == s.canceller == Nobody && after.orphan == (s.orphan && after.shared.mark > 0)
  {
    OpenMeansCounted(s, t);
  }

  lemma EnteringHandles(s: State, t: nat, fails: bool, u: nat)
    requires Inv(s) && Enabled(s, EnterAccepted(t, fails)) && u in Next(s, EnterAccepted(t, fails)).calls
    ensures var after := Next(s, EnterAccepted(t, fails)); HandleFits(after.shared, Reach(after), after.calls[u].phase)
  {
    OpenMeansCounted(s, t);
    EnteringMark(s, t, fails);
    if u != t { assert HandleFits(s.shared, Reach(s), s.calls[u].phase); }
  }

  lemma EnteringQueue(s: State, t: nat, fails: bool, q: Queued)
    requires Inv(s) && Enabled(s, EnterAccepted(t, fails)) && q in Next(s, EnterAccepted(t, fails)).shared.queue
    ensures QueuedFits(Next(s, EnterAccepted(t, fails)).shared, q)
  {
    EnteringMark(s, t, fails);
    if q in s.shared.queue {
      assert QueuedFits(s.shared, q);
    } else {
      assert HandleFits(s.shared, Reach(s), s.calls[t].phase);
    }
  }

  lemma MarkEntering(s: State, t: nat, fails: bool)
    requires Inv(s) && Enabled(s, EnterAccepted(t, fails))
    ensures MarkIsExact(Next(s, EnterAccepted(t, fails)))
  {
    var after := Next(s, EnterAccepted(t, fails));
    EnteringMark(s, t, fails);
    forall u | u in after.calls
      ensures HandleFits(after.shared, Reach(after), after.calls[u].phase)
    {
      EnteringHandles(s, t, fails, u);
    }
    forall q | q in after.shared.queue ensures QueuedFits(after.shared, q) { EnteringQueue(s, t, fails, q); }
  }

  /** Steps that leave the mark alone keep it exact when any new handle is newer
      than every old one and the queue gains no tracked prompt. */
  lemma MarkCarries(s: State, after: State)
    requires MarkIsExact(s)
    requires after.shared.mark == s.shared.mark && after.shared.seqGen >= s.shared.seqGen
    requires s.shared.count > 0 ==> after.shared.count > 0
    requires after.canceller == s.canceller && after.orphan == s.orphan
    requires forall t :: t in after.calls && after.calls[t].phase.Accepted? ==>
      || (t in s.calls && s.calls[t].phase == after.calls[t].phase)
      || (&& after.calls[t].phase.seqNo == after.shared.seqGen && s.shared.seqGen < after.shared.seqGen
          && !after.calls[t].phase.hit)
    requires forall q :: q in after.shared.queue ==> q in s.shared.queue || q.acceptSeq == 0
    ensures MarkIsExact(after)
  {
    forall t | t in after.calls ensures HandleFits(after.shared, Reach(after), after.calls[t].phase) {
      if t in s.calls { assert HandleFits(s.shared, Reach(s), s.calls[t].phase); }
    }
    forall q | q in after.shared.queue ensures QueuedFits(after.shared, q) {
      if q in s.shared.queue { assert QueuedFits(s.shared, q); }
    }
  }

  /** Steps that drop the mark keep it exact: they leave no handle open. */
  lemma MarkDropped(s: State, after: State)
    requires MarkIsExact(s) && Counted(after) && after.shared.count == 0
    requires after.shared.mark == 0 && after.shared.seqGen == s.shared.seqGen
    requires after.canceller == s.canceller && !after.orphan
    requires forall q :: q in after.shared.queue ==> q in s.shared.queue
    ensures MarkIsExact(after)
  {
    forall t | t in after.calls
      ensures HandleFits(after.shared, Reach(after), after.calls[t].phase)
    {
      NoneOpen(after, t);
    }
    forall q | q in after.shared.queue ensures QueuedFits(after.shared, q) { assert QueuedFits(s.shared, q); }
  }

  lemma QueueShrinks(queue: seq<Queued>, mark: nat)
    ensures forall q :: q in Pick(queue, mark, Keep) || q in Uncovered(queue, mark) ==> q in queue
  {
    forall q | q in Pick(queue, mark, Keep) || q in Uncovered(queue, mark) ensures q in queue {
      PickMember(queue, mark, Keep, q);
    }
  }

  lemma MarkHandingOff(s: State, t: nat)
    requires Inv(s) && Enabled(s, FinishTurn(t))
    ensures MarkIsExact(Next(s, FinishTurn(t)))
  {
    var after := Next(s, FinishTurn(t));
    QueueShrinks(s.shared.queue, s.shared.mark);
    SurvivorsArePicked(s.shared);
    if Survivors(s.shared) == [] && s.shared.count == 0 {
      CountHandingOff(s, t);
      MarkDropped(s, after);
    } else {
      HandOffKeepsMark(s, t);
      MarkCarries(s, after);
    }
  }

  lemma HandOffKeepsMark(s: State, t: nat)
    requires MarkIsExact(s) && Enabled(s, FinishTurn(t)) && (Survivors(s.shared) != [] || s.shared.count > 0)
    ensures var after := Next(s, FinishTurn(t));
      && after.shared.mark == s.shared.mark && after.orphan == s.orphan && after.canceller == s.canceller
      && after.shared.count > 0 && after.shared.seqGen >= s.shared.seqGen
  {
  }

  lemma MarkGivingUp(s: State, t: nat)
    requires Inv(s) && Enabled(s, GiveUp(t))
    ensures MarkIsExact(Next(s, GiveUp(t)))
  {
    OpenMeansCounted(s, t);
    CountKept(s, GiveUp(t));
    if s.shared.count == 1 { MarkDropped(s, Next(s, GiveUp(t))); } else { MarkCarries(s, Next(s, GiveUp(t))); }
  }

  /** Reading the reservations, a Cancel hits exactly the handles open then. */
  lemma MarkStriking(s: State)
    requires Inv(s) && Enabled(s, BeginCancel)
    ensures MarkIsExact(Next(s, BeginCancel))
  {
    var after := Next(s, BeginCancel);
    forall t | t in s.calls ensures HandleFits(after.shared, Reach(after), after.calls[t].phase) {
      assert HandleFits(s.shared, Reach(s), s.calls[t].phase);
      if s.shared.count == 0 { NoneOpen(s, t); }
    }
  }

  /** Writing its mark, it hits no other handle. */
  lemma MarkRecording(s: State)
    requires Inv(s) && Enabled(s, EndCancel)
    ensures MarkIsExact(Next(s, EndCancel))
  {
    var after := Next(s, EndCancel);
    assert Reach(after) == Reach(s);
    forall t | t in after.calls ensures HandleFits(after.shared, Reach(after), after.calls[t].phase) {
      assert HandleFits(s.shared, Reach(s), s.calls[t].phase);
    }
  }

  lemma MarkDraining(s: State, t: nat)
    requires Inv(s) && Enabled(s, DrainForStep(t))
    ensures MarkIsExact(Next(s, DrainForStep(t)))
  {
    QueueShrinks(s.shared.queue, s.shared.mark);
    MarkCarries(s, Next(s, DrainForStep(t)));
  }

  lemma MarkUntouched(s: State, e: Step)
    requires Inv(s) && Enabled(s, e) && (e.AcceptElsewhere? || e.Retry? || MovesOne(e))
    ensures MarkIsExact(Next(s, e))
  {
    if MovesOne(e) { OneMoved(s, e); }
    MarkCarries(s, Next(s, e));
  }

  lemma MarkKept(s: State, e: Step)
    requires Inv(s) && Enabled(s, e)
    ensures MarkIsExact(Next(s, e))
  {
    match e {
      case EnterAccepted(t, fails) => MarkEntering(s, t, fails);
      case GiveUp(t) => MarkGivingUp(s, t);
      case FinishTurn(t) => MarkHandingOff(s, t);
      case BeginCancel => MarkStriking(s);
      case EndCancel => MarkRecording(s);
      case DrainForStep(t) => MarkDraining(s, t);
      case Accept(_) => MarkCarries(s, Next(s, e));
      case EnterUntracked(_) => MarkCarries(s, Next(s, e));
      case _ => MarkUntouched(s, e);
    }
  }

  // ----------------------------------------------------- a Cancel at work

  /** Without the lock no run starts or is spared. */
  lemma UnlockedStartsNothing(s: State, e: Step)
    requires Enabled(s, e) && !Locks(e) && !e.EndCancel?
    ensures var after := Next(s, e);
      && after.canceller == s.canceller
      && forall t :: t in after.calls && after.calls[t].phase.Running? ==>
           t in s.calls && s.calls[t].phase == after.calls[t].phase
  {
    if MovesOne(e) { OneMoved(s, e); }
  }

  lemma StrikeReachesRuns(s: State)
    requires Inv(s) && Enabled(s, BeginCancel)
    ensures RunsAreStruck(Next(s, BeginCancel))
  {
    forall t | t in s.calls && s.calls[t].phase.Running? ensures Struck(s.calls[t], s.shared.active).phase.cancelled {
      assert SlotFits(s.shared.active, s.tokens, s.calls[t].phase);
    }
    if s.shared.count > 0 {
      var t :| t in Open(s.calls);
      assert HandleFits(s.shared, Reach(s), s.calls[t].phase);
    }
  }

  lemma StruckKept(s: State, e: Step)
    requires Inv(s) && Enabled(s, e)
    ensures RunsAreStruck(Next(s, e))
  {
    if e.BeginCancel? {
      StrikeReachesRuns(s);
    } else if !Locks(e) && !e.EndCancel? {
      UnlockedStartsNothing(s, e);
    } else {
      LockedLeavesNobody(s, e);
    }
  }

  lemma LockedLeavesNobody(s: State, e: Step)
    requires Enabled(s, e) && (Locks(e) || e.EndCancel?) && !e.BeginCancel?
    ensures Next(s, e).canceller == Nobody
  {
  }

  // -------------------------------------------------------- the active slot

  predicate SameClaim(p: Phase, q: Phase) {
    HasToken(p) && HasToken(q) && p.token == q.token && (HoldsSlot(p) <==> HoldsSlot(q))
  }

  /** Steps that leave the slot alone keep it owned when no token changes hands. */
  lemma SlotCarries(s: State, after: State)
    requires SlotIsOwned(s)
    requires after.shared.active == s.shared.active && after.tokens == s.tokens
    requires forall t :: t in after.calls && HasToken(after.calls[t].phase) ==>
      t in s.calls && SameClaim(s.calls[t].phase, after.calls[t].phase)
    requires forall t :: t in s.calls && HoldsSlot(s.calls[t].phase) ==>
      t in after.calls && HoldsSlot(after.calls[t].phase)
    ensures SlotIsOwned(after)
  {
    forall t | t in after.calls ensures SlotFits(after.shared.active, after.tokens, after.calls[t].phase) {
      if t in s.calls { assert SlotFits(s.shared.active, s.tokens, s.calls[t].phase); }
    }
    forall t, u | t in after.calls && u in after.calls && t != u
      ensures TokensDiffer(after.calls[t].phase, after.calls[u].phase)
    {
      if t in s.calls && u in s.calls { assert TokensDiffer(s.calls[t].phase, s.calls[u].phase); }
    }
    if s.shared.active.Some? {
      var t :| t in s.calls && HoldsSlot(s.calls[t].phase);
      assert t in after.calls && HoldsSlot(after.calls[t].phase);
    }
  }

  lemma SlotTaken(s: State, t: nat, runId: string)
    requires SlotIsOwned(s) && s.shared.active == None
    requires t in s.calls ==> !HasToken(s.calls[t].phase)
    ensures SlotIsOwned(s.(calls := s.calls[t := Prompt(runId, Running(s.tokens, false))], tokens := s.tokens + 1,
                           shared := s.shared.(active := Some(s.tokens))))
  {
    var calls := s.calls[t := Prompt(runId, Running(s.tokens, false))];
    assert t in calls && HoldsSlot(calls[t].phase);
    forall u | u in s.calls && u != t ensures SlotFits(Some(s.tokens), s.tokens + 1, s.calls[u].phase) {
      assert SlotFits(s.shared.active, s.tokens, s.calls[u].phase);
    }
  }

  lemma SlotEntering(s: State, t: nat, runId: string, handle: Option<nat>, fails: bool)
    requires SlotIsOwned(s)
    requires t in s.calls ==> s.calls[t].phase.Accepted?
    ensures SlotIsOwned(Dispatch(s, t, runId, handle, fails))
  {
    var after := Dispatch(s, t, runId, handle, fails);
    if EntryOf(s.shared, handle) == BecameActive {
      SlotTaken(s, t, runId);
    } else {
      SlotCarries(s, after);
    }
  }

  /** Giving up the slot takes away the holder's own entry. */
  lemma SlotGivenUp(s: State, after: State, t: nat)
    requires SlotIsOwned(s) && t in s.calls && HoldsSlot(s.calls[t].phase)
    requires after.shared.active == None && after.tokens == s.tokens
    requires after.calls.Keys <= s.calls.Keys
    requires t in after.calls && HasToken(after.calls[t].phase) ==>
      SameToken(s.calls[t].phase, after.calls[t].phase) && !HoldsSlot(after.calls[t].phase)
    requires forall u :: u in after.calls && u != t ==> after.calls[u] == s.calls[u]
    ensures SlotIsOwned(after)
  {
    forall u | u in after.calls ensures SlotFits(None, s.tokens, after.calls[u].phase) {
      assert SlotFits(s.shared.active, s.tokens, s.calls[u].phase);
      assert SlotFits(s.shared.active, s.tokens, s.calls[t].phase);
      assert u != t ==> TokensDiffer(s.calls[t].phase, s.calls[u].phase);
    }
    forall u, w | u in after.calls && w in after.calls && u != w
      ensures TokensDiffer(after.calls[u].phase, after.calls[w].phase)
    {
      assert TokensDiffer(s.calls[u].phase, s.calls[w].phase);
    }
  }

  predicate SameToken(p: Phase, q: Phase) { HasToken(p) && HasToken(q) && p.token == q.token }

  lemma SlotLeaving(s: State, t: nat)
    requires Inv(s) && Enabled(s, Leave(t))
    ensures SlotIsOwned(Next(s, Leave(t)))
  {
    assert SlotFits(s.shared.active, s.tokens, s.calls[t].phase);
    if s.calls[t].phase.failed { SlotGivenUp(s, Next(s, Leave(t)), t); } else { SlotCarries(s, Next(s, Leave(t))); }
  }

  lemma SlotHandingOff(s: State, t: nat)
    requires Inv(s) && Enabled(s, FinishTurn(t))
    ensures SlotIsOwned(Next(s, FinishTurn(t)))
  {
    if Survivors(s.shared) != [] { FirstSurvivor(s); }
    SlotCarries(s, Next(s, FinishTurn(t)));
  }

  /** The moved call keeps its claim on the slot. */
  lemma ClaimKept(s: State, e: Step)
    requires Enabled(s, e) && (e.Fail? || e.Publish? || e.PublishEntryCancel? || e.ClearAfterError?)
    ensures var after, p := Next(s, e), s.calls[e.t].phase;
      && after.shared.active == s.shared.active
      && (HasToken(p) ==> e.t in after.calls && SameClaim(p, after.calls[e.t].phase))
      && (!HasToken(p) && e.t in after.calls ==> !HasToken(after.calls[e.t].phase))
  {
  }

  lemma SlotOneMoved(s: State, after: State, t: nat)
    requires SlotIsOwned(s) && t in s.calls
    requires after.shared.active == s.shared.active && after.tokens == s.tokens && after.calls.Keys <= s.calls.Keys
    requires forall u :: u in s.calls && u != t ==> u in after.calls && after.calls[u] == s.calls[u]
    requires HasToken(s.calls[t].phase) ==> t in after.calls && SameClaim(s.calls[t].phase, after.calls[t].phase)
    requires !HasToken(s.calls[t].phase) && t in after.calls ==> !HasToken(after.calls[t].phase)
    ensures SlotIsOwned(after)
  {
    SlotCarries(s, after);
  }

  lemma SlotMoved(s: State, e: Step)
    requires Inv(s) && Enabled(s, e)
    requires e.Fail? || e.Publish? || e.PublishEntryCancel? || e.ClearAfterError?
    ensures SlotIsOwned(Next(s, e))
  {
    OneMoved(s, e);
    ClaimKept(s, e);
    SlotOneMoved(s, Next(s, e), e.t);
  }

  lemma SlotCancelling(s: State)
    requires Inv(s) && Enabled(s, BeginCancel)
    ensures SlotIsOwned(Next(s, BeginCancel))
  {
    SlotCarries(s, Next(s, BeginCancel));
  }

  lemma SlotUntouched(s: State, e: Step)
    requires Inv(s) && Enabled(s, e) && (MovesNone(e) || e.Accept? || e.GiveUp?)
    ensures SlotIsOwned(Next(s, e))
  {
    if !MovesNone(e) { SlotCarries(s, Next(s, e)); }
  }

  /** Steps that hand the slot over, or give it back. */
  lemma SlotChanging(s: State, e: Step)
    requires Inv(s) && Enabled(s, e)
    requires e.EnterAccepted? || e.EnterUntracked? || e.Release? || e.Leave? || e.FinishTurn? || e.BeginCancel?
    ensures SlotIsOwned(Next(s, e))
  {
    match e {
      case EnterAccepted(t, fails) => SlotEntering(s, t, s.calls[t].runId, Some(s.calls[t].phase.seqNo), fails);
      case EnterUntracked(runId) => SlotEntering(Submit(s, runId), |s.owner|, runId, None, false);
      case Release(t) => SlotGivenUp(s, Next(s, e), t);
      case Leave(t) => SlotLeaving(s, t);
      case FinishTurn(t) => SlotHandingOff(s, t);
      case BeginCancel => SlotCancelling(s);
    }
  }

  lemma SlotKept(s: State, e: Step)
    requires Inv(s) && Enabled(s, e)
    ensures SlotIsOwned(Next(s, e))
  {
    if MovesNone(e) || e.Accept? || e.GiveUp? {
      SlotUntouched(s, e);
    } else if e.Fail? || e.Publish? || e.PublishEntryCancel? || e.ClearAfterError? {
      SlotMoved(s, e);
    } else {
      SlotChanging(s, e);
    }
  }

  // ---------------------------------------------------------------- places

  lemma PlaceEntering(s: State, t: nat, runId: string, handle: Option<nat>, fails: bool, u: nat)
    ensures var after := Dispatch(s, t, runId, handle, fails);
      Places(after, u) == Places(s, u) + if u == t && t !in s.calls then 1 else 0
  {
    if EntryOf(s.shared, handle) == Enqueued {
      var q := Queued(t, runId, if handle.Some? then handle.value else 0);
      assert Dispatch(s, t, runId, handle, fails).shared.queue == s.shared.queue + [q];
      CountSnoc(s.shared.queue, q, ByTicket(u));
    } else {
      assert Dispatch(s, t, runId, handle, fails).shared.queue == s.shared.queue;
    }
  }

  /** A hand-off splits the queue into what it drops, what it takes and the rest. */
  lemma HandOffCounts(v: Shared, k: Key)
    ensures Count(v.queue, k) == Count(HandoffDrops(v), k) + Count(HandOff(v).queue, k)
                                 + if Survivors(v) != [] then Hit(Survivors(v)[0], k) else 0
  {
    SurvivorsArePicked(v);
    CountSplit(v.queue, v.mark, k);
    if Survivors(v) != [] { CountHead(Survivors(v), k); }
  }

  lemma PlaceHandingOff(s: State, t: nat, u: nat)
    requires Inv(s) && Enabled(s, FinishTurn(t))
    ensures Places(Next(s, FinishTurn(t)), u) == Places(s, u)
  {
    HandOffCounts(s.shared, ByTicket(u));
    CountConcat(s.dropped, HandoffDrops(s.shared), ByTicket(u));
    if Survivors(s.shared) != [] { FirstSurvivor(s); }
  }

  lemma PlaceDraining(s: State, t: nat, u: nat)
    requires Inv(s) && Enabled(s, DrainForStep(t))
    ensures Places(Next(s, DrainForStep(t)), u) == Places(s, u)
  {
    CountSplit(s.shared.queue, s.shared.mark, ByTicket(u));
    CountConcat(s.dropped, Pick(s.shared.queue, s.shared.mark, Drop), ByTicket(u));
    CountConcat(s.folded, Pick(s.shared.queue, s.shared.mark, Fold), ByTicket(u));
  }

  lemma PlaceMoved(s: State, e: Step, u: nat)
    requires Inv(s) && Enabled(s, e) && MovesOne(e)
    ensures Places(Next(s, e), u) == Places(s, u)
  {
    assert Places(s, e.t) <= 1;
    if e.ClearAfterError? { CountConcat(s.dropped, s.shared.queue, ByTicket(u)); }
  }

  lemma PlaceSubmitting(s: State, e: Step, u: nat)
    requires Inv(s) && Enabled(s, e) && (e.Accept? || e.EnterUntracked? || e.Retry?)
    ensures |Next(s, e).owner| == |s.owner| + 1
    ensures Places(Next(s, e), u) == Places(s, u) + if u == |s.owner| then 1 else 0
  {
    assert Places(s, |s.owner|) == 0;
    match e {
      case Accept(_) =>
      case EnterUntracked(runId) => PlaceEntering(Submit(s, runId), |s.owner|, runId, None, false, u);
      case Retry(t) => CountCons(Queued(|s.owner|, s.calls[t].runId, 0), s.shared.queue, ByTicket(u));
    }
  }

  lemma PlaceElsewhere(s: State, e: Step, u: nat)
    requires Inv(s) && Enabled(s, e) && (e.AcceptElsewhere? || e.GiveUp? || e.BeginCancel? || e.EndCancel?)
    ensures Places(Next(s, e), u) == Places(s, u)
  {
    if e.GiveUp? { assert Places(s, e.t) <= 1; }
    if e.EndCancel? { CountConcat(s.dropped, s.shared.queue, ByTicket(u)); }
  }

  lemma OwnerKept(s: State, e: Step)
    requires Enabled(s, e) && !e.Accept? && !e.EnterUntracked? && !e.Retry?
    ensures Next(s, e).owner == s.owner
  {
  }

  lemma PlaceKept(s: State, e: Step, u: nat)
    requires Inv(s) && Enabled(s, e)
    ensures Places(Next(s, e), u) == Places(s, u) + if u == |s.owner| && |Next(s, e).owner| > |s.owner| then 1 else 0
  {
    if e.Accept? || e.EnterUntracked? || e.Retry? {
      PlaceSubmitting(s, e, u);
    } else {
      OwnerKept(s, e);
      match e {
        case EnterAccepted(t, fails) => PlaceEntering(s, t, s.calls[t].runId, Some(s.calls[t].phase.seqNo), fails, u);
        case DrainForStep(t) => PlaceDraining(s, t, u);
        case FinishTurn(t) => PlaceHandingOff(s, t, u);
        case _ => if MovesOne(e) { PlaceMoved(s, e, u); } else { PlaceElsewhere(s, e, u); }
      }
    }
  }

  lemma OnePlaceKept(s: State, e: Step)
    requires Inv(s) && Enabled(s, e)
    ensures OnePlace(Next(s, e))
  {
    var after := Next(s, e);
    assert |after.owner| == |s.owner| || |after.owner| == |s.owner| + 1;
    forall u: nat ensures Places(after, u) == if u < |after.owner| then 1 else 0 {
      PlaceKept(s, e, u);
      assert Places(s, u) == if u < |s.owner| then 1 else 0;
    }
  }

  // ---------------------------------------------------------------- labels

  lemma LabelCarries(s: State, after: State)
    requires Labelled(s) && after.owner == s.owner && after.folded == s.folded
    requires forall t :: t in after.calls ==> t < |s.owner| && after.calls[t].runId == s.owner[t]
    requires forall q :: q in after.shared.queue ==> q in s.shared.queue
    ensures Labelled(after)
  {
  }

  lemma LabelHandingOff(s: State, t: nat)
    requires Inv(s) && Enabled(s, FinishTurn(t))
    ensures Labelled(Next(s, FinishTurn(t)))
  {
    QueueShrinks(s.shared.queue, s.shared.mark);
    SurvivorsArePicked(s.shared);
    if Survivors(s.shared) != [] { FirstSurvivor(s); }
    LabelCarries(s, Next(s, FinishTurn(t)));
  }

  lemma LabelDraining(s: State, t: nat)
    requires Inv(s) && Enabled(s, DrainForStep(t))
    ensures Labelled(Next(s, DrainForStep(t)))
  {
    QueueShrinks(s.shared.queue, s.shared.mark);
    forall r | r != "" ensures Count(Next(s, DrainForStep(t)).folded, ByRun(r)) == 0 {
      FoldedAreUnnamed(s.shared.queue, s.shared.mark, r);
      CountConcat(s.folded, Pick(s.shared.queue, s.shared.mark, Fold), ByRun(r));
    }
  }

  lemma LabelMoved(s: State, e: Step)
    requires Inv(s) && Enabled(s, e) && MovesOne(e)
    ensures Labelled(Next(s, e))
  {
    OneMoved(s, e);
    assert Next(s, e).folded == s.folded;
  }

  lemma LabelEntering(s: State, t: nat, runId: string, handle: Option<nat>, fails: bool)
    requires Labelled(s) && t < |s.owner| && s.owner[t] == runId
    ensures Labelled(Dispatch(s, t, runId, handle, fails))
  {
  }

  lemma LabelSubmitting(s: State, runId: string)
    requires Labelled(s)
    ensures Labelled(Submit(s, runId))
  {
  }

  lemma LabelKept(s: State, e: Step)
    requires Inv(s) && Enabled(s, e)
    ensures Labelled(Next(s, e))
  {
    match e {
      case FinishTurn(t) => LabelHandingOff(s, t);
      case DrainForStep(t) => LabelDraining(s, t);
      case Accept(runId) => LabelSubmitting(s, runId);
      case EnterAccepted(t, fails) => LabelEntering(s, t, s.calls[t].runId, Some(s.calls[t].phase.seqNo), fails);
      case EnterUntracked(runId) =>
        LabelSubmitting(s, runId);
        LabelEntering(Submit(s, runId), |s.owner|, runId, None, false);
      case Retry(t) => LabelSubmitting(s, s.calls[t].runId);
      case AcceptElsewhere =>
      case GiveUp(_) => LabelCarries(s, Next(s, e));
      case BeginCancel => LabelCarries(s, Next(s, e));
      case EndCancel => LabelCarries(s, Next(s, e));
      case _ => LabelMoved(s, e);
    }
  }

  // ----------------------------------------------------- terminal accounting

  lemma SubmittedSnoc(owner: seq<string>, runId: string, r: string)
    ensures Submitted(owner + [runId], r) == Submitted(owner, r) + if runId == r then 1 else 0
  {
    assert (owner + [runId])[..|owner + [runId]| - 1] == owner;
  }

  /** Entering moves a debt between the call and the queue. */
  lemma AccountEntering(s: State, t: nat, runId: string, handle: Option<nat>, fails: bool, r: string)
    requires t in s.calls ==> s.calls[t].runId == runId && s.calls[t].phase.Accepted?
    ensures var after := Dispatch(s, t, runId, handle, fails);
      Account(after, r) == Account(s, r) + if t !in s.calls && runId == r then 1 else 0
  {
    var after := Dispatch(s, t, runId, handle, fails);
    if t in after.calls {
      DebtorsUpdate(s.calls, t, after.calls[t], r);
    } else {
      DebtorsUpdate(s.calls, t, Prompt(runId, Cleanup), r);
      CountSnoc(s.shared.queue, Queued(t, runId, if handle.Some? then handle.value else 0), ByRun(r));
    }
  }

  /** Discarding queued prompts turns what they are owed into terminal events. */
  lemma AccountDiscarding(s: State, drops: seq<Queued>, r: string)
    requires r != ""
    ensures Count(Discard(s, drops).told, ByRun(r)) == Count(s.told, ByRun(r)) + Count(drops, ByRun(r))
  {
    CountConcat(s.told, Named(drops), ByRun(r));
    CountNamed(drops, r);
  }

  lemma AccountDraining(s: State, t: nat, r: string)
    requires r != "" && Enabled(s, DrainForStep(t))
    ensures Account(Next(s, DrainForStep(t)), r) == Account(s, r)
  {
    AccountDiscarding(s, Pick(s.shared.queue, s.shared.mark, Drop), r);
    CountSplit(s.shared.queue, s.shared.mark, ByRun(r));
    FoldedAreUnnamed(s.shared.queue, s.shared.mark, r);
  }

  /** Everything a run ID is told, owed, or was spared of. */
  function Ledger(s: State, r: string): nat { Account(s, r) + Count(s.carriedOn, ByRun(r)) }

  /** A finishing run gives up its own debt exactly when a queued prompt carries the
      same run ID on, and that prompt owes in its place. */
  lemma AccountHandingOff(s: State, t: nat, r: string)
    requires r != "" && Enabled(s, FinishTurn(t))
    requires Survivors(s.shared) != [] ==> Survivors(s.shared)[0].ticket !in s.calls
    ensures var after := Next(s, FinishTurn(t));
      && Ledger(after, r) == Ledger(s, r)
      && (Account(s, r) > 0 ==> Account(after, r) > 0)
  {
    var after, c, k := Next(s, FinishTurn(t)), s.calls[t], ByRun(r);
    HandOffCounts(s.shared, k);
    AccountDiscarding(s, HandoffDrops(s.shared), r);
    assert Account(after, r) ==
      Count(s.told, k) + Count(HandoffDrops(s.shared), k) + Count(HandOff(s.shared).queue, k) +
        |Debtors(after.calls, r)|;
    if Survivors(s.shared) == [] {
      DebtorsUpdate(s.calls, t, after.calls[t], r);
    } else {
      DebtHandedOn(s, t, r);
      CountCarriedOn(s, t, r);
      DebtorsUpdate(s.calls, t, c, r);
      assert |Debtors(s.calls, r)| >= Debt(c, r);
      if c.runId == r { CarriedOn(s, t, r); }
    }
  }

  lemma CountCarriedOn(s: State, t: nat, r: string)
    requires r != "" && Enabled(s, FinishTurn(t)) && Survivors(s.shared) != []
    ensures Count(Next(s, FinishTurn(t)).carriedOn, ByRun(r)) ==
      Count(s.carriedOn, ByRun(r)) + if s.calls[t].runId == r && !OwesOwn(s.shared, r) then 1 else 0
  {
    var c := s.calls[t];
    if c.runId == "" || OwesOwn(s.shared, c.runId) {
      assert s.carriedOn + [] == s.carriedOn;
    } else {
      CountSnoc(s.carriedOn, Queued(t, c.runId, 0), ByRun(r));
    }
  }

  lemma TwoUpdates(calls: map<nat, Prompt>, a: nat, pa: Prompt, b: nat, pb: Prompt, r: string)
    requires a != b && a !in calls && b in calls
    ensures |Debtors(calls[a := pa][b := pb], r)| + Debt(calls[b], r) == |Debtors(calls, r)| + Debt(pa, r) + Debt(pb, r)
  {
    DebtorsUpdate(calls, a, pa, r);
    DebtorsUpdate(calls[a := pa], b, pb, r);
  }

  /** The dequeued prompt becomes a debtor; the finishing run stays one only if it
      owes its own event. */
  lemma DebtHandedOn(s: State, t: nat, r: string)
    requires Enabled(s, FinishTurn(t)) && Survivors(s.shared) != [] && Survivors(s.shared)[0].ticket !in s.calls
    ensures var after := Next(s, FinishTurn(t)).calls;
      |Debtors(after, r)| + Debt(s.calls[t], r) ==
        |Debtors(s.calls, r)| + Hit(Survivors(s.shared)[0], ByRun(r))
        + if s.calls[t].runId == r && OwesOwn(s.shared, r) then 1 else 0
  {
    var first, c := Survivors(s.shared)[0], s.calls[t];
    var p := Prompt(first.runId, Accepted(s.shared.seqGen + 1, false, false));
    var last := Prompt(c.runId, Publishing(c.phase.token, OwesOwn(s.shared, c.runId), false));
    TwoUpdates(s.calls, first.ticket, p, t, last, r);
    assert Next(s, FinishTurn(t)).calls == s.calls[first.ticket := p][t := last];
  }

  lemma CarriedOn(s: State, t: nat, r: string)
    requires Enabled(s, FinishTurn(t)) && Survivors(s.shared) != [] && s.calls[t].runId == r && r != ""
    ensures !OwesOwn(s.shared, r) ==>
      Count(HandOff(s.shared).queue, ByRun(r)) + Hit(Survivors(s.shared)[0], ByRun(r)) > 0
  {
    var kept := Survivors(s.shared);
    if !OwesOwn(s.shared, r) {
      var k :| 0 <= k < |kept| && kept[k].runId == r;
      assert Matches(kept[k], ByRun(r));
      CountMember(kept, ByRun(r));
      CountHead(kept, ByRun(r));
    }
  }

  lemma AccountCancelling(s: State, e: Step, r: string)
    requires r != "" && (e.BeginCancel? || e.EndCancel?) && Enabled(s, e)
    ensures Account(Next(s, e), r) == Account(s, r)
  {
    if e.EndCancel? { AccountDiscarding(s, s.shared.queue, r); }
    assert Debtors(Next(s, e).calls, r) == Debtors(s.calls, r);
  }

  lemma AccountGivingUp(s: State, t: nat, r: string)
    requires Enabled(s, GiveUp(t))
    ensures Account(Next(s, GiveUp(t)), r) == Account(s, r)
  {
    CountSnoc(s.told, Queued(t, s.calls[t].runId, 0), ByRun(r));
    DebtorsUpdate(s.calls, t, s.calls[t], r);
  }

  lemma AccountClearing(s: State, t: nat, r: string)
    requires r != "" && Enabled(s, ClearAfterError(t))
    ensures Account(Next(s, ClearAfterError(t)), r) == Account(s, r)
  {
    AccountDiscarding(s, s.shared.queue, r);
    DebtorsUpdate(s.calls, t, s.calls[t], r);
  }

  /** A call that publishes pays its debt; one that only moves on keeps it. */
  lemma AccountMoved(s: State, e: Step, r: string)
    requires Enabled(s, e) && MovesOne(e) && !e.ClearAfterError?
    ensures Account(Next(s, e), r) == Account(s, r)
  {
    if e.PublishEntryCancel? || e.Publish? {
      AccountTelling(s, e, r);
    } else {
      var after := Next(s, e);
      assert after.told == s.told && after.shared.queue == s.shared.queue;
      DebtorsUpdate(s.calls, e.t, if e.t in after.calls then after.calls[e.t] else s.calls[e.t], r);
    }
  }

  lemma AccountTelling(s: State, e: Step, r: string)
    requires Enabled(s, e) && (e.PublishEntryCancel? || e.Publish?)
    ensures Account(Next(s, e), r) == Account(s, r)
  {
    var c := s.calls[e.t];
    Telling(s, e, r);
    Told(s.told, c, e.t, r);
    DebtorsUpdate(s.calls, e.t, c, r);
  }

  lemma Telling(s: State, e: Step, r: string)
    requires Enabled(s, e) && (e.PublishEntryCancel? || e.Publish?)
    ensures var after, c := Next(s, e), s.calls[e.t];
      && after.told == (if Owing(c.phase) then s.told + [Queued(e.t, c.runId, 0)] else s.told)
      && after.shared == s.shared && Debtors(after.calls, r) == Debtors(s.calls - {e.t}, r)
  {
  }

  lemma Told(told: seq<Queued>, c: Prompt, t: nat, r: string)
    ensures Count(if Owing(c.phase) then told + [Queued(t, c.runId, 0)] else told, ByRun(r)) ==
      Count(told, ByRun(r)) + Debt(c, r)
  {
    CountSnoc(told, Queued(t, c.runId, 0), ByRun(r));
  }

  lemma AccountAccepting(s: State, runId: string, r: string)
    requires Inv(s)
    ensures Account(Next(s, Accept(runId)), r) == Account(s, r) + if runId == r then 1 else 0
  {
    assert Next(s, Accept(runId)).shared.queue == s.shared.queue;
    DebtorsUpdate(s.calls, |s.owner|, Prompt(runId, Accepted(s.shared.seqGen + 1, false, true)), r);
  }

  lemma AccountRetrying(s: State, t: nat, r: string)
    requires Inv(s) && Enabled(s, Retry(t))
    ensures Account(Next(s, Retry(t)), r) == Account(s, r) + if s.calls[t].runId == r then 1 else 0
  {
    CountCons(Queued(|s.owner|, s.calls[t].runId, 0), s.shared.queue, ByRun(r));
  }

  lemma AccountSubmitting(s: State, e: Step, r: string)
    requires Inv(s) && (e.Accept? || e.EnterUntracked? || e.Retry?) && Enabled(s, e)
    ensures Account(Next(s, e), r) - Account(s, r) == Submitted(Next(s, e).owner, r) - Submitted(s.owner, r) >= 0
  {
    match e {
      case Accept(runId) =>
        SubmittedSnoc(s.owner, runId, r);
        AccountAccepting(s, runId, r);
      case EnterUntracked(runId) =>
        SubmittedSnoc(s.owner, runId, r);
        AccountEntering(Submit(s, runId), |s.owner|, runId, None, false, r);
      case Retry(t) =>
        SubmittedSnoc(s.owner, s.calls[t].runId, r);
        AccountRetrying(s, t, r);
    }
  }

  /** Only a hand-off carries a run ID on. */
  lemma CarriesOnlyInHandOffs(s: State, e: Step)
    requires Enabled(s, e) && !e.FinishTurn?
    ensures Next(s, e).carriedOn == s.carriedOn
  {
  }

  /** Steps that submit nothing lose no debt and invent no event. */
  lemma AccountSteady(s: State, e: Step, r: string)
    requires Inv(s) && Enabled(s, e) && r != "" && !e.Accept? && !e.EnterUntracked? && !e.Retry?
    ensures Ledger(Next(s, e), r) == Ledger(s, r) && (Account(s, r) > 0 ==> Account(Next(s, e), r) > 0)
  {
    if e.FinishTurn? {
      if Survivors(s.shared) != [] { FirstSurvivor(s); }
      AccountHandingOff(s, e.t, r);
    } else {
      CarriesOnlyInHandOffs(s, e);
      AccountUnchanged(s, e, r);
    }
  }

  lemma AccountUnchanged(s: State, e: Step, r: string)
    requires Inv(s) && Enabled(s, e) && r != "" && !e.Accept? && !e.EnterUntracked? && !e.Retry? && !e.FinishTurn?
    ensures Account(Next(s, e), r) == Account(s, r)
  {
    match e {
      case AcceptElsewhere =>
      case EnterAccepted(t, fails) => AccountEntering(s, t, s.calls[t].runId, Some(s.calls[t].phase.seqNo), fails, r);
      case DrainForStep(t) => AccountDraining(s, t, r);
      case ClearAfterError(t) => AccountClearing(s, t, r);
      case GiveUp(t) => AccountGivingUp(s, t, r);
      case BeginCancel => AccountCancelling(s, e, r);
      case EndCancel => AccountCancelling(s, e, r);
      case _ => AccountMoved(s, e, r);
    }
  }

  lemma AccountKept(s: State, e: Step, r: string)
    requires Inv(s) && Enabled(s, e) && r != ""
    ensures var grown := Submitted(Next(s, e).owner, r) - Submitted(s.owner, r);
      && grown >= 0
      && Ledger(Next(s, e), r) == Ledger(s, r) + grown
      && (Account(s, r) + grown > 0 ==> Account(Next(s, e), r) > 0)
  {
    if e.Accept? || e.EnterUntracked? || e.Retry? {
      CarriesOnlyInHandOffs(s, e);
      AccountSubmitting(s, e, r);
    } else {
      OwnerKept(s, e);
      AccountSteady(s, e, r);
    }
  }

  lemma BalancedKept(s: State, e: Step)
    requires Inv(s) && Enabled(s, e)
    ensures Balanced(Next(s, e))
  {
    forall r | r != "" ensures BalancedFor(Next(s, e), r) {
      AccountKept(s, e, r);
      assert BalancedFor(s, r);
    }
  }

  // --------------------------------------------------------------- every run

  lemma InitHolds()
    ensures Inv(Init())
  {
    assert Open(map[]) == {};
    forall r ensures Debtors(map[], r) == {} {}
  }

  lemma StepKeeps(s: State, e: Step)
    requires Inv(s) && Enabled(s, e)
    ensures Inv(Next(s, e))
  {
    OnePlaceKept(s, e);
    LabelKept(s, e);
    SlotKept(s, e);
    CountKept(s, e);
    MarkKept(s, e);
    StruckKept(s, e);
    BalancedKept(s, e);
  }

  /** Every state any interleaving reaches satisfies the invariant. */
  lemma {:induction false} AlwaysInv(s: State, steps: seq<Step>)
    requires Inv(s) && Legal(s, steps)
    ensures Inv(Exec(s, steps))
    decreases |steps|
  {
    if steps != [] {
      StepKeeps(s, steps[0]);
      AlwaysInv(Next(s, steps[0]), steps[1..]);
    }
  }
}
