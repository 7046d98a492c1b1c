/** One session's dispatch protocol: any number of callers accept, give up, enter,
    run, retry, finish, fail and cancel, one critical section at a time, in any order.
    What the sections do to the shared state is in `DispatchState`. A Cancel is two
    sections: it holds the session's lock throughout, but reservations are made and
    released without that lock, and may change between its read and its write. */
module DispatchProtocol {
  import opened Transcript
  import opened DispatchState

  /** Where a call that is neither queued nor settled stands. `hit` records that a
      Cancel ran while the handle was accepted and not yet entered; `loose`, that the
      call may still be given up before it enters; `cancelled`, that a Cancel
      cancelled the run's context. */
  datatype Phase =
    | Accepted(seqNo: nat, hit: bool, loose: bool)
    | EntryCanceled(fails: bool)
    | Running(token: nat, cancelled: bool)
    | Released(token: nat)
    | Publishing(token: nat, owes: bool, failed: bool)
    | Leaving(token: nat, failed: bool)
    | Cleanup

  datatype Prompt = Prompt(runId: string, phase: Phase)

  /** A Cancel between its two sections holds the lock and what it has read. */
  datatype Canceller = Nobody | Holds(seen: Option<nat>)

  /** `owner[t]` is the run ID ticket `t` was submitted with; `told` logs the calls
      whose terminal event was published or whose submitter was refused, and
      `carriedOn` the finishing calls that published none because a queued prompt
      carries their run ID on. `orphan` says that the standing mark was written when
      no handle was open any more. */
  datatype State = State(shared: Shared, calls: map<nat, Prompt>, owner: seq<string>, tokens: nat,
                         told: seq<Queued>, folded: seq<Queued>, dropped: seq<Queued>, finished: set<nat>,
                         carriedOn: seq<Queued>, canceller: Canceller, orphan: bool)

  datatype Step =
    | Accept(runId: string)
    | AcceptElsewhere
    | GiveUp(t: nat)
    | EnterAccepted(t: nat, fails: bool)
    | EnterUntracked(runId: string)
    | PublishEntryCancel(t: nat)
    | DrainForStep(t: nat)
    | Retry(t: nat)
    | Release(t: nat)
    | Fail(t: nat)
    | FinishTurn(t: nat)
    | Publish(t: nat)
    | Leave(t: nat)
    | ClearAfterError(t: nat)
    | BeginCancel
    | EndCancel

  function Init(): State {
    State(Shared(0, 0, 0, [], None), map[], [], 0, [], [], [], {}, [], Nobody, false)
  }

  // ------------------------------------------------------------------- steps

  /** Steps that take the session's lock. */
  predicate Locks(e: Step) {
    || e.EnterAccepted? || e.EnterUntracked? || e.DrainForStep? || e.Retry? || e.FinishTurn? || e.ClearAfterError?
    || e.BeginCancel?
  }

  predicate Enabled(s: State, e: Step) {
    && (Locks(e) ==> s.canceller == Nobody)
    && match e
       case Accept(_) => true
       case AcceptElsewhere => true
       case GiveUp(t) => t in s.calls && s.calls[t].phase.Accepted? && s.calls[t].phase.loose
       case EnterAccepted(t, _) => t in s.calls && s.calls[t].phase.Accepted?
       case EnterUntracked(_) => true
       case PublishEntryCancel(t) => t in s.calls && s.calls[t].phase.EntryCanceled?
       case DrainForStep(t) => t in s.calls && s.calls[t].phase.Running?
       case Retry(t) => t in s.calls && s.calls[t].phase.Running? && !s.calls[t].phase.cancelled
       case Release(t) => t in s.calls && s.calls[t].phase.Running?
       case Fail(t) => t in s.calls && s.calls[t].phase.Running?
       case FinishTurn(t) => t in s.calls && s.calls[t].phase.Released?
       case Publish(t) => t in s.calls && s.calls[t].phase.Publishing?
       case Leave(t) => t in s.calls && s.calls[t].phase.Leaving?
       case ClearAfterError(t) => t in s.calls && s.calls[t].phase.Cleanup?
       case BeginCancel => true
       case EndCancel => s.canceller.Holds?
  }

  function Submit(s: State, runId: string): State { s.(owner := s.owner + [runId]) }

  function Move(s: State, t: nat, phase: Phase): State
    requires t in s.calls
  {
    s.(calls := s.calls[t := s.calls[t].(phase := phase)])
  }

  function Settle(s: State, t: nat): State { s.(calls := s.calls - {t}, finished := s.finished + {t}) }

  function Tell(s: State, t: nat): State
    requires t in s.calls
  {
    s.(told := s.told + [Queued(t, s.calls[t].runId, 0)])
  }

  /** Queued prompts discarded: each that carries a run ID is reported cancelled. */
  function Discard(s: State, drops: seq<Queued>): State {
    s.(told := s.told + Named(drops), dropped := s.dropped + drops)
  }

  /** The shared state moves to `v`; an orphaned mark is one as long as it stands. */
  function Share(s: State, v: Shared): State { s.(shared := v, orphan := s.orphan && v.mark > 0) }

  /** Ticket `t` passes the dispatch decision. */
  function Dispatch(s: State, t: nat, runId: string, handle: Option<nat>, fails: bool): State {
    var after := Share(s, Enter(s.shared, t, runId, handle, s.tokens));
    match EntryOf(s.shared, handle)
    case CanceledOnEntry => after.(calls := s.calls[t := Prompt(runId, EntryCanceled(fails))])
    case Enqueued => after.(calls := s.calls - {t})
    case BecameActive => after.(calls := s.calls[t := Prompt(runId, Running(s.tokens, false))], tokens := s.tokens + 1)
  }

  function HandOffFrom(s: State, t: nat): State
    requires t in s.calls && s.calls[t].phase.Released?
  {
    var c, kept := s.calls[t], Survivors(s.shared);
    var after := Discard(Share(s, HandOff(s.shared)), HandoffDrops(s.shared));
    if kept == [] then Move(after, t, Publishing(c.phase.token, true, false))
    else
      var next := Prompt(kept[0].runId, Accepted(s.shared.seqGen + 1, false, false));
      var owes := OwesOwn(s.shared, c.runId);
      var spared := if c.runId == "" || owes then [] else [Queued(t, c.runId, 0)];
      Move(after.(calls := after.calls[kept[0].ticket := next], carriedOn := s.carriedOn + spared), t,
           Publishing(c.phase.token, owes, false))
  }

  /** What a Cancel does to one call: a handle not yet entered is hit, and the run
      in the active slot has its context cancelled. */
  function Struck(c: Prompt, active: Option<nat>): Prompt {
    match c.phase
    case Accepted(n, _, loose) => c.(phase := Accepted(n, true, loose))
    case Running(k, _) => if active == Some(k) then c.(phase := Running(k, true)) else c
    case _ => c
  }

  function StrikeAll(s: State): State {
    s.(calls := map t | t in s.calls :: Struck(s.calls[t], s.shared.active), canceller := Holds(Seen(s.shared)))
  }

  function WriteCancel(s: State): State
    requires s.canceller.Holds?
  {
    Discard(s, s.shared.queue).(shared := Recorded(s.shared, s.canceller.seen), canceller := Nobody,
      orphan := if s.canceller.seen.Some? then s.shared.count == 0 else s.orphan)
  }

  function Next(s: State, e: Step): State
    requires Enabled(s, e)
  {
    match e
    case Accept(runId) =>
      Submit(s, runId).(shared := Begin(s.shared),
                        calls := s.calls[|s.owner| := Prompt(runId, Accepted(s.shared.seqGen + 1, false, true))])
    case AcceptElsewhere => s.(shared := s.shared.(seqGen := s.shared.seqGen + 1))
    case GiveUp(t) => Settle(Tell(Share(s, End(s.shared)), t), t)
    case EnterAccepted(t, fails) => Dispatch(s, t, s.calls[t].runId, Some(s.calls[t].phase.seqNo), fails)
    case EnterUntracked(runId) => Dispatch(Submit(s, runId), |s.owner|, runId, None, false)
    case PublishEntryCancel(t) =>
      var told := Tell(s, t);
      if s.calls[t].phase.fails then Move(told, t, Cleanup) else Settle(told, t)
    case DrainForStep(t) =>
      Discard(s, Pick(s.shared.queue, s.shared.mark, Drop)).(shared := Drain(s.shared),
        folded := s.folded + Pick(s.shared.queue, s.shared.mark, Fold))
    case Retry(t) =>
      var retry := Queued(|s.owner|, s.calls[t].runId, 0);
      Submit(s, s.calls[t].runId).(shared := s.shared.(queue := [retry] + s.shared.queue))
    case Release(t) => Move(s.(shared := s.shared.(active := None)), t, Released(s.calls[t].phase.token))
    case Fail(t) => Move(s, t, Publishing(s.calls[t].phase.token, true, true))
    case FinishTurn(t) => HandOffFrom(s, t)
    case Publish(t) =>
      var p := s.calls[t].phase;
      Move(if p.owes then Tell(s, t) else s, t, Leaving(p.token, p.failed))
    case Leave(t) =>
      var p := s.calls[t].phase;
      var gone := s.(shared := if s.shared.active == Some(p.token) then s.shared.(active := None) else s.shared);
      if p.failed then Move(gone, t, Cleanup) else Settle(gone, t)
    case ClearAfterError(t) => Settle(Discard(s, s.shared.queue).(shared := s.shared.(queue := [])), t)
    case BeginCancel => StrikeAll(s)
    case EndCancel => WriteCancel(s)
  }

  predicate Legal(s: State, steps: seq<Step>)
    decreases |steps|
  {
    steps == [] || (Enabled(s, steps[0]) && Legal(Next(s, steps[0]), steps[1..]))
  }

  function Exec(s: State, steps: seq<Step>): State
    requires Legal(s, steps)
    decreases |steps|
  {
    if steps == [] then s else Exec(Next(s, steps[0]), steps[1..])
  }

  // -------------------------------------------------------------- invariants

  /** In how many places ticket `t` is: queued, in flight, folded into another
      turn, dropped, or finished. */
  function Places(s: State, t: nat): nat {
    Count(s.shared.queue, ByTicket(t)) + (if t in s.calls then 1 else 0) + Count(s.folded, ByTicket(t))
    + Count(s.dropped, ByTicket(t)) + if t in s.finished then 1 else 0
  }

  /** Each submitted call is in exactly one place, and nothing else is anywhere. */
  ghost predicate OnePlace(s: State) {
    forall t: nat :: Places(s, t) == if t < |s.owner| then 1 else 0
  }

  ghost predicate Labelled(s: State) {
    && (forall t :: t in s.calls ==> t < |s.owner| && s.calls[t].runId == s.owner[t])
    && (forall q :: q in s.shared.queue ==> q.ticket < |s.owner| && q.runId == s.owner[q.ticket])
    && (forall r :: r != "" ==> Count(s.folded, ByRun(r)) == 0)
  }

  predicate HoldsSlot(p: Phase) {
    p.Running? || (p.Publishing? && p.failed) || (p.Leaving? && p.failed)
  }

  predicate HasToken(p: Phase) { p.Running? || p.Released? || p.Publishing? || p.Leaving? }

  predicate SlotFits(active: Option<nat>, tokens: nat, p: Phase) {
    HasToken(p) ==> p.token < tokens && (HoldsSlot(p) <==> active == Some(p.token))
  }

  predicate TokensDiffer(p: Phase, q: Phase) {
    HasToken(p) && HasToken(q) ==> p.token != q.token
  }

  /** The active slot is held by exactly the run whose token is in it. */
  ghost predicate SlotIsOwned(s: State) {
    && (forall t :: t in s.calls ==> SlotFits(s.shared.active, s.tokens, s.calls[t].phase))
    && (forall t, u :: t in s.calls && u in s.calls && t != u ==> TokensDiffer(s.calls[t].phase, s.calls[u].phase))
    && (s.shared.active.Some? ==> exists t :: t in s.calls && HoldsSlot(s.calls[t].phase))
  }

  function Open(calls: map<nat, Prompt>): set<nat> { set t | t in calls && calls[t].phase.Accepted? }

  ghost predicate Counted(s: State) { s.shared.count == |Open(s.calls)| }

  /** Up to where handles are cancelled: the mark, and the one about to be written. */
  function Reach(s: State): nat {
    if s.canceller.Holds? && s.canceller.seen.Some? then Max(s.shared.mark, s.canceller.seen.value) else s.shared.mark
  }

  /** A cancel hits exactly the handles it covers, and nothing newer. */
  predicate HandleFits(v: Shared, reach: nat, p: Phase) {
    p.Accepted? ==> 0 < p.seqNo <= v.seqGen && (p.hit <==> p.seqNo <= reach)
  }

  /** A prompt queued with a reservation is newer than any standing cancel. */
  predicate QueuedFits(v: Shared, q: Queued) { q.acceptSeq > 0 ==> v.mark < q.acceptSeq <= v.seqGen }

  ghost predicate MarkIsExact(s: State) {
    && Reach(s) <= s.shared.seqGen
    && (s.shared.mark > 0 && s.shared.count == 0 ==> s.orphan)
    && (s.orphan ==> s.shared.mark > 0)
    && (forall t :: t in s.calls ==> HandleFits(s.shared, Reach(s), s.calls[t].phase))
    && (forall q :: q in s.shared.queue ==> QueuedFits(s.shared, q))
  }

  /** Nothing runs on while a Cancel is at work. */
  ghost predicate RunsAreStruck(s: State) {
    s.canceller.Holds? ==>
      && (s.canceller.seen.Some? ==> s.canceller.seen.value > 0)
      && forall t :: t in s.calls && s.calls[t].phase.Running? ==> s.calls[t].phase.cancelled
  }

  predicate Owing(p: Phase) {
    p.Accepted? || p.EntryCanceled? || p.Running? || p.Released? || (p.Publishing? && p.owes)
  }

  function Debtors(calls: map<nat, Prompt>, runId: string): set<nat> {
    set t | t in calls && calls[t].runId == runId && Owing(calls[t].phase)
  }

  /** How many calls were submitted with a run ID. */
  function Submitted(owner: seq<string>, runId: string): nat {
    if owner == [] then 0
    else Submitted(owner[..|owner| - 1], runId) + if owner[|owner| - 1] == runId then 1 else 0
  }

  /** Terminal events published for a run ID, and those still owed. */
  function Account(s: State, runId: string): nat {
    Count(s.told, ByRun(runId)) + Count(s.shared.queue, ByRun(runId)) + |Debtors(s.calls, runId)|
  }

  /** Every submission of a run ID is told, owed or carried on, and one that was
      submitted is told or owed at least once. */
  predicate BalancedFor(s: State, r: string) {
    && Account(s, r) + Count(s.carriedOn, ByRun(r)) == Submitted(s.owner, r)
    && (Submitted(s.owner, r) > 0 ==> Account(s, r) > 0)
  }

  ghost predicate Balanced(s: State) {
    forall r :: r != "" ==> BalancedFor(s, r)
  }

  ghost predicate Inv(s: State) {
    OnePlace(s) && Labelled(s) && SlotIsOwned(s) && Counted(s) && MarkIsExact(s) && RunsAreStruck(s) && Balanced(s)
  }
}
