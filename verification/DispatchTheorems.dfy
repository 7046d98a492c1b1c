/** What the dispatch protocol promises over every interleaving. */
module DispatchTheorems {
  import opened Transcript
  import opened DispatchState
  import opened DispatchProtocol
  import opened DispatchInvariants

  // --------------------------------------------------------- exact cancelling

  predicate HoldsHandle(s: State, t: nat, n: nat) {
    t in s.calls && s.calls[t].phase.Accepted? && s.calls[t].phase.seqNo == n
  }

  lemma HandleStep(s: State, e: Step, t: nat, n: nat)
    requires Inv(s) && Enabled(s, e) && n <= s.shared.seqGen
    ensures Next(s, e).shared.seqGen >= s.shared.seqGen
    ensures HoldsHandle(Next(s, e), t, n) ==>
      HoldsHandle(s, t, n) && (Next(s, e).calls[t].phase.hit <==> s.calls[t].phase.hit || e == BeginCancel)
  {
    if MovesOne(e) {
      OneMoved(s, e);
    } else if e.EnterAccepted? || e.EnterUntracked? {
      EnteringHoldsNothing(s, e, t, n);
    } else if e.FinishTurn? {
      FinishingHoldsNothing(s, e.t, t, n);
    }
  }

  lemma FinishingHoldsNothing(s: State, finishing: nat, t: nat, n: nat)
    requires Enabled(s, FinishTurn(finishing)) && n <= s.shared.seqGen
    ensures var after := Next(s, FinishTurn(finishing));
      && after.shared.seqGen >= s.shared.seqGen
      && (HoldsHandle(after, t, n) ==> t in s.calls && after.calls[t] == s.calls[t])
  {
  }

  lemma EnteringHoldsNothing(s: State, e: Step, t: nat, n: nat)
    requires Enabled(s, e) && (e.EnterAccepted? || e.EnterUntracked?)
    ensures Next(s, e).shared.seqGen == s.shared.seqGen
    ensures HoldsHandle(Next(s, e), t, n) ==> t in s.calls && Next(s, e).calls[t] == s.calls[t]
  {
  }

  /** A handle remembers exactly whether a Cancel read it since it was accepted. */
  lemma {:induction false} HandleRemembers(s: State, steps: seq<Step>, t: nat, n: nat)
    requires Inv(s) && Legal(s, steps) && n <= s.shared.seqGen
    ensures HoldsHandle(Exec(s, steps), t, n) ==>
      HoldsHandle(s, t, n) && (Exec(s, steps).calls[t].phase.hit <==> s.calls[t].phase.hit || BeginCancel in steps)
    decreases |steps|
  {
    if steps != [] {
      var mid := Next(s, steps[0]);
      StepKeeps(s, steps[0]);
      HandleStep(s, steps[0], t, n);
      HandleRemembers(mid, steps[1..], t, n);
      assert BeginCancel in steps <==> steps[0] == BeginCancel || BeginCancel in steps[1..];
    }
  }

  /** Cancel is exact: when a handle may enter, it is cancelled on entry if and only if
      a Cancel read the reservations between its acceptance and its entry, whatever is
      reserved, given up or released before that Cancel writes its mark. */
  lemma CancelIsExact(before: seq<Step>, runId: string, during: seq<Step>)
    requires Legal(Init(), before) && Legal(Next(Exec(Init(), before), Accept(runId)), during)
    requires var s0 := Exec(Init(), before);
      var s1 := Exec(Next(s0, Accept(runId)), during);
      HoldsHandle(s1, |s0.owner|, s0.shared.seqGen + 1) && s1.canceller == Nobody
    ensures var s0 := Exec(Init(), before);
      var s1 := Exec(Next(s0, Accept(runId)), during);
      EntryOf(s1.shared, Some(s0.shared.seqGen + 1)) == CanceledOnEntry <==> BeginCancel in during
  {
    InitHolds();
    AlwaysInv(Init(), before);
    var s0 := Exec(Init(), before);
    CancelIsExactFrom(s0, Accept(runId), |s0.owner|, during);
  }

  /** The same for the fresh handle a finishing run gives the prompt it dequeues. */
  lemma HandedOffCancelIsExact(before: seq<Step>, t: nat, during: seq<Step>)
    requires Legal(Init(), before) && Enabled(Exec(Init(), before), FinishTurn(t))
    requires Legal(Next(Exec(Init(), before), FinishTurn(t)), during)
    requires var s0 := Exec(Init(), before);
      var s1 := Exec(Next(s0, FinishTurn(t)), during);
      && Survivors(s0.shared) != []
      && HoldsHandle(s1, Survivors(s0.shared)[0].ticket, s0.shared.seqGen + 1) && s1.canceller == Nobody
    ensures var s0 := Exec(Init(), before);
      var s1 := Exec(Next(s0, FinishTurn(t)), during);
      EntryOf(s1.shared, Some(s0.shared.seqGen + 1)) == CanceledOnEntry <==> BeginCancel in during
  {
    InitHolds();
    AlwaysInv(Init(), before);
    HandedHandle(Exec(Init(), before), t);
    CancelIsExactFrom(Exec(Init(), before), FinishTurn(t), Survivors(Exec(Init(), before).shared)[0].ticket, during);
  }

  lemma HandedHandle(s: State, t: nat)
    requires Inv(s) && Enabled(s, FinishTurn(t)) && Survivors(s.shared) != []
    ensures var after, first := Next(s, FinishTurn(t)), Survivors(s.shared)[0].ticket;
      HoldsHandle(after, first, s.shared.seqGen + 1) && !after.calls[first].phase.hit
  {
    FirstSurvivor(s);
  }

  lemma CancelIsExactFrom(s0: State, e: Step, t: nat, during: seq<Step>)
    requires Inv(s0) && Enabled(s0, e) && Legal(Next(s0, e), during)
    requires HoldsHandle(Next(s0, e), t, s0.shared.seqGen + 1) && !Next(s0, e).calls[t].phase.hit
    requires
      && HoldsHandle(Exec(Next(s0, e), during), t, s0.shared.seqGen + 1)
      && Exec(Next(s0, e), during).canceller == Nobody
    ensures EntryOf(Exec(Next(s0, e), during).shared, Some(s0.shared.seqGen + 1)) == CanceledOnEntry <==>
      BeginCancel in during
  {
    StepKeeps(s0, e);
    var mid := Next(s0, e);
    assert HandleFits(mid.shared, Reach(mid), mid.calls[t].phase);
    HandleRemembers(mid, during, t, s0.shared.seqGen + 1);
    AlwaysInv(mid, during);
    var s1 := Exec(mid, during);
    assert HandleFits(s1.shared, Reach(s1), s1.calls[t].phase);
  }

  /** When a Cancel has written its mark nothing it has seen can go on as if it had not
      happened: exactly the handles it or an earlier one has read will be cancelled on
      entry, every run still active is cancelled, and the queue is empty. */
  lemma NothingEscapesCancel(steps: seq<Step>)
    requires Legal(Init(), steps) && Enabled(Exec(Init(), steps), EndCancel)
    ensures var s := Next(Exec(Init(), steps), EndCancel);
      && s.shared.queue == []
      && (forall t :: t in s.calls && s.calls[t].phase.Accepted? ==>
            (EntryOf(s.shared, Some(s.calls[t].phase.seqNo)) == CanceledOnEntry <==> s.calls[t].phase.hit))
      && (forall t :: t in s.calls && s.calls[t].phase.Running? ==> s.calls[t].phase.cancelled)
  {
    InitHolds();
    AlwaysInv(Init(), steps);
    var was := Exec(Init(), steps);
    MarkRecording(was);
    var s := Next(was, EndCancel);
    forall t | t in s.calls && s.calls[t].phase.Accepted?
      ensures EntryOf(s.shared, Some(s.calls[t].phase.seqNo)) == CanceledOnEntry <==> s.calls[t].phase.hit
    {
      assert HandleFits(s.shared, Reach(s), s.calls[t].phase);
    }
  }

  /** A prompt queued with a reservation is never dropped by a drain or a hand-off;
      one queued without is, exactly while a mark stands. */
  lemma OnlyUntrackedAreDropped(steps: seq<Step>, q: Queued)
    requires Legal(Init(), steps) && q in Exec(Init(), steps).shared.queue
    ensures var v := Exec(Init(), steps).shared;
      FateOf(q, v.mark) == Drop <==> q.acceptSeq == 0 && v.mark > 0
  {
    InitHolds();
    AlwaysInv(Init(), steps);
    assert QueuedFits(Exec(Init(), steps).shared, q);
  }

  lemma Then(s: State, e: Step, rest: seq<Step>)
    requires Enabled(s, e) && Legal(Next(s, e), rest)
    ensures Legal(s, [e] + rest) && Exec(s, [e] + rest) == Exec(Next(s, e), rest)
  {
    assert ([e] + rest)[1..] == rest;
  }

  lemma {:induction false} LegalConcat(s: State, a: seq<Step>, b: seq<Step>)
    requires Legal(s, a) && Legal(Exec(s, a), b)
    ensures Legal(s, a + b) && Exec(s, a + b) == Exec(Exec(s, a), b)
    decreases |a|
  {
    if a == [] {
      assert a + b == b;
    } else {
      LegalConcat(Next(s, a[0]), a[1..], b);
      assert (a + b)[1..] == a[1..] + b;
    }
  }

  lemma Ran3(s0: State, s1: State, s2: State, a: Step, b: Step, c: Step)
    requires Enabled(s0, a) && s1 == Next(s0, a) && Enabled(s1, b) && s2 == Next(s1, b) && Enabled(s2, c)
    ensures Legal(s0, [a, b, c]) && Exec(s0, [a, b, c]) == Next(s2, c)
  {
    Then(s2, c, []);
    Then(s1, b, [c]);
    Then(s0, a, [b, c]);
    assert [c] + [] == [c] && [b] + [c] == [b, c] && [a] + [b, c] == [a, b, c];
  }

  /** Six steps, each from the state the one before leaves. */
  lemma Ran6(s0: State, s1: State, s2: State, s3: State, s4: State, s5: State, a: Step, b: Step, c: Step, d: Step,
             e: Step, f: Step)
    requires Enabled(s0, a) && s1 == Next(s0, a) && Enabled(s1, b) && s2 == Next(s1, b)
    requires Enabled(s2, c) && s3 == Next(s2, c) && Enabled(s3, d) && s4 == Next(s3, d)
    requires Enabled(s4, e) && s5 == Next(s4, e) && Enabled(s5, f)
    ensures Legal(s0, [a, b, c, d, e, f]) && Exec(s0, [a, b, c, d, e, f]) == Next(s5, f)
  {
    Ran3(s0, s1, s2, a, b, c);
    Ran3(s3, s4, s5, d, e, f);
    LegalConcat(s0, [a, b, c], [d, e, f]);
    assert [a, b, c] + [d, e, f] == [a, b, c, d, e, f];
  }

  /** One run holds the slot, another call has its handle, and a Cancel comes and goes. */
  function Beside(mark: nat, hit: bool, canceller: Canceller): State {
    State(Shared(2, 1, mark, [], Some(0)), map[0 := Prompt("a", Running(0, hit)),
                                               1 := Prompt("b", Accepted(2, hit, true))],
          ["a", "b"], 1, [], [], [], {}, [], canceller, false)
  }

  lemma BesideIsReached()
    ensures Enabled(Init(), Accept("a")) && Enabled(Next(Init(), Accept("a")), Accept("b"))
    ensures var s := Next(Next(Init(), Accept("a")), Accept("b"));
      Enabled(s, EnterAccepted(0, false)) && Next(s, EnterAccepted(0, false)) == Beside(0, false, Nobody)
  {
    var s := Next(Next(Init(), Accept("a")), Accept("b"));
    assert s.owner == ["a", "b"];
    assert s.calls == map[0 := Prompt("a", Accepted(1, false, true)), 1 := Prompt("b", Accepted(2, false, true))];
    assert Next(s, EnterAccepted(0, false)).calls == Beside(0, false, Nobody).calls;
  }

  lemma BesideIsCancelled()
    ensures Next(Beside(0, false, Nobody), BeginCancel) == Beside(0, true, Holds(Some(2)))
    ensures Next(Beside(0, true, Holds(Some(2))), EndCancel) == Beside(2, true, Nobody)
  {
    assert (map t | t in Beside(0, false, Nobody).calls :: Struck(Beside(0, false, Nobody).calls[t], Some(0))) ==
      Beside(0, true, Nobody).calls;
  }

  /** An untracked prompt queued after a Cancel can still be dropped by it, while
      the handle of another prompt keeps the mark standing. */
  lemma LateUntrackedPromptIsDropped()
    ensures var steps := [Accept("a"), Accept("b"), EnterAccepted(0, false), BeginCancel, EndCancel,
                          EnterUntracked("c")];
      && Legal(Init(), steps)
      && Exec(Init(), steps).shared.queue == [Queued(2, "c", 0)]
      && FateOf(Queued(2, "c", 0), Exec(Init(), steps).shared.mark) == Drop
  {
    BesideIsReached();
    BesideIsCancelled();
    var s1 := Next(Init(), Accept("a"));
    Ran6(Init(), s1, Next(s1, Accept("b")), Beside(0, false, Nobody), Beside(0, true, Holds(Some(2))),
         Beside(2, true, Nobody),
         Accept("a"), Accept("b"), EnterAccepted(0, false), BeginCancel, EndCancel, EnterUntracked("c"));
    assert Next(Beside(2, true, Nobody), EnterUntracked("c")).shared.queue == [] + [Queued(2, "c", 0)];
  }

  // --------------------------------------------------------- a mark left behind

  /** The mark a finishing run clears on an empty queue is there exactly when a Cancel
      wrote it after the last handle it had read was given up, and no handle is open. */
  lemma IdleClearWorksIff(steps: seq<Step>)
    requires Legal(Init(), steps)
    ensures var s := Exec(Init(), steps);
      Survivors(s.shared) == [] ==> (HandOff(s.shared).mark != s.shared.mark <==> s.orphan && s.shared.count == 0)
  {
    InitHolds();
    AlwaysInv(Init(), steps);
  }

  /** No handle is given up between the two sections of a Cancel. */
  predicate Undisturbed(s: State, steps: seq<Step>)
    requires Legal(s, steps)
    decreases |steps|
  {
    steps == [] || (!(steps[0].GiveUp? && s.canceller.Holds?) && Undisturbed(Next(s, steps[0]), steps[1..]))
  }

  /** A Cancel at work still has a handle to cover. */
  predicate Covering(s: State) {
    !s.orphan && (s.canceller.Holds? && s.canceller.seen.Some? ==> s.shared.count > 0)
  }

  lemma CoveringStep(s: State, e: Step)
    requires Enabled(s, e) && Covering(s) && !(e.GiveUp? && s.canceller.Holds?)
    ensures Covering(Next(s, e))
  {
    if MovesOne(e) { OneMoved(s, e); } else if Locks(e) && !e.BeginCancel? { LockedLeavesNobody(s, e); }
  }

  lemma {:induction false} UndisturbedCovers(s: State, steps: seq<Step>)
    requires Legal(s, steps) && Undisturbed(s, steps) && Covering(s)
    ensures Covering(Exec(s, steps))
    decreases |steps|
  {
    if steps != [] {
      CoveringStep(s, steps[0]);
      UndisturbedCovers(Next(s, steps[0]), steps[1..]);
    }
  }

  /** That takes a race: while no handle is given up between a Cancel's read and its
      write, a standing mark implies an open handle, and the clear does nothing. */
  lemma IdleClearNeedsARace(steps: seq<Step>)
    requires Legal(Init(), steps) && Undisturbed(Init(), steps)
    ensures var v := Exec(Init(), steps).shared;
      && (v.mark > 0 ==> v.count > 0)
      && (Survivors(v) == [] ==> HandOff(v).mark == v.mark)
  {
    InitHolds();
    AlwaysInv(Init(), steps);
    UndisturbedCovers(Init(), steps);
  }

  function RunsAlone(cancelled: bool): map<nat, Prompt> { map[0 := Prompt("r", Running(0, cancelled))] }

  function RunsBeside(cancelled: bool): map<nat, Prompt> {
    RunsAlone(cancelled)[1 := Prompt("a", Accepted(1, cancelled, true))]
  }

  /** A run holds the slot and one prompt is accepted. */
  function RaceOpens(cancelled: bool, canceller: Canceller): State {
    State(Shared(1, 1, 0, [], Some(0)), RunsBeside(cancelled), ["r", "a"], 1, [], [], [], {}, [], canceller, false)
  }

  /** The prompt has been given up. */
  function RaceCloses(mark: nat, canceller: Canceller, orphan: bool): State {
    State(Shared(1, 0, mark, [], Some(0)), RunsAlone(true), ["r", "a"], 1, [Queued(1, "a", 0)], [], [], {1}, [],
          canceller, orphan)
  }

  lemma RaceIsSetUp()
    ensures Enabled(Init(), EnterUntracked("r")) && Enabled(Next(Init(), EnterUntracked("r")), Accept("a"))
    ensures Next(Next(Init(), EnterUntracked("r")), Accept("a")) == RaceOpens(false, Nobody)
  {
    var s := Next(Init(), EnterUntracked("r"));
    assert s.shared == Shared(0, 0, 0, [], Some(0)) && s.owner == ["r"] && s.calls == RunsAlone(false);
  }

  lemma CancelReadsTheHandle()
    ensures Next(RaceOpens(false, Nobody), BeginCancel) == RaceOpens(true, Holds(Some(1)))
  {
    assert (map t | t in RunsBeside(false) :: Struck(RunsBeside(false)[t], Some(0))) == RunsBeside(true);
  }

  lemma HandleIsGivenUp()
    ensures Enabled(RaceOpens(true, Holds(Some(1))), GiveUp(1))
    ensures Next(RaceOpens(true, Holds(Some(1))), GiveUp(1)) == RaceCloses(0, Holds(Some(1)), false)
  {
    assert RunsBeside(true) - {1} == RunsAlone(true);
  }

  lemma CancelWritesBehindIt()
    ensures Next(RaceCloses(0, Holds(Some(1)), false), EndCancel) == RaceCloses(1, Nobody, true)
  {
    assert [Queued(1, "a", 0)] + Named([]) == [Queued(1, "a", 0)];
  }

  lemma RunClearsTheMark()
    ensures var s := Next(RaceCloses(1, Nobody, true), Release(0));
      Enabled(s, FinishTurn(0)) && s.shared.mark == 1 && Next(s, FinishTurn(0)).shared.mark == 0
  {
  }

  lemma RaceIsReached()
    ensures var steps := [EnterUntracked("r"), Accept("a"), BeginCancel, GiveUp(1), EndCancel, Release(0)];
      Legal(Init(), steps) && Exec(Init(), steps) == Next(RaceCloses(1, Nobody, true), Release(0))
  {
    RaceIsSetUp();
    CancelReadsTheHandle();
    HandleIsGivenUp();
    CancelWritesBehindIt();
    Ran6(Init(), Next(Init(), EnterUntracked("r")), RaceOpens(false, Nobody), RaceOpens(true, Holds(Some(1))),
         RaceCloses(0, Holds(Some(1)), false), RaceCloses(1, Nobody, true),
         EnterUntracked("r"), Accept("a"), BeginCancel, GiveUp(1), EndCancel, Release(0));
  }

  /** The race is reached: the one accepted prompt is given up while a Cancel is at
      work, and the run that finishes next clears the mark left behind. */
  lemma OrphanedMarkIsCleared() returns (steps: seq<Step>)
    ensures Legal(Init(), steps) && Enabled(Exec(Init(), steps), FinishTurn(0))
    ensures Exec(Init(), steps).shared.mark == 1 && Next(Exec(Init(), steps), FinishTurn(0)).shared.mark == 0
  {
    steps := [EnterUntracked("r"), Accept("a"), BeginCancel, GiveUp(1), EndCancel, Release(0)];
    RaceIsReached();
    RunClearsTheMark();
  }

  // ---------------------------------------------------------- the active slot

  /** At most one run is active, the slot holds its token, and it alone can clear
      the slot: a release deletes the releaser's own entry, and a finished run's
      deferred clean-up finds nothing of its own left to delete. */
  lemma SlotIsExclusive(steps: seq<Step>, t: nat)
    requires Legal(Init(), steps) && t in Exec(Init(), steps).calls
    ensures var s := Exec(Init(), steps);
      && (HoldsSlot(s.calls[t].phase) ==>
            && s.shared.active == Some(s.calls[t].phase.token)
            && forall u :: u in s.calls && u != t ==> !HoldsSlot(s.calls[u].phase))
      && (s.calls[t].phase.Leaving? && !s.calls[t].phase.failed ==> Next(s, Leave(t)).shared == s.shared)
  {
    InitHolds();
    AlwaysInv(Init(), steps);
    var s := Exec(Init(), steps);
    assert SlotFits(s.shared.active, s.tokens, s.calls[t].phase);
    forall u | u in s.calls && u != t && HoldsSlot(s.calls[t].phase) ensures !HoldsSlot(s.calls[u].phase) {
      assert SlotFits(s.shared.active, s.tokens, s.calls[u].phase);
      assert TokensDiffer(s.calls[t].phase, s.calls[u].phase);
    }
  }

  /** Each submitted call is in exactly one place, and one that carries a run ID is
      never folded into another turn. */
  lemma EachCallInOnePlace(steps: seq<Step>, t: nat)
    requires Legal(Init(), steps)
    ensures var s := Exec(Init(), steps); Places(s, t) == if t < |s.owner| then 1 else 0
    ensures var s := Exec(Init(), steps); forall r :: r != "" ==> Count(s.folded, ByRun(r)) == 0
  {
    InitHolds();
    AlwaysInv(Init(), steps);
  }

  // ------------------------------------------------------------ nobody strands

  /** A call that will still look at the queue. One that may be given up will not for
      certain. */
  predicate Carries(p: Phase) {
    || (p.Accepted? && !p.hit && !p.loose) || p.Running? || p.Released? || p.Cleanup?
    || (p.Publishing? && p.failed) || (p.Leaving? && p.failed)
  }

  ghost predicate Carried(s: State) {
    s.shared.queue != [] && s.canceller == Nobody ==> exists t :: t in s.calls && Carries(s.calls[t].phase)
  }

  lemma CarriedByHolder(s: State)
    requires SlotIsOwned(s) && s.shared.active.Some?
    ensures exists t :: t in s.calls && Carries(s.calls[t].phase) && !s.calls[t].phase.Accepted?
  {
    var t :| t in s.calls && HoldsSlot(s.calls[t].phase);
    assert Carries(s.calls[t].phase) && !s.calls[t].phase.Accepted?;
  }

  lemma CarriedEntering(s: State, t: nat, runId: string, handle: Option<nat>, fails: bool)
    requires SlotIsOwned(s) && Carried(s) && s.canceller == Nobody
    requires handle.Some? ==>
      && t in s.calls && s.calls[t].phase.Accepted? && s.calls[t].phase.seqNo == handle.value
      && HandleFits(s.shared, s.shared.mark, s.calls[t].phase)
    requires handle.None? ==> t !in s.calls
    ensures Carried(Dispatch(s, t, runId, handle, fails))
  {
    var after := Dispatch(s, t, runId, handle, fails);
    if EntryOf(s.shared, handle) == Enqueued {
      CarriedByHolder(s);
      var u :| u in s.calls && Carries(s.calls[u].phase) && !s.calls[u].phase.Accepted?;
      assert u in after.calls && Carries(after.calls[u].phase);
    } else if EntryOf(s.shared, handle) == BecameActive {
      assert t in after.calls && Carries(after.calls[t].phase);
    } else if s.shared.queue != [] {
      var u :| u in s.calls && Carries(s.calls[u].phase);
      assert u != t;
      assert u in after.calls && Carries(after.calls[u].phase);
    }
  }

  lemma CarriedHandingOff(s: State, t: nat)
    requires Inv(s) && Enabled(s, FinishTurn(t))
    ensures Carried(Next(s, FinishTurn(t)))
  {
    var kept, after := Survivors(s.shared), Next(s, FinishTurn(t));
    if kept != [] {
      FirstSurvivor(s);
      assert kept[0].ticket in after.calls && Carries(after.calls[kept[0].ticket].phase);
    }
  }

  lemma CarriedMoved(s: State, e: Step)
    requires Inv(s) && Carried(s) && Enabled(s, e) && MovesOne(e)
    ensures Carried(Next(s, e))
  {
    OneMoved(s, e);
    if Next(s, e).shared.queue != [] && s.canceller == Nobody {
      var u :| u in s.calls && Carries(s.calls[u].phase);
      assert u in Next(s, e).calls && Carries(Next(s, e).calls[u].phase);
    }
  }

  /** Accepting a call, or giving one up, takes no carrier away. */
  lemma CarriedUnmoved(s: State, e: Step)
    requires Carried(s) && Enabled(s, e) && (e.GiveUp? || (e.Accept? && |s.owner| !in s.calls))
    ensures Carried(Next(s, e))
  {
    if s.shared.queue != [] && s.canceller == Nobody {
      var u :| u in s.calls && Carries(s.calls[u].phase);
      assert u in Next(s, e).calls && Carries(Next(s, e).calls[u].phase);
    }
  }

  lemma CarriedKept(s: State, e: Step)
    requires Inv(s) && Carried(s) && Enabled(s, e)
    ensures Carried(Next(s, e))
  {
    match e {
      case Accept(_) =>
        assert Places(s, |s.owner|) == 0;
        CarriedUnmoved(s, e);
      case GiveUp(_) => CarriedUnmoved(s, e);
      case AcceptElsewhere =>
      case EnterAccepted(t, fails) =>
        assert HandleFits(s.shared, Reach(s), s.calls[t].phase);
        CarriedEntering(s, t, s.calls[t].runId, Some(s.calls[t].phase.seqNo), fails);
      case EnterUntracked(runId) =>
        assert Places(s, |s.owner|) == 0;
        CarriedEntering(Submit(s, runId), |s.owner|, runId, None, false);
      case DrainForStep(t) => assert Carries(Next(s, e).calls[t].phase);
      case Retry(t) => assert Carries(Next(s, e).calls[t].phase);
      case FinishTurn(t) => CarriedHandingOff(s, t);
      case BeginCancel =>
      case EndCancel =>
      case _ => CarriedMoved(s, e);
    }
  }

  lemma {:induction false} AlwaysCarried(s: State, steps: seq<Step>)
    requires Inv(s) && Carried(s) && Legal(s, steps)
    ensures Carried(Exec(s, steps))
    decreases |steps|
  {
    if steps != [] {
      StepKeeps(s, steps[0]);
      CarriedKept(s, steps[0]);
      AlwaysCarried(Next(s, steps[0]), steps[1..]);
    }
  }

  /** A queued prompt always has a live call that will still take it, drop it or
      clear it, or a Cancel at work that is about to clear it. */
  lemma NoPromptIsStranded(steps: seq<Step>)
    requires Legal(Init(), steps) && Exec(Init(), steps).shared.queue != []
    ensures var s := Exec(Init(), steps);
      s.canceller.Holds? || exists t :: t in s.calls && Carries(s.calls[t].phase)
  {
    InitHolds();
    AlwaysCarried(Init(), steps);
  }

  /** Every call has come to rest and no Cancel is at work. */
  predicate Resting(s: State) { s.calls == map[] && s.canceller == Nobody }

  /** At rest the session is idle: nothing is queued, the slot is free and no
      reservation is open. A mark stands exactly when a Cancel left it behind; it
      covers no handle still to come. */
  lemma RestIsIdle(steps: seq<Step>)
    requires Legal(Init(), steps) && Resting(Exec(Init(), steps))
    ensures var s := Exec(Init(), steps);
      && s.shared.queue == [] && s.shared.active == None && s.shared.count == 0
      && (s.shared.mark > 0 <==> s.orphan) && !Covered(s.shared.mark, s.shared.seqGen + 1)
      && (Undisturbed(Init(), steps) ==> s.shared.mark == 0)
  {
    InitHolds();
    AlwaysInv(Init(), steps);
    AlwaysCarried(Init(), steps);
    assert Open(map[]) == {};
    if Undisturbed(Init(), steps) { IdleClearNeedsARace(steps); }
  }

  // ---------------------------------------------------------- terminal events

  /** A queued prompt that no standing cancel covers and that carries this run ID. */
  predicate CarriesOn(v: Shared, q: Queued, r: string) {
    q in v.queue && q.runId == r && !(v.mark > 0 && (q.acceptSeq == 0 || q.acceptSeq <= v.mark))
  }

  /** A finishing run with a run ID publishes its own terminal event, unless a queued
      prompt that outlives it carries its run ID on; exactly then it is spared. */
  lemma FinishedRunTellsIff(s: State, t: nat)
    requires Enabled(s, FinishTurn(t)) && s.calls[t].runId != ""
    ensures var r, after := s.calls[t].runId, Next(s, FinishTurn(t));
      && t in after.calls && after.calls[t].phase.Publishing?
      && (after.calls[t].phase.owes <==> forall q :: !CarriesOn(s.shared, q, r))
      && after.carriedOn == s.carriedOn + if after.calls[t].phase.owes then [] else [Queued(t, r, 0)]
  {
    var kept, r := Survivors(s.shared), s.calls[t].runId;
    SurvivorsArePicked(s.shared);
    forall q ensures q in kept && q.runId == r <==> CarriesOn(s.shared, q, r) {
      PickMember(s.shared.queue, s.shared.mark, Drop, q);
    }
    if k :| 0 <= k < |kept| && kept[k].runId == r { assert CarriesOn(s.shared, kept[k], r); }
  }

  /** A run ID is never reported more often than it was submitted, and one that was
      submitted is reported or still owed a report by a queued or live call. */
  lemma EveryRunIdIsAccountedFor(steps: seq<Step>, r: string)
    requires Legal(Init(), steps) && r != ""
    ensures var s := Exec(Init(), steps);
      && Count(s.told, ByRun(r)) <= Submitted(s.owner, r)
      && (Submitted(s.owner, r) > 0 && Count(s.told, ByRun(r)) == 0 ==>
            || (exists k :: 0 <= k < |s.shared.queue| && s.shared.queue[k].runId == r)
            || (exists t :: t in s.calls && s.calls[t].runId == r && Owing(s.calls[t].phase)))
  {
    InitHolds();
    AlwaysInv(Init(), steps);
    var s := Exec(Init(), steps);
    assert BalancedFor(s, r);
    CountMember(s.shared.queue, ByRun(r));
    if |Debtors(s.calls, r)| > 0 {
      var t :| t in Debtors(s.calls, r);
    } else if Count(s.shared.queue, ByRun(r)) > 0 {
      var k :| 0 <= k < |s.shared.queue| && Matches(s.shared.queue[k], ByRun(r));
      assert s.shared.queue[k].runId == r;
    }
  }

  /** At rest a run ID has been reported exactly as often as it was submitted, less
      the hand-offs that carried it on: at least once if at all, and exactly once
      when all its calls but one were carried on. */
  lemma AtRestEveryRunIdWasTold(steps: seq<Step>, r: string)
    requires Legal(Init(), steps) && r != "" && Resting(Exec(Init(), steps))
    ensures var s := Exec(Init(), steps);
      && Count(s.told, ByRun(r)) == Submitted(s.owner, r) - Count(s.carriedOn, ByRun(r))
      && (Submitted(s.owner, r) > 0 <==> Count(s.told, ByRun(r)) > 0)
      && (Count(s.told, ByRun(r)) == 1 <==> Submitted(s.owner, r) == Count(s.carriedOn, ByRun(r)) + 1)
  {
    RestIsIdle(steps);
    InitHolds();
    AlwaysInv(Init(), steps);
    assert BalancedFor(Exec(Init(), steps), r);
    assert Debtors(map[], r) == {};
  }

  /** A run ID that labels a single call is reported exactly once. */
  lemma SingleCallIsToldOnce(steps: seq<Step>, r: string)
    requires Legal(Init(), steps) && r != "" && Resting(Exec(Init(), steps))
    requires Submitted(Exec(Init(), steps).owner, r) == 1
    ensures Count(Exec(Init(), steps).told, ByRun(r)) == 1 && Count(Exec(Init(), steps).carriedOn, ByRun(r)) == 0
  {
    AtRestEveryRunIdWasTold(steps, r);
  }

  /** A running turn whose repair retry waits in the queue under its run ID. */
  function RetryWaits(): State {
    State(Shared(0, 0, 0, [Queued(1, "r", 0)], Some(0)), map[0 := Prompt("r", Running(0, false))], ["r", "r"], 1, [],
          [], [], {}, [], Nobody, false)
  }

  lemma RetryWaitsIsReached()
    ensures Enabled(Init(), EnterUntracked("r")) && Enabled(Next(Init(), EnterUntracked("r")), Retry(0))
    ensures Next(Next(Init(), EnterUntracked("r")), Retry(0)) == RetryWaits()
  {
    var s := Next(Init(), EnterUntracked("r"));
    assert s.shared == Shared(0, 0, 0, [], Some(0)) && s.owner == ["r"] &&
      s.calls == map[0 := Prompt("r", Running(0, false))];
  }

  /** The same turn with a Cancel at work, which found no handle open. */
  function RetryStruck(): State {
    RetryWaits().(calls := map[0 := Prompt("r", Running(0, true))], canceller := Holds(None))
  }

  /** The same turn after the Cancel, in a state that may still run or be released. */
  function RetryTold(phase: Phase, active: Option<nat>): State {
    State(Shared(0, 0, 0, [], active), map[0 := Prompt("r", phase)], ["r", "r"], 1, [Queued(1, "r", 0)], [],
          [Queued(1, "r", 0)],
          {}, [], Nobody, false)
  }

  lemma CancelTellsTheRetry()
    ensures Next(RetryWaits(), BeginCancel) == RetryStruck()
    ensures Next(RetryStruck(), EndCancel) == RetryTold(Running(0, true), Some(0))
  {
    var s, retry := RetryWaits(), Queued(1, "r", 0);
    NamedSnoc([], retry);
    assert [] + [retry] == [retry];
    assert Discard(RetryStruck(), [retry]) == RetryStruck().(told := [retry], dropped := [retry]);
    assert (map t | t in s.calls :: Struck(s.calls[t], Some(0))) == map[0 := Prompt("r", Running(0, true))];
  }

  lemma ReleasedTurnStillOwes()
    ensures Next(RetryTold(Running(0, true), Some(0)), Release(0)) == RetryTold(Released(0), None)
    ensures Next(RetryTold(Released(0), None), FinishTurn(0)) == RetryTold(Publishing(0, true, false), None)
  {
    var s := RetryTold(Released(0), None);
    assert Survivors(s.shared) == [] && HandoffDrops(s.shared) == [];
    assert s.told + [] == s.told && s.dropped + [] == s.dropped;
  }

  lemma OwedTurnTellsToo()
    ensures Next(RetryTold(Publishing(0, true, false), None), Publish(0)).told == [Queued(1, "r", 0), Queued(0, "r", 0)]
  {
  }

  /** A repair retry shares its run ID with the turn it repairs. Cancelled while it
      waits, it reports once, and the turn it came from reports again. */
  lemma CancelledRetryReportsTwice() returns (steps: seq<Step>)
    ensures Legal(Init(), steps) && Enabled(Exec(Init(), steps), Publish(0))
    ensures Next(Exec(Init(), steps), Publish(0)).told == [Queued(1, "r", 0), Queued(0, "r", 0)]
  {
    steps := [EnterUntracked("r"), Retry(0), BeginCancel, EndCancel, Release(0), FinishTurn(0)];
    RetryWaitsIsReached();
    CancelTellsTheRetry();
    ReleasedTurnStillOwes();
    OwedTurnTellsToo();
    Ran6(Init(), Next(Init(), EnterUntracked("r")), RetryWaits(), RetryStruck(), RetryTold(Running(0, true), Some(0)),
         RetryTold(Released(0), None), EnterUntracked("r"), Retry(0), BeginCancel, EndCancel, Release(0),
           FinishTurn(0));
    assert Exec(Init(), steps) == RetryTold(Publishing(0, true, false), None);
  }
}
