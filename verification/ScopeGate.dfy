/** The first-write scope gate: a run that has explored for a while must declare a
    plan or answer one question before it writes. Tool calls pass the gate in two
    locked phases with an unlocked read of the stored plan in between. */
module ScopeGate {
  import opened Transcript

  const MIN_EXPLORATION := 8
  const PLAN_BOUNCE_BUDGET := 3

  datatype RunState = RunState(stamp: nat, explore: nat, asking: bool, resolved: bool, bounces: nat)

  /** One session's gate: the state of its latest run, and a plan approval that no
      run has consumed yet. */
  datatype Gate = Gate(state: Option<RunState>, approved: bool)

  /** What a call is to the gate. A todos call may fail to parse, and its list may
      or may not bind evidence to every item. */
  datatype Kind = Mutating | QuestionCall | PlanCall(parses: bool, resolves: bool) | OtherCall

  datatype Verdict = Pass | Wait | Confirm | RejectPlan | EscalatePlan

  /** A non-empty list in which every item binds evidence. */
  method PlanParamsResolve(bound: seq<bool>) returns (ok: bool)
    ensures ok <==> bound != [] && forall k :: 0 <= k < |bound| ==> bound[k]
  {
    if |bound| == 0 { return false; }
    for i := 0 to |bound|
      invariant forall k :: 0 <= k < i ==> bound[k]
    {
      if !bound[i] { return false; }
    }
    return true;
  }

  // ------------------------------------------------------- the locked sections

  predicate Fresh(g: Gate, stamp: nat) { g.state.None? || g.state.value.stamp != stamp }

  /** The state of a run, created when missing or stale. Creating it consumes a
      pending approval. */
  function StateFor(g: Gate, stamp: nat): (r: Gate)
    ensures r.state.Some? && r.state.value.stamp == stamp
  {
    if Fresh(g, stamp) then Gate(Some(RunState(stamp, 0, false, g.approved, 0)), false) else g
  }

  predicate Armed(st: RunState) { !st.resolved && !st.asking && st.explore >= MIN_EXPLORATION }

  function Judge(st: RunState, kind: Kind, declared: bool): (RunState, Verdict) {
    match kind
    case Mutating =>
      if st.resolved || st.explore < MIN_EXPLORATION then (st, Pass)
      else if st.asking then (st, Wait)
      else (st.(asking := true), Confirm)
    case QuestionCall => (st.(resolved := true), Pass)
    case PlanCall(parses, resolves) =>
      if Armed(st) && parses && !resolves && !declared then
        if st.bounces >= PLAN_BOUNCE_BUDGET then (st.(asking := true), EscalatePlan)
        else (st.(bounces := st.bounces + 1), RejectPlan)
      else (st, Pass)
    case OtherCall => (st.(explore := st.explore + 1), Pass)
  }

  function Judged(g: Gate, stamp: nat, kind: Kind, declared: bool): Gate {
    var at := StateFor(g, stamp);
    at.(state := Some(Judge(at.state.value, kind, declared).0))
  }

  function Resolved(g: Gate): Gate {
    if g.state.Some? then g.(state := Some(g.state.value.(asking := false, resolved := true))) else g
  }

  class Gates {
    var states: map<string, RunState>
    var approved: set<string>

    constructor ()
      ensures forall s :: View(s) == Gate(None, false)
    {
      states, approved := map[], {};
    }

    ghost function View(s: string): Gate
      reads this
    {
      Gate(if s in states then Some(states[s]) else None, s in approved)
    }

    twostate predicate OthersKeep(s: string)
      reads this
    {
      forall t :: t != s ==> View(t) == old(View(t))
    }

    method ApprovePlan(s: string)
      modifies this`approved
      ensures View(s) == old(View(s)).(approved := true) && OthersKeep(s)
    {
      approved := approved + {s};
    }

    method EnsureState(s: string, stamp: nat) returns (st: RunState)
      modifies this
      ensures View(s) == StateFor(old(View(s)), stamp) && View(s).state == Some(st) && OthersKeep(s)
    {
      if s in states && states[s].stamp == stamp {
        return states[s];
      }
      st := RunState(stamp, 0, false, s in approved, 0);
      approved := approved - {s};
      states := states[s := st];
    }

    /** Phase one: does this call need the stored plan? */
    method NeedsPlanCheck(s: string, stamp: nat, kind: Kind) returns (needs: bool)
      modifies this
      ensures View(s) == StateFor(old(View(s)), stamp) && OthersKeep(s)
      ensures needs <==> kind.PlanCall? && Armed(View(s).state.value)
    {
      var st := EnsureState(s, stamp);
      needs := kind.PlanCall? && !st.resolved && !st.asking && st.explore >= MIN_EXPLORATION;
    }

    /** Phase two: the verdict. */
    method Observe(s: string, stamp: nat, kind: Kind, declared: bool) returns (verdict: Verdict)
      modifies this
      ensures View(s) == Judged(old(View(s)), stamp, kind, declared) && OthersKeep(s)
      ensures verdict == Judge(StateFor(old(View(s)), stamp).state.value, kind, declared).1
    {
      var st := EnsureState(s, stamp);
      verdict := Pass;
      match kind {
        case Mutating =>
          if !st.resolved && st.explore >= MIN_EXPLORATION {
            if st.asking { return Wait; }
            st := st.(asking := true);
            verdict := Confirm;
          }
        case QuestionCall => st := st.(resolved := true);
        case PlanCall(parses, resolves) =>
          if !st.resolved && !st.asking && st.explore >= MIN_EXPLORATION && parses && !resolves && !declared {
            if st.bounces >= PLAN_BOUNCE_BUDGET {
              st := st.(asking := true);
              verdict := EscalatePlan;
            } else {
              st := st.(bounces := st.bounces + 1);
              verdict := RejectPlan;
            }
          }
        case OtherCall => st := st.(explore := st.explore + 1);
      }
      states := states[s := st];
    }

    method Resolve(s: string)
      modifies this`states
      ensures View(s) == Resolved(old(View(s))) && OthersKeep(s)
    {
      if s in states { states := states[s := states[s].(asking := false, resolved := true)]; }
    }
  }

  // --------------------------------------------------------------- the protocol

  /** A call between its phases. `bound` is what the stored plan is found to be. */
  datatype Pending = Pending(stamp: nat, kind: Kind, needs: bool, bound: bool)

  /** Why a run's gate is resolved. */
  datatype Reason = ByApproval | ByQuestionTool | ByAnswer | ByPlan

  datatype Entry = Entry(stamp: nat, kind: Kind, verdict: Verdict)

  /** `log` holds every verdict; `grants` counts the approvals given while none was
      pending, `consumed` the runs an approval resolved; `reasons` what resolved the
      latest run. */
  datatype State = State(gate: Gate, pending: map<nat, Pending>, log: seq<Entry>, grants: nat, consumed: seq<nat>,
                         reasons: set<Reason>)

  datatype Step =
    | Approve
    | PhaseOne(id: nat, stamp: nat, kind: Kind, bound: bool)
    | PhaseTwo(id: nat)
    | Answer
    | PlanLands

  function Init(): State { State(Gate(None, false), map[], [], 0, [], {}) }

  /** Runs of one session do not overlap: a newer stamp appears only once the older
      run's calls are through, and an older one never comes back. */
  predicate Enabled(s: State, e: Step) {
    match e
    case Approve => true
    case PhaseOne(id, stamp, _, _) =>
      && id !in s.pending
      && (s.gate.state.Some? ==>
           s.gate.state.value.stamp <= stamp && (s.gate.state.value.stamp < stamp ==> s.pending == map[]))
    case PhaseTwo(id) => id in s.pending
    case Answer => s.gate.state.Some? && s.gate.state.value.asking
    case PlanLands =>
      s.gate.state.Some? && exists k :: 0 <= k < |s.log| && IsLandedPlan(s.log[k], s.gate.state.value.stamp)
  }

  predicate IsLandedPlan(e: Entry, stamp: nat) {
    e.stamp == stamp && e.kind == PlanCall(true, true) && e.verdict == Pass
  }

  function Next(s: State, e: Step): State
    requires Enabled(s, e)
  {
    match e
    case Approve => s.(gate := s.gate.(approved := true), grants := if s.gate.approved then s.grants else s.grants + 1)
    case PhaseOne(id, stamp, kind, bound) =>
      var fresh_, gate := Fresh(s.gate, stamp), StateFor(s.gate, stamp);
      State(gate, s.pending[id := Pending(stamp, kind, kind.PlanCall? && Armed(gate.state.value), bound)], s.log,
            s.grants,
            if fresh_ && s.gate.approved then s.consumed + [stamp] else s.consumed,
            if fresh_ then (if s.gate.approved then {ByApproval} else {}) else s.reasons)
    case PhaseTwo(id) =>
      var p := s.pending[id];
      var declared := p.needs && p.bound;
      var at := StateFor(s.gate, p.stamp);
      State(Judged(s.gate, p.stamp, p.kind, declared), s.pending - {id},
            s.log + [Entry(p.stamp, p.kind, Judge(at.state.value, p.kind, declared).1)], s.grants, s.consumed,
            if p.kind == QuestionCall then s.reasons + {ByQuestionTool} else s.reasons)
    case Answer => s.(gate := Resolved(s.gate), reasons := s.reasons + {ByAnswer})
    case PlanLands => s.(gate := Resolved(s.gate), reasons := s.reasons + {ByPlan})
  }

  // -------------------------------------------------------------- what is counted

  datatype Tally = Claims | Bounces | Explored

  predicate CountsFor(e: Entry, t: Tally) {
    match t
    case Claims => e.verdict == Confirm || e.verdict == EscalatePlan
    case Bounces => e.verdict == RejectPlan
    case Explored => e.kind == OtherCall
  }

  function Count(log: seq<Entry>, stamp: nat, t: Tally): nat {
    if log == [] then 0
    else
      var last := log[|log| - 1];
      Count(log[..|log| - 1], stamp, t) + if last.stamp == stamp && CountsFor(last, t) then 1 else 0
  }

  lemma CountSnoc(log: seq<Entry>, e: Entry, stamp: nat, t: Tally)
    ensures Count(log + [e], stamp, t) == Count(log, stamp, t) + if e.stamp == stamp && CountsFor(e, t) then 1 else 0
  {
    assert (log + [e])[..|log + [e]| - 1] == log;
  }

  /** No verdict of run `stamp` or later. */
  predicate Unheard(log: seq<Entry>, stamp: nat) { forall k :: 0 <= k < |log| ==> log[k].stamp < stamp }

  lemma {:induction false} UnheardCounts(log: seq<Entry>, stamp: nat, t: Tally)
    requires Unheard(log, stamp)
    ensures Count(log, stamp, t) == 0
  {
    if log != [] { UnheardCounts(log[..|log| - 1], stamp, t); }
  }

  /** The latest run's fields are what its verdicts add up to. */
  predicate Tallied(st: RunState, log: seq<Entry>, reasons: set<Reason>) {
    && st.explore == Count(log, st.stamp, Explored)
    && st.bounces == Count(log, st.stamp, Bounces) <= PLAN_BOUNCE_BUDGET
    && Count(log, st.stamp, Claims) <= 1
    && (Count(log, st.stamp, Claims) == 1 ==> st.asking || st.resolved)
    && (st.asking ==> Count(log, st.stamp, Claims) == 1)
    && (st.resolved <==> reasons != {})
    && (forall k :: 0 <= k < |log| ==> log[k].stamp <= st.stamp)
  }

  predicate BoundedFor(log: seq<Entry>, stamp: nat) {
    Count(log, stamp, Claims) <= 1 && Count(log, stamp, Bounces) <= PLAN_BOUNCE_BUDGET
  }

  ghost predicate Bounded(log: seq<Entry>) { forall stamp: nat :: BoundedFor(log, stamp) }

  ghost predicate Inv(s: State) {
    && (s.gate.state.None? ==> s.log == [] && s.pending == map[] && s.consumed == [])
    && (s.gate.state.Some? ==> Tallied(s.gate.state.value, s.log, s.reasons))
    && (forall id :: id in s.pending ==> s.gate.state.Some? && s.pending[id].stamp == s.gate.state.value.stamp)
    && Bounded(s.log)
    && s.grants == |s.consumed| + (if s.gate.approved then 1 else 0)
    && (forall j, k :: 0 <= j < k < |s.consumed| ==> s.consumed[j] < s.consumed[k])
    && (forall k :: 0 <= k < |s.consumed| ==> s.gate.state.Some? && s.consumed[k] <= s.gate.state.value.stamp)
    && (s.gate.state.Some? ==> (ByApproval in s.reasons <==> s.gate.state.value.stamp in s.consumed))
  }

  lemma PhaseOneKeeps(s: State, id: nat, stamp: nat, kind: Kind, bound: bool)
    requires Inv(s) && Enabled(s, PhaseOne(id, stamp, kind, bound))
    ensures Inv(Next(s, PhaseOne(id, stamp, kind, bound)))
  {
    if Fresh(s.gate, stamp) {
      UnheardCounts(s.log, stamp, Claims);
      UnheardCounts(s.log, stamp, Bounces);
      UnheardCounts(s.log, stamp, Explored);
    }
  }

  lemma JudgedTally(st: RunState, log: seq<Entry>, reasons: set<Reason>, kind: Kind, declared: bool)
    requires Tallied(st, log, reasons)
    ensures var (after, verdict) := Judge(st, kind, declared);
      Tallied(after, log + [Entry(st.stamp, kind, verdict)],
              if kind == QuestionCall then reasons + {ByQuestionTool} else reasons)
  {
    var e := Entry(st.stamp, kind, Judge(st, kind, declared).1);
    CountSnoc(log, e, st.stamp, Claims);
    CountSnoc(log, e, st.stamp, Bounces);
    CountSnoc(log, e, st.stamp, Explored);
  }

  lemma PhaseTwoKeeps(s: State, id: nat)
    requires Inv(s) && Enabled(s, PhaseTwo(id))
    ensures Inv(Next(s, PhaseTwo(id)))
  {
    var p := s.pending[id];
    assert StateFor(s.gate, p.stamp) == s.gate;
    VerdictKeeps(s, id, s.gate.state.value);
  }

  lemma VerdictKeeps(s: State, id: nat, st: RunState)
    requires Inv(s) && id in s.pending && s.gate.state == Some(st) && s.pending[id].stamp == st.stamp
    ensures var p := s.pending[id];
      var (judged, verdict) := Judge(st, p.kind, p.needs && p.bound);
      Inv(State(s.gate.(state := Some(judged)), s.pending - {id}, s.log + [Entry(p.stamp, p.kind, verdict)], s.grants,
                s.consumed,
                if p.kind == QuestionCall then s.reasons + {ByQuestionTool} else s.reasons))
  {
    var p := s.pending[id];
    JudgedTally(st, s.log, s.reasons, p.kind, p.needs && p.bound);
    BoundedSnoc(s.log, Entry(p.stamp, p.kind, Judge(st, p.kind, p.needs && p.bound).1));
  }

  lemma BoundedSnoc(log: seq<Entry>, e: Entry)
    requires Bounded(log) && BoundedFor(log + [e], e.stamp)
    ensures Bounded(log + [e])
  {
    forall stamp: nat ensures BoundedFor(log + [e], stamp) {
      assert BoundedFor(log, stamp);
      CountSnoc(log, e, stamp, Claims);
      CountSnoc(log, e, stamp, Bounces);
    }
  }

  lemma StepKeeps(s: State, e: Step)
    requires Inv(s) && Enabled(s, e)
    ensures Inv(Next(s, e))
  {
    match e {
      case PhaseOne(id, stamp, kind, bound) => PhaseOneKeeps(s, id, stamp, kind, bound);
      case PhaseTwo(id) => PhaseTwoKeeps(s, id);
      case _ =>
    }
  }

  predicate Legal(s: State, steps: seq<Step>)
    decreases |steps|
  {
    steps == [] || (Enabled(s, steps[0]) && Legal(Next(s, steps[0]), steps[1..]))
  }

  function Exec(s: State, steps: seq<Step>): State
    requires Legal(s, steps)
    decreases |steps|
  {
    if steps == [] then s else Exec(Next(s, steps[0]), steps[1..])
  }

  lemma {:induction false} AlwaysInv(s: State, steps: seq<Step>)
    requires Inv(s) && Legal(s, steps)
    ensures Inv(Exec(s, steps))
    decreases |steps|
  {
    if steps != [] {
      StepKeeps(s, steps[0]);
      AlwaysInv(Next(s, steps[0]), steps[1..]);
    }
  }

  /** In any interleaving of a session's calls, no run claims the question slot twice
      and no run has more than three plan declarations bounced. */
  lemma OneQuestionThreeBounces(steps: seq<Step>, stamp: nat)
    requires Legal(Init(), steps)
    ensures var log := Exec(Init(), steps).log;
      Count(log, stamp, Claims) <= 1 && Count(log, stamp, Bounces) <= 3
  {
    AlwaysInv(Init(), steps);
    assert BoundedFor(Exec(Init(), steps).log, stamp);
  }

  /** A mutating call passes only if the run has passed fewer than eight exploring
      calls, or something resolved its gate. */
  lemma WritesPassOnlyWhenCleared(steps: seq<Step>, id: nat)
    requires Legal(Init(), steps) && Enabled(Exec(Init(), steps), PhaseTwo(id))
    requires Exec(Init(), steps).pending[id].kind == Mutating
    ensures var s := Exec(Init(), steps);
      var after := Next(s, PhaseTwo(id));
      after.log[|s.log|].verdict == Pass <==>
        Count(s.log, s.pending[id].stamp, Explored) < 8 || s.reasons != {}
  {
    AlwaysInv(Init(), steps);
    var s := Exec(Init(), steps);
    assert StateFor(s.gate, s.pending[id].stamp) == s.gate;
  }

  /** The latest run must declare or ask before it writes: it has explored eight steps,
      nothing resolved its gate, and it has not asked yet. */
  ghost predicate MustDeclare(s: State, stamp: nat) {
    Count(s.log, stamp, Explored) >= MIN_EXPLORATION && s.reasons == {} && Count(s.log, stamp, Claims) == 0
  }

  /** Every verdict of the second phase, from the run's verdicts so far. A blocked write
      asks if its run has not asked yet, and waits for that question otherwise. A plan
      that does not resolve, and finds none that does in the store, is bounced three times
      and then asks. Everything else passes. */
  lemma VerdictsFollowTheLog(steps: seq<Step>, id: nat)
    requires Legal(Init(), steps) && Enabled(Exec(Init(), steps), PhaseTwo(id))
    ensures var s := Exec(Init(), steps);
      var p, verdict := s.pending[id], Next(s, PhaseTwo(id)).log[|s.log|].verdict;
      var blocked := Count(s.log, p.stamp, Explored) >= MIN_EXPLORATION && s.reasons == {};
      var bounced := MustDeclare(s, p.stamp) && p.kind == PlanCall(true, false) && !(p.needs && p.bound);
      && (verdict == Confirm <==> p.kind == Mutating && MustDeclare(s, p.stamp))
      && (verdict == Wait <==> p.kind == Mutating && blocked && Count(s.log, p.stamp, Claims) == 1)
      && (verdict == RejectPlan <==> bounced && Count(s.log, p.stamp, Bounces) < PLAN_BOUNCE_BUDGET)
      && (verdict == EscalatePlan <==> bounced && Count(s.log, p.stamp, Bounces) == PLAN_BOUNCE_BUDGET)
  {
    AlwaysInv(Init(), steps);
    var s := Exec(Init(), steps);
    assert StateFor(s.gate, s.pending[id].stamp) == s.gate;
  }

  /** A call notes that it needs the stored plan exactly if it is a plan call and its run
      must declare. */
  lemma PlanIsReadWhenItCounts(steps: seq<Step>, id: nat, stamp: nat, kind: Kind, bound: bool)
    requires Legal(Init(), steps) && Enabled(Exec(Init(), steps), PhaseOne(id, stamp, kind, bound))
    ensures var s := Next(Exec(Init(), steps), PhaseOne(id, stamp, kind, bound));
      s.pending[id].needs <==> kind.PlanCall? && MustDeclare(s, stamp)
  {
    AlwaysInv(Init(), steps);
    var s := Exec(Init(), steps);
    PhaseOneKeeps(s, id, stamp, kind, bound);
  }

  /** An answer, or a plan that lands, frees the question slot and lets the run's writes
      through, whatever the gate was. */
  lemma AnswerFreesTheSlot(s: State, e: Step)
    requires Enabled(s, e) && (e.Answer? || e.PlanLands?)
    ensures var after := Next(s, e);
      && !Enabled(after, Answer)
      && after.gate.state.Some? && after.gate.state.value.stamp == s.gate.state.value.stamp
      && Judge(after.gate.state.value, Mutating, false).1 == Pass
  {
  }

  /** An approval given while none is pending resolves exactly one run, or is still
      waiting for one; no run consumes two. The latest run is resolved, from its first
      call on, if it is one of those runs, and counts as approved only then. */
  lemma ApprovalResolvesOneRun(steps: seq<Step>)
    requires Legal(Init(), steps)
    ensures var s := Exec(Init(), steps);
      && s.grants == |s.consumed| + (if s.gate.approved then 1 else 0)
      && (forall j, k :: 0 <= j < k < |s.consumed| ==> s.consumed[j] != s.consumed[k])
      && (s.gate.state.Some? ==>
            && (s.gate.state.value.stamp in s.consumed ==> s.gate.state.value.resolved)
            && (ByApproval in s.reasons <==> s.gate.state.value.stamp in s.consumed))
  {
    AlwaysInv(Init(), steps);
  }

  /** A bookkeeping write in a session whose stored plan binds evidence is bounced
      exactly when the gate was not armed yet in the first phase, so that the stored
      plan was never read, and is armed in the second. */
  lemma DeclaredPlanBouncedIff(s: State, id: nat)
    requires Inv(s) && Enabled(s, PhaseTwo(id)) && s.pending[id].bound && s.pending[id].kind == PlanCall(true, false)
    ensures Next(s, PhaseTwo(id)).log[|s.log|].verdict in {RejectPlan, EscalatePlan} <==>
      !s.pending[id].needs && Armed(s.gate.state.value)
  {
    assert StateFor(s.gate, s.pending[id].stamp) == s.gate;
  }

  lemma {:induction false} LegalConcat(s: State, a: seq<Step>, b: seq<Step>)
    requires Legal(s, a) && Legal(Exec(s, a), b)
    ensures Legal(s, a + b) && Exec(s, a + b) == Exec(Exec(s, a), b)
    decreases |a|
  {
    if a == [] {
      assert a + b == b;
    } else {
      LegalConcat(Next(s, a[0]), a[1..], b);
      assert (a + b)[1..] == a[1..] + b;
    }
  }

  lemma Single(s: State, e: Step)
    requires Enabled(s, e)
    ensures Legal(s, [e]) && Exec(s, [e]) == Next(s, e)
  {
    assert [e][1..] == [];
  }

  /** Run 1 has explored `n` steps; `pending` waits between its phases. */
  predicate Explores(s: State, n: nat, pending: map<nat, Pending>) {
    s.gate == Gate(Some(RunState(1, n, false, false, 0)), false) && s.pending == pending
  }

  /** One more exploring call, through both phases. */
  lemma ExploreOnce(s: State, n: nat, pending: map<nat, Pending>)
    requires Explores(s, n, pending) && 0 !in pending
    ensures var call := [PhaseOne(0, 1, OtherCall, false), PhaseTwo(0)];
      Legal(s, call) && Explores(Exec(s, call), n + 1, pending)
  {
    var one, two := PhaseOne(0, 1, OtherCall, false), PhaseTwo(0);
    var mid := Next(s, one);
    assert mid.pending - {0} == pending;
    Single(s, one);
    Single(mid, two);
    LegalConcat(s, [one], [two]);
    assert [one] + [two] == [one, two];
  }

  lemma {:induction false} ExploreTimes(n: nat) returns (steps: seq<Step>)
    requires n > 0
    ensures Legal(Init(), steps) && Explores(Exec(Init(), steps), n, map[])
  {
    var call := [PhaseOne(0, 1, OtherCall, false), PhaseTwo(0)];
    if n == 1 {
      var mid := Next(Init(), call[0]);
      assert mid.pending - {0} == map[];
      Single(Init(), call[0]);
      Single(mid, call[1]);
      LegalConcat(Init(), [call[0]], [call[1]]);
      steps := [call[0]] + [call[1]];
    } else {
      var before := ExploreTimes(n - 1);
      ExploreOnce(Exec(Init(), before), n - 1, map[]);
      LegalConcat(Init(), before, call);
      steps := before + call;
    }
  }

  /** The bounce is reached. A run explores seven steps, its bookkeeping write passes
      the first phase, an eighth exploring call overtakes it and arms the gate, and the
      write is rejected although the stored plan binds evidence to every item. */
  lemma BoundPlanIsBounced() returns (steps: seq<Step>)
    ensures Legal(Init(), steps) && Enabled(Exec(Init(), steps), PhaseTwo(1))
    ensures var s := Exec(Init(), steps);
      && s.pending[1] == Pending(1, PlanCall(true, false), false, true)
      && Next(s, PhaseTwo(1)).log[|s.log|].verdict == RejectPlan
  {
    var todos, pending := PhaseOne(1, 1, PlanCall(true, false), true),
      map[1 := Pending(1, PlanCall(true, false), false, true)];
    var seven := ExploreTimes(7);
    var s7 := Exec(Init(), seven);
    Single(s7, todos);
    LegalConcat(Init(), seven, [todos]);
    assert Explores(Next(s7, todos), 7, pending);
    ExploreOnce(Next(s7, todos), 7, pending);
    var call := [PhaseOne(0, 1, OtherCall, false), PhaseTwo(0)];
    LegalConcat(Init(), seven + [todos], call);
    steps := seven + [todos] + call;
  }
}
