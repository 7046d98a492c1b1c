/** How often a boundary writes each edge's row, and which claims the note on the
    final message speaks for. */
module RunEdgesRows {
  import opened Transcript
  import opened RunEdges
  import opened RunEdgesProperties
  import opened RunEdgesConservation

  // ------------------------------------------------------------- counting rows

  predicate RowOf(e: Event, i: nat) { e.Row? && e.edge == i }

  predicate TwoRowsFor(log: seq<Event>, i: nat) {
    exists j, k :: 0 <= j < k < |log| && RowOf(log[j], i) && RowOf(log[k], i)
  }

  function RowCount(log: seq<Event>, i: nat): nat {
    if log == [] then 0 else RowCount(log[..|log| - 1], i) + if RowOf(log[|log| - 1], i) then 1 else 0
  }

  function NameCount(claims: seq<Claim>, i: nat): nat {
    if claims == [] then 0 else NameCount(claims[..|claims| - 1], i) + if claims[|claims| - 1].edge == i then 1 else 0
  }

  lemma {:induction false} RowCountMeans(log: seq<Event>, i: nat)
    ensures RowCount(log, i) >= 1 <==> exists k :: 0 <= k < |log| && RowOf(log[k], i)
    ensures RowCount(log, i) >= 2 <==> TwoRowsFor(log, i)
  {
    if log != [] {
      var front, last := log[..|log| - 1], log[|log| - 1];
      RowCountMeans(front, i);
      if RowCount(front, i) >= 1 {
        var j :| 0 <= j < |front| && RowOf(front[j], i);
        assert RowOf(log[j], i);
      }
      if TwoRowsFor(front, i) {
        var j, k :| 0 <= j < k < |front| && RowOf(front[j], i) && RowOf(front[k], i);
        assert RowOf(log[j], i) && RowOf(log[k], i);
      }
      if TwoRowsFor(log, i) && !TwoRowsFor(front, i) {
        var j, k :| 0 <= j < k < |log| && RowOf(log[j], i) && RowOf(log[k], i);
        assert RowOf(front[j], i);
      }
    }
  }

  lemma RowCountSnoc(log: seq<Event>, e: Event, i: nat)
    ensures RowCount(log + [e], i) == RowCount(log, i) + if RowOf(e, i) then 1 else 0
  {
    assert (log + [e])[..|log + [e]| - 1] == log;
  }

  lemma {:induction false} RowCountConcat(a: seq<Event>, b: seq<Event>, i: nat)
    ensures RowCount(a + b, i) == RowCount(a, i) + RowCount(b, i)
  {
    if b == [] {
      assert a + b == a;
    } else {
      RowCountConcat(a, b[..|b| - 1], i);
      assert (a + b)[..|a + b| - 1] == a + b[..|b| - 1];
    }
  }

  lemma {:induction false} RowCountRows(log: seq<Event>, claims: seq<Claim>, outcome: Outcome, i: nat)
    ensures RowCount(log + Rows(claims, outcome), i) == RowCount(log, i) + NameCount(claims, i)
  {
    if claims == [] {
      assert log + Rows(claims, outcome) == log;
    } else {
      var front, last := claims[..|claims| - 1], claims[|claims| - 1];
      var row := Row(last.edge, Some(last.trigger), outcome);
      RowCountRows(log, front, outcome, i);
      RowCountSnoc(log + Rows(front, outcome), row, i);
      assert log + Rows(claims, outcome) == (log + Rows(front, outcome)) + [row];
    }
  }

  lemma {:induction false} RowCountUnreached(carried: map<nat, Trigger>, k: nat, n: nat, i: nat)
    requires k <= n
    ensures RowCount(Unreached(carried, k, n), i) == if k <= i < n then 1 else 0
    decreases n
  {
    if k < n {
      var row := Row(n - 1, Find(carried, n - 1), Cancelled);
      RowCountUnreached(carried, k, n - 1, i);
      RowCountSnoc(Unreached(carried, k, n - 1), row, i);
      assert Unreached(carried, k, n) == Unreached(carried, k, n - 1) + [row];
    }
  }

  lemma {:induction false} RowCountVerdicts(call: RunCall, input: Input, k: nat, i: nat)
    requires k <= |input.edges|
    ensures RowCount(Verdicts([], call, input, k), i) == if i < k && FateAt(call, input, i).Verdict? then 1 else 0
  {
    if k > 0 {
      var fate := FateAt(call, input, k - 1);
      RowCountVerdicts(call, input, k - 1, i);
      if fate.Verdict? {
        RowCountSnoc(Verdicts([], call, input, k - 1), Row(k - 1, Some(fate.trigger), fate.outcome), i);
      }
    }
  }

  lemma NameCountSnoc(claims: seq<Claim>, c: Claim, i: nat)
    ensures NameCount(claims + [c], i) == NameCount(claims, i) + if c.edge == i then 1 else 0
  {
    assert (claims + [c])[..|claims + [c]| - 1] == claims;
  }

  lemma {:induction false} NameCountConcat(a: seq<Claim>, b: seq<Claim>, i: nat)
    ensures NameCount(a + b, i) == NameCount(a, i) + NameCount(b, i)
  {
    if b == [] {
      assert a + b == a;
    } else {
      NameCountConcat(a, b[..|b| - 1], i);
      assert (a + b)[..|a + b| - 1] == a + b[..|b| - 1];
    }
  }

  lemma {:induction false} EachNamedOnce(call: RunCall, input: Input, k: nat, i: nat)
    requires k <= |input.edges|
    ensures NameCount(Contenders(call, input, k), i) == if i < k && FateAt(call, input, i).Contends? then 1 else 0
    ensures NameCount(Waiting(call, input, k), i) == if i < k && FateAt(call, input, i).Waits? then 1 else 0
  {
    if k > 0 {
      var fate := FateAt(call, input, k - 1);
      EachNamedOnce(call, input, k - 1, i);
      if fate.Contends? { NameCountSnoc(Contenders(call, input, k - 1), Claim(k - 1, fate.trigger), i); }
      if fate.Waits? { NameCountSnoc(Waiting(call, input, k - 1), Claim(k - 1, fate.trigger), i); }
    }
  }

  lemma SplitNames(claims: seq<Claim>, i: nat)
    ensures NameCount(Winners(claims), i) + NameCount(Losers(claims), i) == NameCount(claims, i)
  {
    var w := FirstEscalation(claims, 0);
    if w < |claims| {
      assert claims == claims[..w] + [claims[w]] + claims[w + 1..];
      NameCountConcat(claims[..w] + [claims[w]], claims[w + 1..], i);
      NameCountConcat(claims[..w], [claims[w]], i);
      NameCountConcat(claims[..w], claims[w + 1..], i);
    }
  }

  lemma {:induction false} RowCountLanded(log: seq<Event>, winners: seq<Claim>, i: nat)
    ensures RowCount(Landed(log, winners), i) == RowCount(log, i) + NameCount(winners, i)
  {
    if winners != [] {
      var front, c := winners[..|winners| - 1], winners[|winners| - 1];
      var before, row := Landed(log, front), Row(c.edge, Some(c.trigger), if c.trigger.prompt then Fired else Cleared);
      RowCountLanded(log, front, i);
      RowCountSnoc(before, Committed(c), i);
      RowCountSnoc(if c.trigger.prompt && c.trigger.commits then before + [Committed(c)] else before, row, i);
    }
  }

  lemma RowCountNote(log: seq<Event>, claims: seq<Claim>, hasAssistant: bool, i: nat)
    ensures RowCount(Note(log, claims, hasAssistant), i) == RowCount(log, i)
  {
    RowCountSnoc(log, Noted(Only(claims, HasNote), Only(claims, HasReport)), i);
  }

  lemma RowCountTwo(log: seq<Event>, a: seq<Claim>, oa: Outcome, b: seq<Claim>, ob: Outcome, noted: seq<Claim>,
                    hasAssistant: bool, i: nat)
    ensures RowCount(Note(log + Rows(a, oa) + Rows(b, ob), noted, hasAssistant), i) ==
      RowCount(log, i) + NameCount(a, i) + NameCount(b, i)
  {
    RowCountRows(log, a, oa, i);
    RowCountRows(log + Rows(a, oa), b, ob, i);
    RowCountNote(log + Rows(a, oa) + Rows(b, ob), noted, hasAssistant, i);
  }

  /** Whatever is decided, each contending and each waiting claim gets one row. */
  lemma RowCountDecided(log: seq<Event>, call: RunCall, input: Input, cs: seq<Claim>, ws: seq<Claim>, i: nat)
    ensures RowCount(Decided(log, call, input, cs, ws), i) == RowCount(log, i) + NameCount(cs, i) + NameCount(ws, i)
  {
    SplitNames(cs, i);
    if cs == [] {
      RowCountRows(log, ws, Cancelled, i);
      RowCountNote(log + Rows(ws, Cancelled), ws, input.hasAssistant, i);
    } else if call.attempts >= MAX_REPAIR_ATTEMPTS {
      RowCountTwo(log, cs, Exhausted, ws, Exhausted, cs + ws, input.hasAssistant, i);
    } else if Only(Winners(cs), HasPrompt) == [] {
      RowCountRows(log, Winners(cs), Cleared, i);
      RowCountTwo(log + Rows(Winners(cs), Cleared), Losers(cs), Deferred, ws, Cancelled, ws + cs, input.hasAssistant,
                  i);
    } else if input.lateDead || input.lockDead {
      RowCountTwo(log, cs, Cancelled, ws, Cancelled, ws + Only(Losers(cs), Bound), input.hasAssistant, i);
    } else {
      var e := Enqueued(RetryOf(call, cs, ws));
      RowCountSnoc(log, e, i);
      RowCountLanded(log + [e], Winners(cs), i);
      RowCountTwo(Landed(log + [e], Winners(cs)), Losers(cs), Deferred, ws, Deferred, Only(Losers(cs), Bound),
                  input.hasAssistant, i);
    }
  }

  lemma RowCountCancelled(log: seq<Event>, carried: map<nat, Trigger>, cs: seq<Claim>, ws: seq<Claim>, d: nat, n: nat,
                          i: nat)
    requires d < n
    ensures RowCount(CancelledBoundary(log, carried, cs, ws, d, n), i) ==
      RowCount(log, i) + NameCount(cs, i) + NameCount(ws, i)
      + (if d < i < n then 1 else 0) + if i == d && d in carried then 1 else 0
  {
    var rows := log + Rows(cs, Cancelled) + Rows(ws, Cancelled);
    RowCountRows(log, cs, Cancelled, i);
    RowCountRows(log + Rows(cs, Cancelled), ws, Cancelled, i);
    RowCountConcat(rows, Unreached(carried, d + 1, n), i);
    RowCountUnreached(carried, d + 1, n, i);
    if d in carried { RowCountSnoc(rows + Unreached(carried, d + 1, n), Row(d, Some(carried[d]), Cancelled), i); }
  }

  /** A dying scan writes one row for each claim and each edge from the dying one on,
      and one more for the dying edge if a trigger is still carried for it. */
  lemma RowCountDeadTail(log: seq<Event>, call: RunCall, input: Input, d: nat, i: nat)
    requires d < |input.edges|
    ensures RowCount(DeadTail(log, call, input, d), i) ==
      RowCount(log, i) + NameCount(Contenders(call, input, d), i) + NameCount(Waiting(call, input, d), i)
      + (if d <= i < |input.edges| then 1 else 0)
      + if i == d && input.edges[d].scanDead && d in CarrierOf(call.deferred) then 1 else 0
  {
    var e := input.edges[d];
    var own := Row(d, if e.scanDead then e.scan else e.resolved, Cancelled);
    RowCountSnoc(log, own, i);
    RowCountCancelled(log + [own], if e.scanDead then CarrierOf(call.deferred) else CarrierOf(call.deferred) - {d},
                      Contenders(call, input, d), Waiting(call, input, d), d, |input.edges|, i);
  }

  predicate NamedTwice(claims: seq<Claim>, i: nat) {
    exists j, k :: 0 <= j < k < |claims| && claims[j].edge == i && claims[k].edge == i
  }

  lemma {:induction false} NameCountMeans(claims: seq<Claim>, i: nat)
    ensures NameCount(claims, i) >= 1 <==> ClaimIn(claims, i)
    ensures NameCount(claims, i) >= 2 <==> NamedTwice(claims, i)
  {
    if claims != [] {
      var front, last := claims[..|claims| - 1], claims[|claims| - 1];
      NameCountMeans(front, i);
      if ClaimIn(front, i) {
        var j :| 0 <= j < |front| && front[j].edge == i;
        assert claims[j].edge == i;
      }
      if NamedTwice(front, i) {
        var j, k :| 0 <= j < k < |front| && front[j].edge == i && front[k].edge == i;
        assert claims[j].edge == i && claims[k].edge == i;
      }
      if NamedTwice(claims, i) && !NamedTwice(front, i) {
        var j, k :| 0 <= j < k < |claims| && claims[j].edge == i && claims[k].edge == i;
        assert front[j].edge == i;
      }
    }
  }

  /** Which row is written more than once. Past the entry guard, exactly the row of an
      edge whose scan dies while a trigger is carried for it: its second insert, with
      the carried trigger's detail, is the one the table ignores. Before the guard, the
      row of an edge the carrier names twice, which no enqueued carrier does. */
  lemma RowWrittenTwiceIff(call: RunCall, input: Input, i: nat)
    ensures TwoRowsFor(Boundary([], call, input), i) <==>
      if input.skipped then NamedTwice(call.deferred, i)
      else
        && !input.entryDead && i < |input.edges| && input.edges[i].scanDead && NamedBy(call.deferred, i)
        && forall j: nat :: j < i ==> !DeadAtEdge(input, j)
  {
    RowCountMeans(Boundary([], call, input), i);
    if input.skipped {
      RowCountRows([], call.deferred, Cancelled, i);
      NameCountMeans(call.deferred, i);
    } else {
      RowCountBoundary(call, input, i);
      DeadFromIs(input, i);
      if i > 0 { DeadFromIs(input, i - 1); }
      CarrierNames(call.deferred, i);
      assert i < |input.edges| && input.edges[i].scanDead ==> DeadAtEdge(input, i);
    }
  }

  /** The case: a context found dead right behind the scan of the edge whose trigger an
      earlier boundary carried here. */
  lemma DyingScanWritesTwice(carried: Trigger)
    ensures var input := Input(false, false, [EdgeRun(None, true, None, false)], false, false, false, true);
      TwoRowsFor(Boundary([], RunCall(1, [Claim(0, carried)]), input), 0)
  {
    var call, input := RunCall(1, [Claim(0, carried)]),
      Input(false, false, [EdgeRun(None, true, None, false)], false, false, false, true);
    assert CarrierOf(call.deferred) == CarrierOf([])[0 := carried] by { assert call.deferred[..0] == []; }
    RowWrittenTwiceIff(call, input, 0);
  }

  lemma OutcomeUnlessSilent(call: RunCall, input: Input, i: nat)
    requires !input.skipped && !input.entryDead && i < |input.edges|
    ensures FinalOutcome(call, input, i).Some? <==> i >= DeadFrom(input.edges, 0) || !FateAt(call, input, i).Silent?
  {
    DeadFromIs(input, i);
    EdgeCases(call, input, i);
  }

  lemma RowCountScanned(call: RunCall, input: Input, i: nat)
    requires !input.skipped && !input.entryDead
    ensures var n, d := |input.edges|, DeadFrom(input.edges, 0);
      RowCount(Boundary([], call, input), i) ==
        (if d <= i < n || (i < d && !FateAt(call, input, i).Silent?) then 1 else 0)
        + if i == d < n && input.edges[d].scanDead && d in CarrierOf(call.deferred) then 1 else 0
  {
    var n, d := |input.edges|, DeadFrom(input.edges, 0);
    RowCountVerdicts(call, input, d, i);
    EachNamedOnce(call, input, d, i);
    if d < n {
      RowCountDeadTail(Verdicts([], call, input, d), call, input, d, i);
    } else {
      RowCountDecided(Verdicts([], call, input, n), call, input, Contenders(call, input, n), Waiting(call, input, n),
                      i);
    }
  }

  /** Past the entry guard an edge's row is written once if the outcome table has one
      for it, and once more for the edge a dying scan still carries a trigger for. */
  lemma RowCountBoundary(call: RunCall, input: Input, i: nat)
    requires !input.skipped
    ensures var n, d := |input.edges|, DeadFrom(input.edges, 0);
      var again := !input.entryDead && i == d < n && input.edges[d].scanDead && d in CarrierOf(call.deferred);
      RowCount(Boundary([], call, input), i) ==
        (if i < n && FinalOutcome(call, input, i).Some? then 1 else 0) + if again then 1 else 0
  {
    if input.entryDead {
      var rows := Unreached(CarrierOf(call.deferred), 0, |input.edges|);
      assert [] + rows == rows;
      RowCountUnreached(CarrierOf(call.deferred), 0, |input.edges|, i);
    } else {
      RowCountScanned(call, input, i);
      if i < |input.edges| { OutcomeUnlessSilent(call, input, i); }
    }
  }

  // ------------------------------------------------------------- what rows say

  /** `log[k]` is the first row of edge `i`, the one the table stores. */
  predicate FirstRow(log: seq<Event>, k: nat, i: nat) {
    k < |log| && RowOf(log[k], i) && forall j :: 0 <= j < k ==> !RowOf(log[j], i)
  }

  lemma {:induction false} VerdictRowAt(log: seq<Event>, call: RunCall, input: Input, n: nat, i: nat) returns (k: nat)
    requires i < n <= |input.edges| && FateAt(call, input, i).Verdict? && forall j :: 0 <= j < |log| ==>
      !RowOf(log[j], i)
    ensures var fate, out := FateAt(call, input, i), Verdicts(log, call, input, n);
      FirstRow(out, k, i) && out[k] == Row(i, Some(fate.trigger), fate.outcome)
  {
    if i < n - 1 {
      k := VerdictRowAt(log, call, input, n - 1, i);
    } else {
      k := |Verdicts(log, call, input, i)|;
      NoRowYet(log, call, input, i, i);
    }
  }

  lemma {:induction false} NoRowYet(log: seq<Event>, call: RunCall, input: Input, n: nat, i: nat)
    requires n <= i && n <= |input.edges| && forall j :: 0 <= j < |log| ==> !RowOf(log[j], i)
    ensures forall j :: 0 <= j < |Verdicts(log, call, input, n)| ==> !RowOf(Verdicts(log, call, input, n)[j], i)
  {
    if n > 0 { NoRowYet(log, call, input, n - 1, i); }
  }

  lemma {:induction false} LandedExtends(log: seq<Event>, winners: seq<Claim>)
    ensures log <= Landed(log, winners)
  {
    if winners != [] { LandedExtends(log, winners[..|winners| - 1]); }
  }

  lemma NoteExtends(log: seq<Event>, rows: seq<Event>, claims: seq<Claim>, hasAssistant: bool)
    requires log <= rows
    ensures log <= Note(rows, claims, hasAssistant)
  {
  }

  lemma DecidedExtends(log: seq<Event>, call: RunCall, input: Input, cs: seq<Claim>, ws: seq<Claim>)
    ensures log <= Decided(log, call, input, cs, ws)
  {
    if cs == [] {
      NoteExtends(log, log + Rows(ws, Cancelled), ws, input.hasAssistant);
    } else if call.attempts >= MAX_REPAIR_ATTEMPTS {
      NoteExtends(log, log + Rows(cs, Exhausted) + Rows(ws, Exhausted), cs + ws, input.hasAssistant);
    } else if Only(Winners(cs), HasPrompt) == [] {
      NoteExtends(log, log + Rows(Winners(cs), Cleared) + Rows(Losers(cs), Deferred) + Rows(ws, Cancelled), ws + cs,
                  input.hasAssistant);
    } else if input.lateDead || input.lockDead {
      NoteExtends(log, log + Rows(cs, Cancelled) + Rows(ws, Cancelled), ws + Only(Losers(cs), Bound),
                  input.hasAssistant);
    } else {
      var queued := log + [Enqueued(RetryOf(call, cs, ws))];
      LandedExtends(queued, Winners(cs));
      NoteExtends(log, Landed(queued, Winners(cs)) + Rows(Losers(cs), Deferred) + Rows(ws, Deferred),
                  Only(Losers(cs), Bound), input.hasAssistant);
    }
  }

  lemma EvaluatedExtends(log: seq<Event>, call: RunCall, input: Input, d: nat)
    requires d <= |input.edges|
    ensures log <= Evaluated(log, call, input, d)
  {
    if d == |input.edges| { DecidedExtends(log, call, input, Contenders(call, input, d), Waiting(call, input, d)); }
  }

  lemma FirstStays(log: seq<Event>, grown: seq<Event>, k: nat, i: nat)
    requires log <= grown && FirstRow(log, k, i)
    ensures FirstRow(grown, k, i) && grown[k] == log[k]
  {
  }

  /** The row of an edge that neither contends nor waits tells what its scan ended with: a
      stopped scan its own trigger, any other what resolving made of it, and an empty scan
      the trigger carried for the edge, last named. */
  lemma VerdictRowTells(call: RunCall, input: Input, i: nat) returns (k: nat)
    requires !input.skipped && !input.entryDead && i < |input.edges| && !DeadBy(input, i)
    requires !ContendsAt(call, input, i) && !WaitsAt(call, input, i)
    requires input.edges[i].scan.Some? || NamedBy(call.deferred, i)
    ensures var log, e := Boundary([], call, input), input.edges[i];
      && FirstRow(log, k, i) && Some(log[k].outcome) == FinalOutcome(call, input, i)
      && log[k].trigger.Some?
      && (if e.scan.None? then CarriedFor(call.deferred, i, log[k].trigger.value)
          else log[k].trigger.value == if IsStopped(e) then e.scan.value else TriggerOf(e))
  {
    var d := DeadFrom(input.edges, 0);
    DeadFromIs(input, i);
    EdgeCases(call, input, i);
    k := VerdictRowAt([], call, input, d, i);
    EvaluatedExtends(Verdicts([], call, input, d), call, input, d);
    FirstStays(Verdicts([], call, input, d), Boundary([], call, input), k, i);
  }

  /** The row of the edge at which the context is found dead tells what was at hand: what
      the scan returned, or behind a resolve what that made of it. */
  lemma DyingRowTells(call: RunCall, input: Input, i: nat) returns (k: nat)
    requires !input.skipped && !input.entryDead && DeadAtEdge(input, i) && forall j: nat :: j < i ==>
      !DeadAtEdge(input, j)
    ensures var log, e := Boundary([], call, input), input.edges[i];
      FirstRow(log, k, i) && log[k] == Row(i, if e.scanDead then e.scan else e.resolved, Cancelled)
  {
    DeadFromIs(input, i);
    if i > 0 { DeadFromIs(input, i - 1); }
    var before := Verdicts([], call, input, i);
    NoRowYet([], call, input, i, i);
    k := |before|;
  }

  // --------------------------------------------- the note on the final message

  predicate ContendsWith(call: RunCall, input: Input, c: Claim) {
    ContendsAt(call, input, c.edge) && TriggerAt(call, input, c.edge) == c.trigger
  }

  predicate WaitsWith(call: RunCall, input: Input, c: Claim) {
    WaitsAt(call, input, c.edge) && CarriedFor(call.deferred, c.edge, c.trigger)
  }

  /** The claims a boundary's note may speak for, which die with this run: everything
      while no retry could be had. Once one could, its winners and its durable losers
      are left out, whether it was enqueued or given up late; what waited is left out
      only when it was enqueued. */
  predicate Notable(call: RunCall, input: Input, c: Claim) {
    && !input.skipped && !input.entryDead && !DeadSomewhere(input)
    && var contends, waits := ContendsWith(call, input, c), WaitsWith(call, input, c);
    var boundLoser := contends && !WinsAt(call, input, c.edge) && !c.trigger.sessionState;
    if !SomeContends(call, input) then waits
    else if call.attempts >= MAX_REPAIR_ATTEMPTS || !SomePrompts(call, input) then contends || waits
    else if input.lateDead || input.lockDead then waits || boundLoser
    else boundLoser
  }

  /** The final message's note holds this claim's report. */
  predicate ReportedIn(log: seq<Event>, c: Claim) {
    exists k :: 0 <= k < |log| && log[k].Noted? && c in log[k].reports
  }

  predicate Unnoted(log: seq<Event>) { forall k :: 0 <= k < |log| ==> !log[k].Noted? }

  lemma {:induction false} UnnotedVerdicts(call: RunCall, input: Input, k: nat)
    requires k <= |input.edges|
    ensures Unnoted(Verdicts([], call, input, k))
  {
    if k > 0 { UnnotedVerdicts(call, input, k - 1); }
  }

  lemma {:induction false} UnnotedLanded(log: seq<Event>, winners: seq<Claim>)
    requires Unnoted(log)
    ensures Unnoted(Landed(log, winners))
  {
    if winners != [] { UnnotedLanded(log, winners[..|winners| - 1]); }
  }

  /** The claims the terminal note of a full scan is written for. */
  function NoteClaims(call: RunCall, input: Input, cs: seq<Claim>, ws: seq<Claim>): seq<Claim> {
    if cs == [] then ws
    else if call.attempts >= MAX_REPAIR_ATTEMPTS then cs + ws
    else if Only(Winners(cs), HasPrompt) == [] then ws + cs
    else if input.lateDead || input.lockDead then ws + Only(Losers(cs), Bound)
    else Only(Losers(cs), Bound)
  }

  lemma NoteIsLast(log: seq<Event>, call: RunCall, input: Input, cs: seq<Claim>, ws: seq<Claim>)
    returns (rows: seq<Event>)
    requires Unnoted(log)
    ensures
      && Unnoted(rows)
      && Decided(log, call, input, cs, ws) == Note(rows, NoteClaims(call, input, cs, ws), input.hasAssistant)
  {
    if cs == [] {
      rows := log + Rows(ws, Cancelled);
    } else if call.attempts >= MAX_REPAIR_ATTEMPTS {
      rows := UnnotedTwo(log, cs, Exhausted, ws, Exhausted);
    } else if Only(Winners(cs), HasPrompt) == [] {
      rows := UnnotedTwo(log + Rows(Winners(cs), Cleared), Losers(cs), Deferred, ws, Cancelled);
    } else if input.lateDead || input.lockDead {
      rows := UnnotedTwo(log, cs, Cancelled, ws, Cancelled);
    } else {
      var landed := Landed(log + [Enqueued(RetryOf(call, cs, ws))], Winners(cs));
      UnnotedLanded(log + [Enqueued(RetryOf(call, cs, ws))], Winners(cs));
      rows := UnnotedTwo(landed, Losers(cs), Deferred, ws, Deferred);
    }
  }

  lemma UnnotedTwo(log: seq<Event>, a: seq<Claim>, oa: Outcome, b: seq<Claim>, ob: Outcome) returns (rows: seq<Event>)
    requires Unnoted(log)
    ensures rows == log + Rows(a, oa) + Rows(b, ob) && Unnoted(rows)
  {
    rows := log + Rows(a, oa) + Rows(b, ob);
  }

  lemma NoteClaimsMember(call: RunCall, input: Input, c: Claim)
    requires !input.skipped && !input.entryDead && DeadFrom(input.edges, 0) == |input.edges|
    ensures var n := |input.edges|;
      c in NoteClaims(call, input, Contenders(call, input, n), Waiting(call, input, n)) <==> Notable(call, input, c)
  {
    var n := |input.edges|;
    DeadFromIs(input, 0);
    PromptedIff(call, input);
    ContendersMember(call, input, n, c);
    WinnersMember(call, input, c);
    OnlyMember(Losers(Contenders(call, input, n)), Bound, c);
  }

  lemma NoteHolds(rows: seq<Event>, claims: seq<Claim>, hasAssistant: bool, c: Claim)
    requires Unnoted(rows)
    ensures NotedIn(Note(rows, claims, hasAssistant), c) <==> hasAssistant && c in claims && c.trigger.note
    ensures ReportedIn(Note(rows, claims, hasAssistant), c) <==>
      hasAssistant && c in claims && c.trigger.report && exists d :: d in claims && d.trigger.note
  {
    var log, noted := Note(rows, claims, hasAssistant), Only(claims, HasNote);
    OnlyMember(claims, HasNote, c);
    OnlyMember(claims, HasReport, c);
    if noted != [] { OnlyMember(claims, HasNote, noted[0]); }
    if d :| d in claims && d.trigger.note { OnlyMember(claims, HasNote, d); }
    if hasAssistant && noted != [] { assert log[|rows|] == Noted(noted, Only(claims, HasReport)); }
  }

  /** What the final message tells of a boundary, on every path: a claim's note line
      is there exactly when the claim dies with this run and there is a message to
      note it on; its report only if, besides, some claim that dies with the run
      renders a note line. A claim that renders a line of its own, as every edge with a
      report does, loses neither. */
  lemma ReportsNeedANoteLine(call: RunCall, input: Input, c: Claim)
    ensures NotedIn(Boundary([], call, input), c) <==> Notable(call, input, c) && c.trigger.note && input.hasAssistant
    ensures ReportedIn(Boundary([], call, input), c) <==>
      && Notable(call, input, c) && c.trigger.report && input.hasAssistant
      && exists d :: Notable(call, input, d) && d.trigger.note
    ensures c.trigger.note && c.trigger.report ==>
      (ReportedIn(Boundary([], call, input), c) <==> NotedIn(Boundary([], call, input), c))
  {
    var n, d := |input.edges|, DeadFrom(input.edges, 0);
    DeadFromIs(input, 0);
    if !input.skipped && !input.entryDead {
      UnnotedVerdicts(call, input, d);
      if d == n {
        var cs, ws := Contenders(call, input, n), Waiting(call, input, n);
        var rows := NoteIsLast(Verdicts([], call, input, n), call, input, cs, ws);
        forall x: Claim
          ensures x in NoteClaims(call, input, cs, ws) <==> Notable(call, input, x)
        {
          NoteClaimsMember(call, input, x);
        }
        NoteHolds(rows, NoteClaims(call, input, cs, ws), input.hasAssistant, c);
      } else {
        assert Unnoted(Boundary([], call, input));
      }
    }
  }
}
