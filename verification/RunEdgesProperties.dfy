/** What a run boundary promises: one outcome per edge, rows that mean what they
    say, and firing triggers that do not get lost. */
module RunEdgesProperties {
  import opened Transcript
  import opened RunEdges

  // ------------------------------------------------- an independent outcome table

  /** The trigger a scan ended with: what resolving made of it, if it was resolved. */
  function TriggerOf(e: EdgeRun): Trigger
    requires e.scan.Some?
  {
    match e.resolved
    case Some(t) => t
    case None => e.scan.value
  }

  predicate IsStopped(e: EdgeRun) { e.scan.Some? && e.scan.value.hint in {HintGated, HintSuppressed} }

  /** The scan of edge `i` found something, no hint stopped it, and it fires. */
  predicate ContendsAt(call: RunCall, input: Input, i: nat) {
    i < |input.edges| && input.edges[i].scan.Some? && !IsStopped(input.edges[i]) && TriggerOf(input.edges[i]).fire
  }

  function TriggerAt(call: RunCall, input: Input, i: nat): Trigger
    requires ContendsAt(call, input, i)
  {
    TriggerOf(input.edges[i])
  }

  /** The carrier names the edge. */
  predicate NamedBy(deferred: seq<Claim>, i: nat) { exists k :: 0 <= k < |deferred| && deferred[k].edge == i }

  /** The scan of edge `i` found nothing, but a trigger was carried for it and the run's
      writes are not in yet. */
  predicate WaitsAt(call: RunCall, input: Input, i: nat) {
    i < |input.edges| && input.edges[i].scan.None? && NamedBy(call.deferred, i) && !input.clean
  }

  /** The context is found dead at edge `j`: behind its scan, or behind a resolve that a
      stopped scan never reaches. */
  predicate DeadAtEdge(input: Input, j: nat) {
    && j < |input.edges|
    && var e := input.edges[j];
    e.scanDead || (e.resolveDead && e.scan.Some? && !IsStopped(e) && e.resolved.Some?)
  }

  /** It is found dead at edge `i` or before it. */
  predicate DeadBy(input: Input, i: nat) { exists j: nat :: j <= i && DeadAtEdge(input, j) }

  predicate DeadSomewhere(input: Input) { exists j: nat :: j < |input.edges| && DeadAtEdge(input, j) }

  predicate EscalatesAt(call: RunCall, input: Input, i: nat) {
    ContendsAt(call, input, i) && TriggerAt(call, input, i).escalates
  }

  /** Edge `i` gets the prompt slot: it is the first that escalates, or none does
      and all contenders share it. */
  predicate WinsAt(call: RunCall, input: Input, i: nat) {
    && ContendsAt(call, input, i)
    && (forall j :: 0 <= j < |input.edges| && EscalatesAt(call, input, j) ==> i <= j && EscalatesAt(call, input, i))
  }

  predicate PromptsAt(call: RunCall, input: Input, i: nat) {
    WinsAt(call, input, i) && TriggerAt(call, input, i).prompt
  }

  predicate SomeContends(call: RunCall, input: Input) {
    exists i :: 0 <= i < |input.edges| && ContendsAt(call, input, i)
  }

  predicate SomePrompts(call: RunCall, input: Input) {
    exists i :: 0 <= i < |input.edges| && PromptsAt(call, input, i)
  }

  /** The row edge `i` gets at a boundary past the entry guard, if any. */
  function FinalOutcome(call: RunCall, input: Input, i: nat): Option<Outcome>
    requires i < |input.edges|
  {
    var e := input.edges[i];
    if input.entryDead || DeadBy(input, i) then Some(Cancelled)
    else if e.scan.None? && !NamedBy(call.deferred, i) then None
    else if e.scan.None? && input.clean then Some(Cleared)
    else if e.scan.None? then Some(WaitingOutcome(call, input))
    else if e.scan.value.hint == HintGated then Some(Gated)
    else if e.scan.value.hint == HintSuppressed then Some(Suppressed)
    else if TriggerOf(e).fire then Some(ContendingOutcome(call, input, i))
    else if TriggerOf(e).hint == HintDegraded then Some(Degraded)
    else Some(Cleared)
  }

  function ContendingOutcome(call: RunCall, input: Input, i: nat): Outcome
    requires ContendsAt(call, input, i)
  {
    if DeadSomewhere(input) then Cancelled
    else if call.attempts >= MAX_REPAIR_ATTEMPTS then Exhausted
    else if SomePrompts(call, input) && (input.lateDead || input.lockDead) then Cancelled
    else if !WinsAt(call, input, i) then Deferred
    else if TriggerAt(call, input, i).prompt then Fired else Cleared
  }

  function WaitingOutcome(call: RunCall, input: Input): Outcome {
    if DeadSomewhere(input) || !SomeContends(call, input) then Cancelled
    else if call.attempts >= MAX_REPAIR_ATTEMPTS then Exhausted
    else if !SomePrompts(call, input) || input.lateDead || input.lockDead then Cancelled
    else Deferred
  }

  // ------------------------------------- what the code makes of one edge's inputs

  lemma {:induction false} CarrierNames(deferred: seq<Claim>, i: nat)
    ensures i in CarrierOf(deferred) <==> NamedBy(deferred, i)
  {
    if deferred != [] {
      var front := deferred[..|deferred| - 1];
      CarrierNames(front, i);
      if NamedBy(front, i) {
        var k :| 0 <= k < |front| && front[k].edge == i;
        assert deferred[k].edge == i;
      }
      if NamedBy(deferred, i) && deferred[|deferred| - 1].edge != i {
        var k :| 0 <= k < |deferred| && deferred[k].edge == i;
        assert front[k].edge == i;
      }
    }
  }

  /** Of the triggers the carrier holds for the edge, `t` is the last. */
  predicate CarriedFor(deferred: seq<Claim>, i: nat, t: Trigger) {
    exists k :: 0 <= k < |deferred| && deferred[k] == Claim(i, t) &&
      forall j :: k < j < |deferred| ==> deferred[j].edge != i
  }

  lemma {:induction false} CarrierHoldsLast(deferred: seq<Claim>, i: nat, t: Trigger)
    ensures i in CarrierOf(deferred) && CarrierOf(deferred)[i] == t <==> CarriedFor(deferred, i, t)
  {
    if deferred != [] {
      var front, last := deferred[..|deferred| - 1], deferred[|deferred| - 1];
      CarrierHoldsLast(front, i, t);
      if last == Claim(i, t) { assert deferred[|front|] == last; }
      if last.edge != i && CarriedFor(front, i, t) {
        var k :| 0 <= k < |front| && front[k] == Claim(i, t) && forall j :: k < j < |front| ==> front[j].edge != i;
        assert deferred[k] == front[k];
        forall j | k < j < |deferred| ensures deferred[j].edge != i {
          if j < |front| { assert deferred[j] == front[j]; }
        }
      }
      if last.edge != i && CarriedFor(deferred, i, t) {
        var k :| 0 <= k < |deferred| && deferred[k] == Claim(i, t) &&
          forall j :: k < j < |deferred| ==> deferred[j].edge != i;
        assert front[k] == deferred[k];
      }
    }
  }

  /** What the loop makes of a live edge, case by case from what it is given: it contends
      exactly for a scan no hint stopped whose trigger fires once resolved; it waits
      exactly for an empty scan with a trigger carried for it at a boundary that is not
      clean; it is passed in silence exactly for an empty scan with none; and every other
      edge gets its row at once. */
  lemma EdgeCases(call: RunCall, input: Input, i: nat)
    requires i < |input.edges|
    ensures var e, fate := input.edges[i], FateAt(call, input, i);
      && (fate.Contends? <==> ContendsAt(call, input, i))
      && (fate.Contends? ==> fate.trigger == TriggerAt(call, input, i))
      && (fate.Waits? <==> WaitsAt(call, input, i))
      && (fate.Silent? <==> e.scan.None? && !NamedBy(call.deferred, i))
      && (fate.Verdict? ==>
            fate.outcome ==
              if e.scan.None? then Cleared
              else if e.scan.value.hint == HintGated then Gated
              else if e.scan.value.hint == HintSuppressed then Suppressed
              else if TriggerOf(e).hint == HintDegraded then Degraded
              else Cleared)
      && (fate.Verdict? && e.scan.Some? ==> fate.trigger == if IsStopped(e) then e.scan.value else TriggerOf(e))
      && (fate.Waits? || (fate.Verdict? && e.scan.None?) ==> CarriedFor(call.deferred, i, fate.trigger))
  {
    CarrierNames(call.deferred, i);
    if i in CarrierOf(call.deferred) { CarrierHoldsLast(call.deferred, i, CarrierOf(call.deferred)[i]); }
  }

  /** Which claims wait, from the inputs. */
  lemma WaitingCases(call: RunCall, input: Input, c: Claim)
    ensures c.edge < |input.edges| && FateAt(call, input, c.edge) == Waits(c.trigger) <==>
      WaitsAt(call, input, c.edge) && CarriedFor(call.deferred, c.edge, c.trigger)
  {
    if c.edge < |input.edges| {
      EdgeCases(call, input, c.edge);
      CarrierHoldsLast(call.deferred, c.edge, c.trigger);
    }
  }

  lemma DyingIsDead(input: Input, j: nat)
    requires j < |input.edges|
    ensures Dies(input.edges[j]) <==> DeadAtEdge(input, j)
  {
  }

  /** The scan loop stops at the first edge that finds the context dead. */
  lemma DeadFromIs(input: Input, i: nat)
    ensures i < |input.edges| ==> (i >= DeadFrom(input.edges, 0) <==> DeadBy(input, i))
    ensures DeadFrom(input.edges, 0) < |input.edges| <==> DeadSomewhere(input)
  {
    var d := DeadFrom(input.edges, 0);
    if d < |input.edges| { DyingIsDead(input, d); }
    if j: nat :| j <= i && DeadAtEdge(input, j) { DyingIsDead(input, j); }
    if j: nat :| j < |input.edges| && DeadAtEdge(input, j) { DyingIsDead(input, j); }
  }

  // --------------------------------------------------------------- membership

  predicate IsRow(e: Event, i: nat, o: Outcome) { e.Row? && e.edge == i && e.outcome == o }

  predicate RowIn(log: seq<Event>, i: nat, o: Outcome) {
    exists k :: 0 <= k < |log| && IsRow(log[k], i, o)
  }

  predicate ClaimIn(claims: seq<Claim>, i: nat) {
    exists k :: 0 <= k < |claims| && claims[k].edge == i
  }

  lemma RowInConcat(a: seq<Event>, b: seq<Event>, i: nat, o: Outcome)
    ensures RowIn(a + b, i, o) <==> RowIn(a, i, o) || RowIn(b, i, o)
  {
    if RowIn(a, i, o) {
      var k :| 0 <= k < |a| && IsRow(a[k], i, o);
      assert IsRow((a + b)[k], i, o);
    }
    if RowIn(b, i, o) {
      var k :| 0 <= k < |b| && IsRow(b[k], i, o);
      assert IsRow((a + b)[|a| + k], i, o);
    }
  }

  lemma RowInOne(e: Event, i: nat, o: Outcome)
    ensures RowIn([e], i, o) <==> IsRow(e, i, o)
  {
    if IsRow(e, i, o) { assert IsRow([e][0], i, o); }
  }

  lemma RowInRows(claims: seq<Claim>, outcome: Outcome, i: nat, o: Outcome)
    ensures RowIn(Rows(claims, outcome), i, o) <==> o == outcome && ClaimIn(claims, i)
  {
    if o == outcome && ClaimIn(claims, i) {
      var k :| 0 <= k < |claims| && claims[k].edge == i;
      assert IsRow(Rows(claims, outcome)[k], i, o);
    }
  }

  lemma RowInUnreached(carried: map<nat, Trigger>, k: nat, n: nat, i: nat, o: Outcome)
    requires k <= n
    ensures RowIn(Unreached(carried, k, n), i, o) <==> o == Cancelled && k <= i < n
  {
    if o == Cancelled && k <= i < n { assert IsRow(Unreached(carried, k, n)[i - k], i, o); }
  }

  lemma {:induction false} RowInVerdicts(log: seq<Event>, call: RunCall, input: Input, k: nat, i: nat, o: Outcome)
    requires k <= |input.edges|
    ensures RowIn(Verdicts(log, call, input, k), i, o) <==>
      RowIn(log, i, o) || (i < k && FateAt(call, input, i).Verdict? && FateAt(call, input, i).outcome == o)
  {
    if k > 0 {
      var fate, before := FateAt(call, input, k - 1), Verdicts(log, call, input, k - 1);
      RowInVerdicts(log, call, input, k - 1, i, o);
      if fate.Verdict? {
        var e := Row(k - 1, Some(fate.trigger), fate.outcome);
        RowInConcat(before, [e], i, o);
        RowInOne(e, i, o);
      }
    }
  }

  /** The contenders and the waiting claims of the first edges, from the inputs. */
  lemma {:induction false} ContendersMember(call: RunCall, input: Input, k: nat, c: Claim)
    requires k <= |input.edges|
    ensures c in Contenders(call, input, k) <==>
      c.edge < k && ContendsAt(call, input, c.edge) && TriggerAt(call, input, c.edge) == c.trigger
    ensures c in Waiting(call, input, k) <==>
      c.edge < k && WaitsAt(call, input, c.edge) && CarriedFor(call.deferred, c.edge, c.trigger)
  {
    if k > 0 {
      ContendersMember(call, input, k - 1, c);
      EdgeCases(call, input, k - 1);
      WaitingCases(call, input, c);
    }
  }

  lemma ContendersIn(call: RunCall, input: Input, k: nat, i: nat)
    requires k <= |input.edges|
    ensures ClaimIn(Contenders(call, input, k), i) <==> i < k && ContendsAt(call, input, i)
    ensures ClaimIn(Waiting(call, input, k), i) <==> i < k && WaitsAt(call, input, i)
  {
    var cs, ws := Contenders(call, input, k), Waiting(call, input, k);
    ClaimInMember(cs, i);
    ClaimInMember(ws, i);
    if c :| c in cs && c.edge == i { ContendersMember(call, input, k, c); }
    if c :| c in ws && c.edge == i { ContendersMember(call, input, k, c); }
    if i < k && ContendsAt(call, input, i) { ContendersMember(call, input, k, Claim(i, TriggerAt(call, input, i))); }
    if i < k && WaitsAt(call, input, i) {
      EdgeCases(call, input, i);
      ContendersMember(call, input, k, Claim(i, FateAt(call, input, i).trigger));
    }
  }

  lemma ClaimInMember(claims: seq<Claim>, i: nat)
    ensures ClaimIn(claims, i) <==> exists c :: c in claims && c.edge == i
  {
    if exists c :: c in claims && c.edge == i {
      var c :| c in claims && c.edge == i;
      var k :| 0 <= k < |claims| && claims[k] == c;
      assert claims[k].edge == i;
    }
  }

  // ---------------------------------------------------------- winners and losers

  /** Edges ascend along a list of claims. */
  predicate Ascends(claims: seq<Claim>) {
    forall j, k :: 0 <= j < k < |claims| ==> claims[j].edge < claims[k].edge
  }

  lemma {:induction false} ContendersAscend(call: RunCall, input: Input, k: nat)
    requires k <= |input.edges|
    ensures Ascends(Contenders(call, input, k)) && Ascends(Waiting(call, input, k))
  {
    if k > 0 {
      ContendersAscend(call, input, k - 1);
      forall c | c in Contenders(call, input, k - 1) ensures c.edge < k - 1 { ContendersMember(call, input, k - 1, c); }
      forall c | c in Waiting(call, input, k - 1) ensures c.edge < k - 1 { ContendersMember(call, input, k - 1, c); }
    }
  }

  /** The slot goes to the first escalating contender, or to all of them. */
  lemma WinnersMember(call: RunCall, input: Input, c: Claim)
    ensures var cs := Contenders(call, input, |input.edges|);
      && (c in Winners(cs) <==> WinsAt(call, input, c.edge) && TriggerAt(call, input, c.edge) == c.trigger)
      && (c in Losers(cs) <==>
           ContendsAt(call, input, c.edge) && !WinsAt(call, input, c.edge) &&
             TriggerAt(call, input, c.edge) == c.trigger)
  {
    var n := |input.edges|;
    var cs := Contenders(call, input, n);
    var w := FirstEscalation(cs, 0);
    ContendersAscend(call, input, n);
    ContendersMember(call, input, n, c);
    if w < |cs| {
      SlotTaken(call, input, w);
      var k := IndexOf(cs, c);
      if c in cs && k != w {
        assert c in cs[..w] + cs[w + 1..] by { assert if k < w then cs[..w][k] == c else cs[w + 1..][k - w - 1] == c; }
      }
      if c in cs[..w] + cs[w + 1..] { LeftOut(cs, w, c); }
    } else {
      forall j | 0 <= j < n ensures !EscalatesAt(call, input, j) { NoEscalation(call, input, j); }
    }
  }

  function IndexOf(claims: seq<Claim>, c: Claim): (k: nat)
    ensures c in claims ==> k < |claims| && claims[k] == c
  {
    if claims == [] then 0 else if claims[0] == c then 0 else 1 + IndexOf(claims[1..], c)
  }

  lemma LeftOut(cs: seq<Claim>, w: nat, c: Claim)
    requires w < |cs| && Ascends(cs) && c in cs[..w] + cs[w + 1..]
    ensures c in cs && c.edge != cs[w].edge
  {
    if c in cs[..w] {
      var k :| 0 <= k < w && cs[k] == c;
    } else {
      var k :| 0 <= k < |cs[w + 1..]| && cs[w + 1..][k] == c;
      assert cs[w + 1 + k] == c;
    }
  }

  /** With an escalating contender, it alone wins. */
  lemma SlotTaken(call: RunCall, input: Input, w: nat)
    requires var cs := Contenders(call, input, |input.edges|); w == FirstEscalation(cs, 0) < |cs|
    ensures var c := Contenders(call, input, |input.edges|)[w];
      && WinsAt(call, input, c.edge) && TriggerAt(call, input, c.edge) == c.trigger
      && forall i: nat :: WinsAt(call, input, i) ==> i == c.edge
  {
    var n := |input.edges|;
    var cs := Contenders(call, input, n);
    var c := cs[w];
    ContendersMember(call, input, n, c);
    ContendersAscend(call, input, n);
    assert EscalatesAt(call, input, c.edge);
    forall j | 0 <= j < n && EscalatesAt(call, input, j) ensures c.edge <= j {
      var other := Claim(j, TriggerAt(call, input, j));
      ContendersMember(call, input, n, other);
      var k := IndexOf(cs, other);
      assert k >= w;
    }
    forall i: nat | WinsAt(call, input, i) ensures i == c.edge {
      assert EscalatesAt(call, input, c.edge);
    }
  }

  lemma NoEscalation(call: RunCall, input: Input, j: nat)
    requires var cs := Contenders(call, input, |input.edges|); FirstEscalation(cs, 0) == |cs|
    requires j < |input.edges|
    ensures !EscalatesAt(call, input, j)
  {
    if ContendsAt(call, input, j) {
      var c := Claim(j, TriggerAt(call, input, j));
      ContendersMember(call, input, |input.edges|, c);
      NoneEscalates(Contenders(call, input, |input.edges|), c);
    }
  }

  lemma NoneEscalates(claims: seq<Claim>, c: Claim)
    requires FirstEscalation(claims, 0) == |claims| && c in claims
    ensures !c.trigger.escalates
  {
    var k := IndexOf(claims, c);
    assert claims[k] == c;
  }

  lemma {:induction false} OnlyMember(claims: seq<Claim>, t: Trait, c: Claim)
    ensures c in Only(claims, t) <==> c in claims && Has(c, t)
  {
    if claims != [] {
      assert claims == claims[..|claims| - 1] + [claims[|claims| - 1]];
      OnlyMember(claims[..|claims| - 1], t, c);
    }
  }

  // --------------------------------------------------------- one row per edge

  lemma WinnersIn(call: RunCall, input: Input, i: nat)
    ensures var cs := Contenders(call, input, |input.edges|);
      && (ClaimIn(Winners(cs), i) <==> WinsAt(call, input, i))
      && (ClaimIn(Losers(cs), i) <==> ContendsAt(call, input, i) && !WinsAt(call, input, i))
  {
    var cs := Contenders(call, input, |input.edges|);
    ClaimInMember(Winners(cs), i);
    ClaimInMember(Losers(cs), i);
    forall c: Claim
      ensures c in Winners(cs) <==> WinsAt(call, input, c.edge) && TriggerAt(call, input, c.edge) == c.trigger
    {
      WinnersMember(call, input, c);
    }
    forall c: Claim
      ensures c in Losers(cs) <==>
        ContendsAt(call, input, c.edge) && !WinsAt(call, input, c.edge) && TriggerAt(call, input, c.edge) == c.trigger
    {
      WinnersMember(call, input, c);
    }
    if ContendsAt(call, input, i) {
      var c := Claim(i, TriggerAt(call, input, i));
      assert c in Winners(cs) || c in Losers(cs);
    }
  }

  lemma PromptedIff(call: RunCall, input: Input)
    ensures Only(Winners(Contenders(call, input, |input.edges|)), HasPrompt) == [] <==> !SomePrompts(call, input)
    ensures Contenders(call, input, |input.edges|) == [] <==> !SomeContends(call, input)
  {
    var n := |input.edges|;
    var cs := Contenders(call, input, n);
    var prompted := Only(Winners(cs), HasPrompt);
    if prompted != [] {
      var c := prompted[0];
      OnlyMember(Winners(cs), HasPrompt, c);
      WinnersMember(call, input, c);
      assert PromptsAt(call, input, c.edge);
    }
    if SomePrompts(call, input) {
      var i :| 0 <= i < n && PromptsAt(call, input, i);
      var c := Claim(i, TriggerAt(call, input, i));
      WinnersMember(call, input, c);
      OnlyMember(Winners(cs), HasPrompt, c);
    }
    if cs != [] {
      ContendersMember(call, input, n, cs[0]);
      assert ContendsAt(call, input, cs[0].edge);
    }
    if SomeContends(call, input) {
      var i :| 0 <= i < n && ContendsAt(call, input, i);
      ContendersMember(call, input, n, Claim(i, TriggerAt(call, input, i)));
    }
  }

  /** Some claim of edge `i` does, or does not, render a prompt. */
  predicate ClaimWith(claims: seq<Claim>, i: nat, prompted: bool) {
    exists k :: 0 <= k < |claims| && claims[k].edge == i && claims[k].trigger.prompt == prompted
  }

  lemma {:induction false} RowInLanded(log: seq<Event>, winners: seq<Claim>, i: nat, o: Outcome)
    ensures RowIn(Landed(log, winners), i, o) <==>
      RowIn(log, i, o) || (o == Fired && ClaimWith(winners, i, true)) || (o == Cleared && ClaimWith(winners, i, false))
  {
    if winners != [] {
      var front, c := winners[..|winners| - 1], winners[|winners| - 1];
      RowInLanded(log, front, i, o);
      ClaimWithSnoc(front, c, i);
      assert front + [c] == winners;
      var before, row := Landed(log, front), Row(c.edge, Some(c.trigger), if c.trigger.prompt then Fired else Cleared);
      RowInConcat(before, [Committed(c)], i, o);
      RowInOne(Committed(c), i, o);
      RowInConcat(if c.trigger.prompt && c.trigger.commits then before + [Committed(c)] else before, [row], i, o);
      RowInOne(row, i, o);
    }
  }

  lemma ClaimWithSnoc(front: seq<Claim>, c: Claim, i: nat)
    ensures forall p :: ClaimWith(front + [c], i, p) <==>
      ClaimWith(front, i, p) || (c.edge == i && c.trigger.prompt == p)
  {
    forall p
      ensures ClaimWith(front + [c], i, p) <==> ClaimWith(front, i, p) || (c.edge == i && c.trigger.prompt == p)
    {
      var all := front + [c];
      if ClaimWith(front, i, p) {
        var k :| 0 <= k < |front| && front[k].edge == i && front[k].trigger.prompt == p;
        assert all[k].edge == i && all[k].trigger.prompt == p;
      }
      if c.edge == i && c.trigger.prompt == p { assert all[|front|].edge == i && all[|front|].trigger.prompt == p; }
    }
  }

  lemma WinnersWith(call: RunCall, input: Input, i: nat, p: bool)
    ensures ClaimWith(Winners(Contenders(call, input, |input.edges|)), i, p) <==>
      WinsAt(call, input, i) && TriggerAt(call, input, i).prompt == p
  {
    var ws := Winners(Contenders(call, input, |input.edges|));
    if ClaimWith(ws, i, p) {
      var k :| 0 <= k < |ws| && ws[k].edge == i && ws[k].trigger.prompt == p;
      WinnersMember(call, input, ws[k]);
    }
    if WinsAt(call, input, i) && TriggerAt(call, input, i).prompt == p {
      var c := Claim(i, TriggerAt(call, input, i));
      WinnersMember(call, input, c);
      var k :| 0 <= k < |ws| && ws[k] == c;
      assert ws[k].edge == i && ws[k].trigger.prompt == p;
    }
  }

  lemma RowInNote(log: seq<Event>, claims: seq<Claim>, hasAssistant: bool, i: nat, o: Outcome)
    ensures RowIn(Note(log, claims, hasAssistant), i, o) <==> RowIn(log, i, o)
  {
    var e := Noted(Only(claims, HasNote), Only(claims, HasReport));
    RowInConcat(log, [e], i, o);
    RowInOne(e, i, o);
  }

  lemma RowInPlus(log: seq<Event>, claims: seq<Claim>, outcome: Outcome, i: nat, o: Outcome)
    ensures RowIn(log + Rows(claims, outcome), i, o) <==> RowIn(log, i, o) || (o == outcome && ClaimIn(claims, i))
  {
    RowInConcat(log, Rows(claims, outcome), i, o);
    RowInRows(claims, outcome, i, o);
  }

  lemma RowInTail(log: seq<Event>, a: seq<Claim>, oa: Outcome, b: seq<Claim>, ob: Outcome, noted: seq<Claim>,
                  hasAssistant: bool,
                  i: nat, o: Outcome)
    ensures RowIn(Note(log + Rows(a, oa) + Rows(b, ob), noted, hasAssistant), i, o) <==>
      RowIn(log, i, o) || (o == oa && ClaimIn(a, i)) || (o == ob && ClaimIn(b, i))
  {
    RowInPlus(log, a, oa, i, o);
    RowInPlus(log + Rows(a, oa), b, ob, i, o);
    RowInNote(log + Rows(a, oa) + Rows(b, ob), noted, hasAssistant, i, o);
  }

  /** The rows `Decided` adds, edge by edge. */
  predicate DecidedRow(call: RunCall, input: Input, i: nat, o: Outcome) {
    var contends, waits := ContendsAt(call, input, i), WaitsAt(call, input, i);
    if !SomeContends(call, input) then waits && o == Cancelled
    else if call.attempts >= MAX_REPAIR_ATTEMPTS then (contends || waits) && o == Exhausted
    else if !SomePrompts(call, input) then
      || (WinsAt(call, input, i) && o == Cleared) || (contends && !WinsAt(call, input, i) && o == Deferred) ||
           (waits && o == Cancelled)
    else if input.lateDead || input.lockDead then (contends || waits) && o == Cancelled
    else
      || (WinsAt(call, input, i) && o == if TriggerAt(call, input, i).prompt then Fired else Cleared)
      || (contends && !WinsAt(call, input, i) && o == Deferred) || (waits && o == Deferred)
  }

  lemma RowInEnqueued(log: seq<Event>, call: RunCall, input: Input, i: nat, o: Outcome)
    ensures var n := |input.edges|;
      var cs, ws := Contenders(call, input, n), Waiting(call, input, n);
      RowIn(Landed(log + [Enqueued(RetryOf(call, cs, ws))], Winners(cs)), i, o) <==>
        RowIn(log, i, o) || (WinsAt(call, input, i) && o == if TriggerAt(call, input, i).prompt then Fired else Cleared)
  {
    var n := |input.edges|;
    var cs, ws := Contenders(call, input, n), Waiting(call, input, n);
    var e := Enqueued(RetryOf(call, cs, ws));
    RowInConcat(log, [e], i, o);
    RowInOne(e, i, o);
    RowInLanded(log + [e], Winners(cs), i, o);
    WinnersWith(call, input, i, true);
    WinnersWith(call, input, i, false);
  }

  /** The boundaries that enqueue nothing. */
  lemma RowInUndecided(log: seq<Event>, call: RunCall, input: Input, i: nat, o: Outcome)
    requires var n := |input.edges|;
      DecidedRetry(call, input, Contenders(call, input, n), Waiting(call, input, n)).None?
    ensures var n := |input.edges|;
      RowIn(Decided(log, call, input, Contenders(call, input, n), Waiting(call, input, n)), i, o) <==>
        RowIn(log, i, o) || DecidedRow(call, input, i, o)
  {
    var n := |input.edges|;
    var cs, ws := Contenders(call, input, n), Waiting(call, input, n);
    PromptedIff(call, input);
    ContendersIn(call, input, n, i);
    WinnersIn(call, input, i);
    if cs == [] {
      RowInPlus(log, ws, Cancelled, i, o);
      RowInNote(log + Rows(ws, Cancelled), ws, input.hasAssistant, i, o);
    } else if call.attempts >= MAX_REPAIR_ATTEMPTS {
      RowInTail(log, cs, Exhausted, ws, Exhausted, cs + ws, input.hasAssistant, i, o);
    } else if Only(Winners(cs), HasPrompt) == [] {
      RowInPlus(log, Winners(cs), Cleared, i, o);
      RowInTail(log + Rows(Winners(cs), Cleared), Losers(cs), Deferred, ws, Cancelled, ws + cs, input.hasAssistant, i,
                o);
    } else {
      RowInTail(log, cs, Cancelled, ws, Cancelled, ws + Only(Losers(cs), Bound), input.hasAssistant, i, o);
    }
  }

  lemma RowInDecided(log: seq<Event>, call: RunCall, input: Input, i: nat, o: Outcome)
    ensures var n := |input.edges|;
      RowIn(Decided(log, call, input, Contenders(call, input, n), Waiting(call, input, n)), i, o) <==>
        RowIn(log, i, o) || DecidedRow(call, input, i, o)
  {
    var n := |input.edges|;
    var cs, ws := Contenders(call, input, n), Waiting(call, input, n);
    if DecidedRetry(call, input, cs, ws).None? {
      RowInUndecided(log, call, input, i, o);
    } else {
      PromptedIff(call, input);
      ContendersIn(call, input, n, i);
      WinnersIn(call, input, i);
      var l1 := Landed(log + [Enqueued(RetryOf(call, cs, ws))], Winners(cs));
      RowInEnqueued(log, call, input, i, o);
      RowInTail(l1, Losers(cs), Deferred, ws, Deferred, Only(Losers(cs), Bound), input.hasAssistant, i, o);
    }
  }

  lemma RowInDeadTail(log: seq<Event>, call: RunCall, input: Input, d: nat, i: nat, o: Outcome)
    requires d < |input.edges|
    ensures RowIn(DeadTail(log, call, input, d), i, o) <==>
      || RowIn(log, i, o)
      || (o == Cancelled && d <= i < |input.edges|)
      || (o == Cancelled && i < d && (ContendsAt(call, input, i) || WaitsAt(call, input, i)))
  {
    var n, e := |input.edges|, input.edges[d];
    var cs, ws := Contenders(call, input, d), Waiting(call, input, d);
    var carried := if e.scanDead then CarrierOf(call.deferred) else CarrierOf(call.deferred) - {d};
    var own := Row(d, if e.scanDead then e.scan else e.resolved, Cancelled);
    RowInConcat(log, [own], i, o);
    RowInOne(own, i, o);
    ContendersIn(call, input, d, i);
    var l1 := log + [own];
    RowInPlus(l1, cs, Cancelled, i, o);
    RowInPlus(l1 + Rows(cs, Cancelled), ws, Cancelled, i, o);
    var l3 := l1 + Rows(cs, Cancelled) + Rows(ws, Cancelled);
    RowInConcat(l3, Unreached(carried, d + 1, n), i, o);
    RowInUnreached(carried, d + 1, n, i, o);
    if d in carried {
      var last := Row(d, Some(carried[d]), Cancelled);
      RowInConcat(l3 + Unreached(carried, d + 1, n), [last], i, o);
      RowInOne(last, i, o);
    }
  }

  /** Past the entry guard, on every path, the rows written for an edge are exactly
      the outcome its table entry names: never two different ones, and none at all
      exactly when the table names none. */
  lemma OneOutcomePerEdge(call: RunCall, input: Input, i: nat, o: Outcome)
    requires !input.skipped && i < |input.edges|
    ensures RowIn(Boundary([], call, input), i, o) <==> FinalOutcome(call, input, i) == Some(o)
  {
    var n, d := |input.edges|, DeadFrom(input.edges, 0);
    DeadFromIs(input, i);
    EdgeCases(call, input, i);
    if input.entryDead {
      assert [] + Unreached(CarrierOf(call.deferred), 0, n) == Unreached(CarrierOf(call.deferred), 0, n);
      RowInUnreached(CarrierOf(call.deferred), 0, n, i, o);
    } else {
      RowInVerdicts([], call, input, d, i, o);
      if d < n {
        RowInDeadTail(Verdicts([], call, input, d), call, input, d, i, o);
      } else {
        RowInDecided(Verdicts([], call, input, n), call, input, i, o);
        TableAgrees(call, input, i, o);
      }
    }
  }

  lemma TableAgrees(call: RunCall, input: Input, i: nat, o: Outcome)
    requires !input.skipped && !input.entryDead && i < |input.edges| == DeadFrom(input.edges, 0)
    ensures FinalOutcome(call, input, i) == Some(o) <==>
      (FateAt(call, input, i).Verdict? && FateAt(call, input, i).outcome == o) || DecidedRow(call, input, i, o)
  {
    DeadFromIs(input, i);
    EdgeCases(call, input, i);
    if ContendsAt(call, input, i) { assert SomeContends(call, input); }
    if SomePrompts(call, input) {
      var j :| 0 <= j < |input.edges| && PromptsAt(call, input, j);
      assert ContendsAt(call, input, j);
    }
    if PromptsAt(call, input, i) { assert SomePrompts(call, input); }
  }

  /** In front of the entry guard exactly the edges the carrier names get a row, and it
      says cancelled. */
  lemma SkippedBoundaryCancels(call: RunCall, input: Input, i: nat, o: Outcome)
    requires input.skipped
    ensures RowIn(Boundary([], call, input), i, o) <==> o == Cancelled && NamedBy(call.deferred, i)
  {
    assert [] + Rows(call.deferred, Cancelled) == Rows(call.deferred, Cancelled);
    RowInRows(call.deferred, Cancelled, i, o);
    assert ClaimIn(call.deferred, i) <==> NamedBy(call.deferred, i);
  }

  /** No row keeps meaning clean: an edge has none exactly when it was scanned, its
      scan found nothing, and nothing was carried for it. */
  lemma NoRowMeansClean(call: RunCall, input: Input, i: nat)
    requires !input.skipped && i < |input.edges|
    ensures (forall o :: !RowIn(Boundary([], call, input), i, o)) <==>
      !input.entryDead && !DeadBy(input, i) && input.edges[i].scan.None? && !NamedBy(call.deferred, i)
  {
    forall o ensures RowIn(Boundary([], call, input), i, o) <==> FinalOutcome(call, input, i) == Some(o) {
      OneOutcomePerEdge(call, input, i, o);
    }
    DeadFromIs(input, i);
    CarrierNames(call.deferred, i);
    if FinalOutcome(call, input, i).Some? {
      assert RowIn(Boundary([], call, input), i, FinalOutcome(call, input, i).value);
    }
  }

  lemma {:induction false} StoredIsFirst(log: seq<Event>, i: nat, want: Option<Outcome>)
    requires forall o :: RowIn(log, i, o) ==> want == Some(o)
    ensures i in StoredRows(log) ==> want == Some(StoredRows(log)[i]) && RowIn(log, i, StoredRows(log)[i])
    ensures i !in StoredRows(log) ==> forall o :: !RowIn(log, i, o)
  {
    if log != [] {
      var front, e := log[..|log| - 1], log[|log| - 1];
      assert log == front + [e];
      forall o ensures RowIn(log, i, o) <==> RowIn(front, i, o) || IsRow(e, i, o) {
        RowInConcat(front, [e], i, o);
        RowInOne(e, i, o);
      }
      StoredIsFirst(front, i, want);
      if e.Row? && e.edge == i { assert IsRow(e, i, e.outcome); }
    }
  }

  /** The insert-or-ignore table ends up holding exactly the outcome table. */
  lemma StoredRowsAreTheTable(call: RunCall, input: Input, i: nat)
    requires !input.skipped && i < |input.edges|
    ensures var rows := StoredRows(Boundary([], call, input));
      FinalOutcome(call, input, i) == if i in rows then Some(rows[i]) else None
  {
    forall o ensures RowIn(Boundary([], call, input), i, o) <==> FinalOutcome(call, input, i) == Some(o) {
      OneOutcomePerEdge(call, input, i, o);
    }
    StoredIsFirst(Boundary([], call, input), i, FinalOutcome(call, input, i));
  }
}
