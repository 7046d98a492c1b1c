/** The run-boundary edge engine: when a run ends, every edge is scanned, firing
    edges compete for one retry prompt, and every evaluated edge leaves a row.
    Edges are abstract: what a scan finds, how resolving changes it, and whether it
    renders a prompt, a note or a report are inputs, and so is where the run's
    context is found dead. */
module RunEdges {
  import opened Transcript

  datatype Outcome = Fired | Cleared | Deferred | Exhausted | Cancelled | Gated | Suppressed | Degraded

  datatype Hint = NoHint | HintGated | HintSuppressed | HintDegraded

  datatype Trigger = Trigger(id: nat, fire: bool, hint: Hint, escalates: bool, sessionState: bool, commits: bool,
                             prompt: bool, note: bool, report: bool)

  /** A trigger of one edge: a contender, or one carried from an earlier boundary. */
  datatype Claim = Claim(edge: nat, trigger: Trigger)

  /** One edge at this boundary: what its scan returns, what its resolve (if it has
      one) makes of that, and whether the context is dead after either. */
  datatype EdgeRun = EdgeRun(scan: Option<Trigger>, scanDead: bool, resolved: Option<Trigger>, resolveDead: bool)

  datatype RunCall = RunCall(attempts: nat, deferred: seq<Claim>)

  /** `skipped` is the entry guard; `entryDead`, `lateDead` and `lockDead` are the
      remaining checks of the context, in program order. */
  datatype Input = Input(skipped: bool, entryDead: bool, edges: seq<EdgeRun>, clean: bool, lateDead: bool,
                         lockDead: bool,
                         hasAssistant: bool)

  datatype Retry = Retry(attempts: nat, prompts: seq<Claim>, deferred: seq<Claim>)

  datatype Event =
    | Row(edge: nat, trigger: Option<Trigger>, outcome: Outcome)
    | Enqueued(retry: Retry)
    | Committed(claim: Claim)
    | Noted(claims: seq<Claim>, reports: seq<Claim>)

  const MAX_REPAIR_ATTEMPTS := 2

  // ------------------------------------------------------------- the scan loop

  /** The carrier as a map; a later claim for the same edge replaces an earlier. */
  function CarrierOf(deferred: seq<Claim>): map<nat, Trigger> {
    if deferred == [] then map[]
    else
      var last := deferred[|deferred| - 1];
      CarrierOf(deferred[..|deferred| - 1])[last.edge := last.trigger]
  }

  function Find(carried: map<nat, Trigger>, edge: nat): Option<Trigger> {
    if edge in carried then Some(carried[edge]) else None
  }

  predicate Stops(t: Trigger) { t.hint == HintGated || t.hint == HintSuppressed }

  function Settled(e: EdgeRun): Trigger
    requires e.scan.Some?
  {
    if e.resolved.Some? then e.resolved.value else e.scan.value
  }

  predicate Dies(e: EdgeRun) {
    e.scanDead || (e.scan.Some? && !Stops(e.scan.value) && e.resolved.Some? && e.resolveDead)
  }

  /** What the loop makes of one edge whose checks pass. */
  datatype Fate =
    | Silent
    | Verdict(trigger: Trigger, outcome: Outcome)
    | Contends(trigger: Trigger)
    | Waits(trigger: Trigger)

  function FateOf(e: EdgeRun, carried: Option<Trigger>, clean: bool): Fate {
    match e.scan
    case Some(t) =>
      if t.hint == HintGated then Verdict(t, Gated)
      else if t.hint == HintSuppressed then Verdict(t, Suppressed)
      else
        var settled := Settled(e);
        if settled.fire then Contends(settled)
        else Verdict(settled, if settled.hint == HintDegraded then Degraded else Cleared)
    case None =>
      match carried
      case None => Silent
      case Some(t) => if clean then Verdict(t, Cleared) else Waits(t)
  }

  function FateAt(call: RunCall, input: Input, i: nat): Fate
    requires i < |input.edges|
  {
    FateOf(input.edges[i], Find(CarrierOf(call.deferred), i), input.clean)
  }

  /** The first of edges `k..` at which the context is found dead. */
  function DeadFrom(edges: seq<EdgeRun>, k: nat): (d: nat)
    requires k <= |edges|
    ensures k <= d <= |edges|
    ensures forall i :: k <= i < d ==> !Dies(edges[i])
    ensures d < |edges| ==> Dies(edges[d])
    decreases |edges| - k
  {
    if k == |edges| || Dies(edges[k]) then k else DeadFrom(edges, k + 1)
  }

  function Contenders(call: RunCall, input: Input, k: nat): seq<Claim>
    requires k <= |input.edges|
  {
    if k == 0 then []
    else
      var fate := FateAt(call, input, k - 1);
      var before := Contenders(call, input, k - 1);
      if fate.Contends? then before + [Claim(k - 1, fate.trigger)] else before
  }

  function Waiting(call: RunCall, input: Input, k: nat): seq<Claim>
    requires k <= |input.edges|
  {
    if k == 0 then []
    else
      var fate := FateAt(call, input, k - 1);
      var before := Waiting(call, input, k - 1);
      if fate.Waits? then before + [Claim(k - 1, fate.trigger)] else before
  }

  /** A log grown by the verdicts of the first `k` edges. */
  function Verdicts(log: seq<Event>, call: RunCall, input: Input, k: nat): seq<Event>
    requires k <= |input.edges|
  {
    if k == 0 then log
    else
      var fate := FateAt(call, input, k - 1);
      var before := Verdicts(log, call, input, k - 1);
      if fate.Verdict? then before + [Row(k - 1, Some(fate.trigger), fate.outcome)] else before
  }

  // ------------------------------------------------------------------- rows

  function Rows(claims: seq<Claim>, outcome: Outcome): (rows: seq<Event>)
    ensures |rows| == |claims|
    ensures forall k :: 0 <= k < |claims| ==> rows[k] == Row(claims[k].edge, Some(claims[k].trigger), outcome)
  {
    seq(|claims|, k requires 0 <= k < |claims| => Row(claims[k].edge, Some(claims[k].trigger), outcome))
  }

  /** Cancelled rows for the edges from `k` on that were never reached; a carried
      trigger lends its detail. */
  function Unreached(carried: map<nat, Trigger>, k: nat, n: nat): (rows: seq<Event>)
    requires k <= n
    ensures |rows| == n - k
    ensures forall j :: 0 <= j < n - k ==> rows[j] == Row(k + j, Find(carried, k + j), Cancelled)
  {
    seq(n - k, j requires 0 <= j < n - k => Row(k + j, Find(carried, k + j), Cancelled))
  }

  // --------------------------------------------------------------- contention

  /** The contender that takes the retry slot outright, or the number of
      contenders if none does. */
  function FirstEscalation(claims: seq<Claim>, k: nat): (w: nat)
    requires k <= |claims|
    ensures k <= w <= |claims|
    ensures forall i :: k <= i < w ==> !claims[i].trigger.escalates
    ensures w < |claims| ==> claims[w].trigger.escalates
    decreases |claims| - k
  {
    if k == |claims| || claims[k].trigger.escalates then k else FirstEscalation(claims, k + 1)
  }

  function Winners(claims: seq<Claim>): seq<Claim> {
    var w := FirstEscalation(claims, 0);
    if w < |claims| then [claims[w]] else claims
  }

  function Losers(claims: seq<Claim>): seq<Claim> {
    var w := FirstEscalation(claims, 0);
    if w < |claims| then claims[..w] + claims[w + 1..] else []
  }

  datatype Trait = HasPrompt | HasNote | HasReport | Durable | Bound

  predicate Has(c: Claim, t: Trait) {
    match t
    case HasPrompt => c.trigger.prompt
    case HasNote => c.trigger.note
    case HasReport => c.trigger.report
    case Durable => c.trigger.sessionState
    case Bound => !c.trigger.sessionState
  }

  function Only(claims: seq<Claim>, t: Trait): seq<Claim> {
    if claims == [] then []
    else Only(claims[..|claims| - 1], t) + if Has(claims[|claims| - 1], t) then [claims[|claims| - 1]] else []
  }

  /** The terminal note on the final message; without a note line or a message to
      put it on, nothing is written and the reports are lost. */
  function Note(log: seq<Event>, claims: seq<Claim>, hasAssistant: bool): seq<Event> {
    if hasAssistant && Only(claims, HasNote) != [] then log + [Noted(Only(claims, HasNote), Only(claims, HasReport))]
    else log
  }

  /** A log grown by the rows of the triggers whose prompts were considered. */
  function Landed(log: seq<Event>, winners: seq<Claim>): seq<Event> {
    if winners == [] then log
    else
      var before, c := Landed(log, winners[..|winners| - 1]), winners[|winners| - 1];
      (if c.trigger.prompt && c.trigger.commits then before + [Committed(c)] else before)
      + [Row(c.edge, Some(c.trigger), if c.trigger.prompt then Fired else Cleared)]
  }

  // ----------------------------------------------------------- the whole boundary

  function RetryOf(call: RunCall, contenders: seq<Claim>, waiting: seq<Claim>): Retry {
    Retry(call.attempts + 1, Only(Winners(contenders), HasPrompt), Only(Losers(contenders), Durable) + waiting)
  }

  /** The log once the scan loop found the context dead at edge `d`. */
  function DeadTail(log: seq<Event>, call: RunCall, input: Input, d: nat): seq<Event>
    requires d < |input.edges|
  {
    var carried, e := CarrierOf(call.deferred), input.edges[d];
    CancelledBoundary(log + [Row(d, if e.scanDead then e.scan else e.resolved, Cancelled)],
                      if e.scanDead then carried else carried - {d},
                      Contenders(call, input, d), Waiting(call, input, d), d, |input.edges|)
  }

  function CancelledBoundary(log: seq<Event>, carried: map<nat, Trigger>, cs: seq<Claim>, ws: seq<Claim>, d: nat,
                             n: nat): seq<Event>
    requires d < n
  {
    var rows := log + Rows(cs, Cancelled) + Rows(ws, Cancelled) + Unreached(carried, d + 1, n);
    if d in carried then rows + [Row(d, Some(carried[d]), Cancelled)] else rows
  }

  /** The log once every edge was scanned. */
  function Decided(log: seq<Event>, call: RunCall, input: Input, cs: seq<Claim>, ws: seq<Claim>): seq<Event> {
    if cs == [] then
      Note(log + Rows(ws, Cancelled), ws, input.hasAssistant)
    else if call.attempts >= MAX_REPAIR_ATTEMPTS then
      Note(log + Rows(cs, Exhausted) + Rows(ws, Exhausted), cs + ws, input.hasAssistant)
    else if Only(Winners(cs), HasPrompt) == [] then
      Note(log + Rows(Winners(cs), Cleared) + Rows(Losers(cs), Deferred) + Rows(ws, Cancelled), ws + cs,
           input.hasAssistant)
    else if input.lateDead || input.lockDead then
      Note(log + Rows(cs, Cancelled) + Rows(ws, Cancelled), ws + Only(Losers(cs), Bound), input.hasAssistant)
    else
      var landed := Landed(log + [Enqueued(RetryOf(call, cs, ws))], Winners(cs));
      Note(landed + Rows(Losers(cs), Deferred) + Rows(ws, Deferred), Only(Losers(cs), Bound), input.hasAssistant)
  }

  /** A log grown by everything one boundary writes, in order. */
  function Boundary(log: seq<Event>, call: RunCall, input: Input): seq<Event> {
    var n, d := |input.edges|, DeadFrom(input.edges, 0);
    if input.skipped then log + Rows(call.deferred, Cancelled)
    else if input.entryDead then log + Unreached(CarrierOf(call.deferred), 0, n)
    else Evaluated(Verdicts(log, call, input, d), call, input, d)
  }

  /** The log once the scan loop stopped at `d`. */
  function Evaluated(log: seq<Event>, call: RunCall, input: Input, d: nat): seq<Event>
    requires d <= |input.edges|
  {
    if d < |input.edges| then DeadTail(log, call, input, d)
    else Decided(log, call, input, Contenders(call, input, d), Waiting(call, input, d))
  }

  // ---------------------------------------------------------------- the method

  /** The boundary's effects, in order. The stored rows are `StoredRows(log)`. */
  class Recorder {
    var log: seq<Event>

    constructor ()
      ensures log == []
    {
      log := [];
    }

    method Emit(e: Event)
      modifies this
      ensures log == old(log) + [e]
    {
      log := log + [e];
    }

    method RecordAll(claims: seq<Claim>, outcome: Outcome)
      modifies this
      ensures log == old(log) + Rows(claims, outcome)
    {
      for i := 0 to |claims|
        invariant log == old(log) + Rows(claims[..i], outcome)
      {
        assert Rows(claims[..i + 1], outcome) ==
          Rows(claims[..i], outcome) + [Row(claims[i].edge, Some(claims[i].trigger), outcome)];
        Emit(Row(claims[i].edge, Some(claims[i].trigger), outcome));
      }
      assert claims[..|claims|] == claims;
    }

    method RecordUnreached(carried: map<nat, Trigger>, from: nat, n: nat)
      requires from <= n
      modifies this
      ensures log == old(log) + Unreached(carried, from, n)
    {
      for i := from to n
        invariant log == old(log) + Unreached(carried, from, i)
      {
        assert Unreached(carried, from, i + 1) == Unreached(carried, from, i) + [Row(i, Find(carried, i), Cancelled)];
        Emit(Row(i, Find(carried, i), Cancelled));
      }
    }

    method WriteRepairExhaustion(claims: seq<Claim>, hasAssistant: bool)
      modifies this
      ensures log == Note(old(log), claims, hasAssistant)
    {
      var notes := Collect(claims, HasNote);
      var reports := Collect(claims, HasReport);
      if hasAssistant && |notes| > 0 { Emit(Noted(notes, reports)); }
    }

    method RecordLanded(winners: seq<Claim>)
      modifies this
      ensures log == Landed(old(log), winners)
    {
      for i := 0 to |winners|
        invariant log == Landed(old(log), winners[..i])
      {
        assert winners[..i + 1][..i] == winners[..i];
        var c := winners[i];
        if c.trigger.prompt && c.trigger.commits { Emit(Committed(c)); }
        Emit(Row(c.edge, Some(c.trigger), if c.trigger.prompt then Fired else Cleared));
      }
      assert winners[..|winners|] == winners;
    }
  }

  /** The stored rows of a log: inserts of an edge already present are ignored. */
  function StoredRows(log: seq<Event>): map<nat, Outcome> {
    if log == [] then map[]
    else
      var before, e := StoredRows(log[..|log| - 1]), log[|log| - 1];
      if e.Row? && e.edge !in before then before[e.edge := e.outcome] else before
  }

  method Collect(claims: seq<Claim>, t: Trait) returns (out: seq<Claim>)
    ensures out == Only(claims, t)
  {
    out := [];
    for i := 0 to |claims|
      invariant out == Only(claims[..i], t)
    {
      assert claims[..i + 1][..i] == claims[..i];
      if Has(claims[i], t) { out := out + [claims[i]]; }
    }
    assert claims[..|claims|] == claims;
  }

  method Carry(deferred: seq<Claim>) returns (carried: map<nat, Trigger>)
    ensures carried == CarrierOf(deferred)
  {
    carried := map[];
    for i := 0 to |deferred|
      invariant carried == CarrierOf(deferred[..i])
    {
      assert deferred[..i + 1][..i] == deferred[..i];
      carried := carried[deferred[i].edge := deferred[i].trigger];
    }
    assert deferred[..|deferred|] == deferred;
  }

  method SplitSlot(contenders: seq<Claim>) returns (winners: seq<Claim>, losers: seq<Claim>)
    ensures winners == Winners(contenders) && losers == Losers(contenders)
  {
    var w := 0;
    while w < |contenders| && !contenders[w].trigger.escalates
      invariant w <= |contenders| && FirstEscalation(contenders, w) == FirstEscalation(contenders, 0)
    {
      w := w + 1;
    }
    if w < |contenders| {
      winners, losers := [contenders[w]], contenders[..w] + contenders[w + 1..];
    } else {
      winners, losers := contenders, [];
    }
  }

  /** Every carried trigger names an edge of the set. */
  predicate CarrierInSet(call: RunCall, n: nat) {
    forall k :: 0 <= k < |call.deferred| ==> call.deferred[k].edge < n
  }

  lemma {:induction false} CarrierKeys(deferred: seq<Claim>, n: nat)
    requires forall k :: 0 <= k < |deferred| ==> deferred[k].edge < n
    ensures forall j :: j in CarrierOf(deferred) ==> j < n
  {
    if deferred != [] { CarrierKeys(deferred[..|deferred| - 1], n); }
  }

  /** What the carrier still holds when edge `i` comes up: nothing for the edges
      already passed. */
  ghost predicate Remaining(carried: map<nat, Trigger>, all: map<nat, Trigger>, i: nat) {
    forall j :: (j in carried <==> j in all && j >= i) && (j in carried ==> carried[j] == all[j])
  }

  lemma RemainingUnreached(carried: map<nat, Trigger>, all: map<nat, Trigger>, i: nat, n: nat)
    requires Remaining(carried, all, i) && i < n
    ensures Unreached(carried - {i}, i + 1, n) == Unreached(all - {i}, i + 1, n) == Unreached(all, i + 1, n)
    ensures Unreached(carried, i + 1, n) == Unreached(all, i + 1, n)
    ensures Find(carried, i) == Find(all, i)
    ensures Remaining(carried - {i}, all, i + 1)
  {
    forall j | i < j < n ensures Find(carried - {i}, j) == Find(carried, j) == Find(all, j) == Find(all - {i}, j) {}
  }

  /** The rows a dying boundary owes besides the dying edge's own. */
  method RecordCancelledBoundary(rec: Recorder, carried: map<nat, Trigger>, contenders: seq<Claim>,
                                 waiting: seq<Claim>, i: nat, n: nat)
    requires i < n && forall j :: j in carried ==> i <= j < n
    modifies rec
    ensures rec.log == CancelledBoundary(old(rec.log), carried, contenders, waiting, i, n)
  {
    rec.RecordAll(contenders, Cancelled);
    rec.RecordAll(waiting, Cancelled);
    rec.RecordUnreached(carried, i + 1, n);
    if i in carried { rec.Emit(Row(i, Some(carried[i]), Cancelled)); }
  }

  lemma DeadAt(edges: seq<EdgeRun>, i: nat)
    requires i < |edges|
    ensures DeadFrom(edges, i) == if Dies(edges[i]) then i else DeadFrom(edges, i + 1)
  {
  }

  /** One live edge: record its verdict, or let it contend, or let it wait. */
  method TakeEdge(rec: Recorder, call: RunCall, input: Input, i: nat, contenders: seq<Claim>, waiting: seq<Claim>)
    returns (cs: seq<Claim>, ws: seq<Claim>)
    requires i < |input.edges|
    modifies rec
    ensures var fate := FateAt(call, input, i);
      && cs == (if fate.Contends? then contenders + [Claim(i, fate.trigger)] else contenders)
      && ws == (if fate.Waits? then waiting + [Claim(i, fate.trigger)] else waiting)
      && rec.log == if fate.Verdict? then old(rec.log) + [Row(i, Some(fate.trigger), fate.outcome)] else old(rec.log)
  {
    cs, ws := contenders, waiting;
    var e, carried := input.edges[i], Find(CarrierOf(call.deferred), i);
    if e.scan.Some? {
      if Stops(e.scan.value) {
        rec.Emit(Row(i, e.scan, if e.scan.value.hint == HintGated then Gated else Suppressed));
        return;
      }
      var t := if e.resolved.Some? then e.resolved.value else e.scan.value;
      if !t.fire {
        rec.Emit(Row(i, Some(t), if t.hint == HintDegraded then Degraded else Cleared));
        return;
      }
      cs := cs + [Claim(i, t)];
    } else if carried.Some? {
      if !input.clean {
        ws := ws + [Claim(i, carried.value)];
      } else {
        rec.Emit(Row(i, carried, Cleared));
      }
    }
  }

  /** The scan loop. It stops early at the first edge that finds the context dead. */
  method ScanEdges(rec: Recorder, call: RunCall, input: Input)
    returns (dead: bool, contenders: seq<Claim>, waiting: seq<Claim>)
    requires CarrierInSet(call, |input.edges|)
    modifies rec
    ensures var n, d := |input.edges|, DeadFrom(input.edges, 0);
      && (dead <==> d < n)
      && contenders == Contenders(call, input, d) && waiting == Waiting(call, input, d)
      && var scanned := Verdicts(old(rec.log), call, input, d);
      rec.log == if d < n then DeadTail(scanned, call, input, d) else scanned
  {
    var n := |input.edges|;
    var carried := Carry(call.deferred);
    ghost var all := carried;
    CarrierKeys(call.deferred, n);
    contenders, waiting := [], [];
    for i := 0 to n
      invariant DeadFrom(input.edges, i) == DeadFrom(input.edges, 0)
      invariant Remaining(carried, all, i)
      invariant contenders == Contenders(call, input, i) && waiting == Waiting(call, input, i)
      invariant rec.log == Verdicts(old(rec.log), call, input, i)
    {
      var e := input.edges[i];
      DeadAt(input.edges, i);
      RemainingUnreached(carried, all, i, n);
      if e.scanDead {
        rec.Emit(Row(i, e.scan, Cancelled));
        RecordCancelledBoundary(rec, carried, contenders, waiting, i, n);
        return true, contenders, waiting;
      }
      carried := carried - {i};
      if e.scan.Some? && !Stops(e.scan.value) && e.resolved.Some? && e.resolveDead {
        rec.Emit(Row(i, e.resolved, Cancelled));
        RecordCancelledBoundary(rec, carried, contenders, waiting, i, n);
        return true, contenders, waiting;
      }
      contenders, waiting := TakeEdge(rec, call, input, i, contenders, waiting);
    }
    return false, contenders, waiting;
  }

  /** Evaluates the boundary; `queued` is the retry put in front of the queue. */
  method RunBoundary(rec: Recorder, call: RunCall, input: Input) returns (queued: Option<Retry>)
    requires CarrierInSet(call, |input.edges|)
    modifies rec
    ensures rec.log == Boundary(old(rec.log), call, input)
    ensures queued == QueuedBy(call, input)
  {
    queued := None;
    if input.skipped {
      rec.RecordAll(call.deferred, Cancelled);
      return;
    }
    if input.entryDead {
      var carried := Carry(call.deferred);
      rec.RecordUnreached(carried, 0, |input.edges|);
      return;
    }
    queued := EvaluateEdges(rec, call, input);
  }

  method EvaluateEdges(rec: Recorder, call: RunCall, input: Input) returns (queued: Option<Retry>)
    requires CarrierInSet(call, |input.edges|)
    modifies rec
    ensures var d := DeadFrom(input.edges, 0);
      rec.log == Evaluated(Verdicts(old(rec.log), call, input, d), call, input, d)
    ensures queued == EvaluatedRetry(call, input)
  {
    queued := None;
    var dead, contenders, waiting := ScanEdges(rec, call, input);
    if dead { return; }
    queued := Decide(rec, call, input, contenders, waiting);
  }

  /** The retry a boundary enqueues. */
  function QueuedBy(call: RunCall, input: Input): Option<Retry> {
    if input.skipped || input.entryDead then None else EvaluatedRetry(call, input)
  }

  function EvaluatedRetry(call: RunCall, input: Input): Option<Retry> {
    var n := |input.edges|;
    if DeadFrom(input.edges, 0) < n then None
    else DecidedRetry(call, input, Contenders(call, input, n), Waiting(call, input, n))
  }

  function DecidedRetry(call: RunCall, input: Input, cs: seq<Claim>, ws: seq<Claim>): Option<Retry> {
    if cs == [] || call.attempts >= MAX_REPAIR_ATTEMPTS || Only(Winners(cs), HasPrompt) == [] || input.lateDead ||
      input.lockDead
    then None else Some(RetryOf(call, cs, ws))
  }

  method Decide(rec: Recorder, call: RunCall, input: Input, contenders: seq<Claim>, waiting: seq<Claim>)
    returns (queued: Option<Retry>)
    modifies rec
    ensures rec.log == Decided(old(rec.log), call, input, contenders, waiting)
    ensures queued == DecidedRetry(call, input, contenders, waiting)
  {
    queued := None;
    if |contenders| == 0 {
      rec.RecordAll(waiting, Cancelled);
      rec.WriteRepairExhaustion(waiting, input.hasAssistant);
      return;
    }
    if call.attempts >= MAX_REPAIR_ATTEMPTS {
      rec.RecordAll(contenders, Exhausted);
      rec.RecordAll(waiting, Exhausted);
      rec.WriteRepairExhaustion(contenders + waiting, input.hasAssistant);
      return;
    }
    var winners, losers := SplitSlot(contenders);
    var prompts := Collect(winners, HasPrompt);
    if |prompts| == 0 {
      rec.RecordAll(winners, Cleared);
      rec.RecordAll(losers, Deferred);
      rec.RecordAll(waiting, Cancelled);
      rec.WriteRepairExhaustion(waiting + contenders, input.hasAssistant);
      return;
    }
    var carriedOn := Collect(losers, Durable);
    var bound := Collect(losers, Bound);
    var retry := Retry(call.attempts + 1, prompts, carriedOn + waiting);
    if input.lateDead || input.lockDead {
      rec.RecordAll(contenders, Cancelled);
      rec.RecordAll(waiting, Cancelled);
      rec.WriteRepairExhaustion(waiting + bound, input.hasAssistant);
      return;
    }
    rec.Emit(Enqueued(retry));
    queued := Some(retry);
    rec.RecordLanded(winners);
    rec.RecordAll(losers, Deferred);
    rec.RecordAll(waiting, Deferred);
    rec.WriteRepairExhaustion(bound, input.hasAssistant);
  }
}
