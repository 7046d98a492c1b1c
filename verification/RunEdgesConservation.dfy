/** Firing triggers and retries: what a boundary may commit to, what it carries on,
    and how often it may do so. */
module RunEdgesConservation {
  import opened Transcript
  import opened RunEdges
  import opened RunEdgesProperties

  // ------------------------------------------------- nothing before the retry

  /** Events that claim a retry exists, or are one. */
  predicate Claims(e: Event) { e.Enqueued? || e.Committed? || (e.Row? && e.outcome == Fired) }

  predicate Quiet(log: seq<Event>) { forall k :: 0 <= k < |log| ==> !Claims(log[k]) }

  predicate NoEnqueue(log: seq<Event>) { forall k :: 0 <= k < |log| ==> !log[k].Enqueued? }

  lemma {:induction false} VerdictsQuiet(log: seq<Event>, call: RunCall, input: Input, k: nat)
    requires k <= |input.edges| && Quiet(log)
    ensures Quiet(Verdicts(log, call, input, k))
  {
    if k > 0 { VerdictsQuiet(log, call, input, k - 1); }
  }

  /** A grown log keeps what it had, and the growth enqueues nothing. */
  ghost predicate GrowsQuietly(log: seq<Event>, grown: seq<Event>) {
    |log| <= |grown| && grown[..|log|] == log && NoEnqueue(grown[|log|..])
  }

  lemma {:induction false} LandedGrows(log: seq<Event>, winners: seq<Claim>)
    ensures GrowsQuietly(log, Landed(log, winners))
  {
    if winners != [] { LandedGrows(log, winners[..|winners| - 1]); }
  }

  lemma QuietNote(log: seq<Event>, claims: seq<Claim>, hasAssistant: bool)
    requires Quiet(log)
    ensures Quiet(Note(log, claims, hasAssistant))
  {
  }

  lemma QuietDecided(log: seq<Event>, call: RunCall, input: Input, cs: seq<Claim>, ws: seq<Claim>)
    requires Quiet(log) && DecidedRetry(call, input, cs, ws).None?
    ensures Quiet(Decided(log, call, input, cs, ws))
  {
    if cs == [] {
      QuietNote(log + Rows(ws, Cancelled), ws, input.hasAssistant);
    } else if call.attempts >= MAX_REPAIR_ATTEMPTS {
      QuietNote(log + Rows(cs, Exhausted) + Rows(ws, Exhausted), cs + ws, input.hasAssistant);
    } else if Only(Winners(cs), HasPrompt) == [] {
      QuietNote(log + Rows(Winners(cs), Cleared) + Rows(Losers(cs), Deferred) + Rows(ws, Cancelled), ws + cs,
                input.hasAssistant);
    } else {
      QuietNote(log + Rows(cs, Cancelled) + Rows(ws, Cancelled), ws + Only(Losers(cs), Bound), input.hasAssistant);
    }
  }

  lemma QuietDeadTail(log: seq<Event>, call: RunCall, input: Input, d: nat)
    requires Quiet(log) && d < |input.edges|
    ensures Quiet(DeadTail(log, call, input, d))
  {
  }

  lemma QuietWithoutRetry(call: RunCall, input: Input)
    requires QueuedBy(call, input).None?
    ensures Quiet(Boundary([], call, input))
  {
    var n, d := |input.edges|, DeadFrom(input.edges, 0);
    if !input.skipped && !input.entryDead {
      var scanned := Verdicts([], call, input, d);
      VerdictsQuiet([], call, input, d);
      if d < n {
        QuietDeadTail(scanned, call, input, d);
      } else {
        QuietDecided(scanned, call, input, Contenders(call, input, n), Waiting(call, input, n));
      }
    }
  }

  /** The log of a boundary that enqueues: verdicts, the retry, then the rest. */
  function AfterRetry(log: seq<Event>, cs: seq<Claim>, ws: seq<Claim>, hasAssistant: bool): seq<Event> {
    Note(Landed(log, Winners(cs)) + Rows(Losers(cs), Deferred) + Rows(ws, Deferred), Only(Losers(cs), Bound),
         hasAssistant)
  }

  lemma RetryShape(call: RunCall, input: Input)
    requires QueuedBy(call, input).Some?
    ensures var n := |input.edges|;
      var scanned := Verdicts([], call, input, n);
      && Quiet(scanned)
      && Boundary([], call, input) ==
           AfterRetry(scanned + [Enqueued(QueuedBy(call, input).value)], Contenders(call, input, n),
                      Waiting(call, input, n), input.hasAssistant)
  {
    VerdictsQuiet([], call, input, |input.edges|);
  }

  lemma AfterRetryGrows(log: seq<Event>, cs: seq<Claim>, ws: seq<Claim>, hasAssistant: bool)
    ensures GrowsQuietly(log, AfterRetry(log, cs, ws, hasAssistant))
  {
    var landed, deferred, carried := Landed(log, Winners(cs)), Rows(Losers(cs), Deferred), Rows(ws, Deferred);
    LandedGrows(log, Winners(cs));
    GrowsMore(log, landed, deferred);
    GrowsMore(log, landed + deferred, carried);
    var bound := Only(Losers(cs), Bound);
    GrowsMore(log, landed + deferred + carried, [Noted(Only(bound, HasNote), Only(bound, HasReport))]);
  }

  lemma GrowsMore(log: seq<Event>, grown: seq<Event>, more: seq<Event>)
    requires GrowsQuietly(log, grown) && NoEnqueue(more)
    ensures GrowsQuietly(log, grown + more)
  {
    assert (grown + more)[..|log|] == grown[..|log|];
    assert (grown + more)[|log|..] == grown[|log|..] + more;
  }

  /** A `fired` row or a commit is only ever written after the retry is on the
      queue, and a boundary enqueues at most once. */
  lemma RetryComesFirst(call: RunCall, input: Input) returns (before: seq<Event>, after: seq<Event>)
    ensures QueuedBy(call, input).None? ==> before == Boundary([], call, input) && Quiet(before)
    ensures QueuedBy(call, input).Some? ==>
      Boundary([], call, input) == before + [Enqueued(QueuedBy(call, input).value)] + after && Quiet(before) &&
        NoEnqueue(after)
  {
    var log := Boundary([], call, input);
    before, after := log, [];
    if QueuedBy(call, input).None? {
      QuietWithoutRetry(call, input);
    } else {
      var n := |input.edges|;
      RetryShape(call, input);
      before := Verdicts([], call, input, n);
      var e := Enqueued(QueuedBy(call, input).value);
      AfterRetryGrows(before + [e], Contenders(call, input, n), Waiting(call, input, n), input.hasAssistant);
      after := log[|before| + 1..];
      assert log == log[..|before| + 1] + after;
    }
  }

  lemma {:induction false} CommitInLanded(log: seq<Event>, winners: seq<Claim>, c: Claim)
    ensures Committed(c) in Landed(log, winners) <==>
      Committed(c) in log || (c in winners && c.trigger.prompt && c.trigger.commits)
  {
    if winners != [] {
      CommitInLanded(log, winners[..|winners| - 1], c);
      assert winners == winners[..|winners| - 1] + [winners[|winners| - 1]];
    }
  }

  lemma CommitInRest(log: seq<Event>, cs: seq<Claim>, ws: seq<Claim>, hasAssistant: bool, c: Claim)
    ensures Committed(c) in AfterRetry(log, cs, ws, hasAssistant) <==> Committed(c) in Landed(log, Winners(cs))
  {
    var l1 := Landed(log, Winners(cs));
    var l2 := l1 + Rows(Losers(cs), Deferred);
    assert Committed(c) in l2 <==> Committed(c) in l1;
    assert Committed(c) in l2 + Rows(ws, Deferred) <==> Committed(c) in l2;
  }

  /** A commit runs exactly for the triggers whose prompt is on the enqueued retry. */
  lemma CommitsArePrompted(call: RunCall, input: Input, c: Claim)
    ensures Committed(c) in Boundary([], call, input) <==>
      QueuedBy(call, input).Some? && c in QueuedBy(call, input).value.prompts && c.trigger.commits
  {
    if QueuedBy(call, input).None? {
      QuietWithoutRetry(call, input);
    } else {
      var n := |input.edges|;
      var cs, ws := Contenders(call, input, n), Waiting(call, input, n);
      RetryShape(call, input);
      var log := Verdicts([], call, input, n) + [Enqueued(QueuedBy(call, input).value)];
      CommitInRest(log, cs, ws, input.hasAssistant, c);
      CommitInLanded(log, Winners(cs), c);
      OnlyMember(Winners(cs), HasPrompt, c);
    }
  }

  // ------------------------------------------------------------- conservation

  /** The final message's note names this claim. */
  predicate NotedIn(log: seq<Event>, c: Claim) {
    exists k :: 0 <= k < |log| && log[k].Noted? && c in log[k].claims
  }

  lemma NotedLast(log: seq<Event>, cs: seq<Claim>, ws: seq<Claim>, c: Claim)
    requires c in Only(Only(Losers(cs), Bound), HasNote)
    ensures NotedIn(AfterRetry(log, cs, ws, true), c)
  {
    var all, bound := AfterRetry(log, cs, ws, true), Only(Losers(cs), Bound);
    assert all[|all| - 1] == Noted(Only(bound, HasNote), Only(bound, HasReport));
  }

  lemma LoserIsCarried(call: RunCall, input: Input, c: Claim)
    requires
      && QueuedBy(call, input).Some?
      && c in Losers(Contenders(call, input, |input.edges|))
      && c.trigger.sessionState
    ensures c in QueuedBy(call, input).value.deferred
  {
    OnlyMember(Losers(Contenders(call, input, |input.edges|)), Durable, c);
  }

  lemma LoserIsNoted(call: RunCall, input: Input, c: Claim)
    requires QueuedBy(call, input).Some? && c in Losers(Contenders(call, input, |input.edges|))
    requires !c.trigger.sessionState && c.trigger.note && input.hasAssistant
    ensures NotedIn(Boundary([], call, input), c)
  {
    var n := |input.edges|;
    var log := Verdicts([], call, input, n) + [Enqueued(QueuedBy(call, input).value)];
    RetryShape(call, input);
    NotedAmongLosers(log, Contenders(call, input, n), Waiting(call, input, n), c);
  }

  lemma NotedAmongLosers(log: seq<Event>, cs: seq<Claim>, ws: seq<Claim>, c: Claim)
    requires c in Losers(cs) && !c.trigger.sessionState && c.trigger.note
    ensures NotedIn(AfterRetry(log, cs, ws, true), c)
  {
    OnlyMember(Losers(cs), Bound, c);
    OnlyMember(Only(Losers(cs), Bound), HasNote, c);
    NotedLast(log, cs, ws, c);
  }

  lemma WinnerIsPrompted(call: RunCall, input: Input, c: Claim)
    requires QueuedBy(call, input).Some? && c in Winners(Contenders(call, input, |input.edges|)) && c.trigger.prompt
    ensures c in QueuedBy(call, input).value.prompts
  {
    OnlyMember(Winners(Contenders(call, input, |input.edges|)), HasPrompt, c);
  }

  /** What a contender's row says once a retry is enqueued. */
  lemma OutcomeWithRetry(call: RunCall, input: Input, i: nat)
    requires QueuedBy(call, input).Some? && ContendsAt(call, input, i)
    ensures FinalOutcome(call, input, i) ==
      Some(if !WinsAt(call, input, i) then Deferred else if TriggerAt(call, input, i).prompt then Fired else Cleared)
  {
    DeadFromIs(input, i);
    PromptedIff(call, input);
  }

  /** When a retry is enqueued every firing trigger is accounted for: prompted, or
      recorded cleared because it renders no prompt, or carried on, or, bound to the
      finished run, noted if it renders a note and there is a message to note it on. */
  lemma FiringTriggersAreConserved(call: RunCall, input: Input, i: nat)
    requires QueuedBy(call, input).Some? && ContendsAt(call, input, i)
    ensures var retry, t := QueuedBy(call, input).value, TriggerAt(call, input, i);
      if WinsAt(call, input, i) then
        (if t.prompt then Claim(i, t) in retry.prompts else FinalOutcome(call, input, i) == Some(Cleared))
      else
        && FinalOutcome(call, input, i) == Some(Deferred)
        && (t.sessionState ==> Claim(i, t) in retry.deferred)
        && (!t.sessionState && t.note && input.hasAssistant ==> NotedIn(Boundary([], call, input), Claim(i, t)))
  {
    var c := Claim(i, TriggerAt(call, input, i));
    OutcomeWithRetry(call, input, i);
    WinnersMember(call, input, c);
    if !WinsAt(call, input, i) {
      if c.trigger.sessionState {
        LoserIsCarried(call, input, c);
      } else if c.trigger.note && input.hasAssistant {
        LoserIsNoted(call, input, c);
      }
    } else if c.trigger.prompt {
      WinnerIsPrompted(call, input, c);
    }
  }

  /** The retry carries nothing else: its prompts are winners, and its deferred
      triggers are durable losers and carried triggers that found no slot. */
  lemma RetryCarriesOnlyThose(call: RunCall, input: Input, c: Claim)
    requires QueuedBy(call, input).Some?
    ensures var retry := QueuedBy(call, input).value;
      && (c in retry.prompts <==>
           WinsAt(call, input, c.edge) && TriggerAt(call, input, c.edge) == c.trigger && c.trigger.prompt)
      && (c in retry.deferred <==>
            || (ContendsAt(call, input, c.edge) && !WinsAt(call, input, c.edge) && TriggerAt(call, input,
                c.edge) == c.trigger && c.trigger.sessionState)
            || (WaitsAt(call, input, c.edge) && CarriedFor(call.deferred, c.edge, c.trigger)))
  {
    var n := |input.edges|;
    var cs, ws := Contenders(call, input, n), Waiting(call, input, n);
    RetryHolds(call, cs, ws, c);
    WinnersMember(call, input, c);
    ContendersMember(call, input, n, c);
  }

  lemma RetryHolds(call: RunCall, cs: seq<Claim>, ws: seq<Claim>, c: Claim)
    ensures var retry := RetryOf(call, cs, ws);
      && (c in retry.prompts <==> c in Winners(cs) && c.trigger.prompt)
      && (c in retry.deferred <==> (c in Losers(cs) && c.trigger.sessionState) || c in ws)
  {
    OnlyMember(Winners(cs), HasPrompt, c);
    OnlyMember(Losers(cs), Durable, c);
  }

  predicate DistinctEdges(claims: seq<Claim>) {
    forall j, k :: 0 <= j < k < |claims| ==> claims[j].edge != claims[k].edge
  }

  lemma {:induction false} OnlyAscends(claims: seq<Claim>, t: Trait)
    requires Ascends(claims)
    ensures Ascends(Only(claims, t))
  {
    if claims != [] {
      var front, last := claims[..|claims| - 1], claims[|claims| - 1];
      OnlyAscends(front, t);
      forall c | c in Only(front, t) ensures c.edge < last.edge { OnlyMember(front, t, c); }
    }
  }

  lemma LosersAscend(claims: seq<Claim>)
    requires Ascends(claims)
    ensures Ascends(Losers(claims))
  {
  }

  /** The carrier never names an edge twice, and only edges of the set. */
  lemma DeferredNamesEdgesOnce(call: RunCall, input: Input)
    requires QueuedBy(call, input).Some?
    ensures var retry := QueuedBy(call, input).value;
      DistinctEdges(retry.deferred) && CarrierInSet(RunCall(retry.attempts, retry.deferred), |input.edges|)
  {
    var n := |input.edges|;
    var cs, ws := Contenders(call, input, n), Waiting(call, input, n);
    var kept := Only(Losers(cs), Durable);
    ContendersAscend(call, input, n);
    LosersAscend(cs);
    OnlyAscends(Losers(cs), Durable);
    forall c: Claim | c in kept + ws ensures c.edge < n { RetryCarriesOnlyThose(call, input, c); }
    forall j, k | 0 <= j < |kept| && 0 <= k < |ws| ensures kept[j].edge != ws[k].edge {
      OnlyMember(Losers(cs), Durable, kept[j]);
      WinnersMember(call, input, kept[j]);
      ContendersMember(call, input, n, ws[k]);
    }
    DistinctTogether(kept, ws);
    forall k | 0 <= k < |kept + ws| ensures (kept + ws)[k].edge < n { assert (kept + ws)[k] in kept + ws; }
  }

  lemma DistinctTogether(a: seq<Claim>, b: seq<Claim>)
    requires Ascends(a) && Ascends(b)
    requires forall j, k :: 0 <= j < |a| && 0 <= k < |b| ==> a[j].edge != b[k].edge
    ensures DistinctEdges(a + b)
  {
  }

  // --------------------------------------------------------------- the budget

  /** A user turn's boundaries: each run but the first is the retry the boundary
      before it enqueued. */
  ghost predicate Chain(calls: seq<RunCall>, inputs: seq<Input>) {
    && |calls| == |inputs|
    && (forall k :: 0 < k < |calls| ==> Spawned(calls[k - 1], inputs[k - 1], calls[k]))
  }

  predicate Spawned(call: RunCall, input: Input, next: RunCall) {
    QueuedBy(call, input).Some? && next == RunCall(QueuedBy(call, input).value.attempts,
                                                   QueuedBy(call, input).value.deferred)
  }

  lemma {:induction false} AttemptsCount(calls: seq<RunCall>, inputs: seq<Input>, k: nat)
    requires Chain(calls, inputs) && k < |calls|
    ensures calls[k].attempts == calls[0].attempts + k
    ensures k > 0 ==> calls[k].attempts <= MAX_REPAIR_ATTEMPTS
  {
    if k > 0 {
      AttemptsCount(calls, inputs, k - 1);
      assert Spawned(calls[k - 1], inputs[k - 1], calls[k]);
    }
  }

  /** A user turn spawns at most two repair runs. */
  lemma AtMostTwoRepairs(calls: seq<RunCall>, inputs: seq<Input>)
    requires Chain(calls, inputs) && calls != [] && calls[0].attempts == 0
    ensures |calls| <= 3
  {
    if |calls| > 1 { AttemptsCount(calls, inputs, |calls| - 1); }
  }
}
