/** Preparing one request: choose the raw window, decide which turns collapse,
    and render. */
module PreparePrompt {
  import opened Transcript
  import opened PriorTurns
  import opened Settle
  import opened Segments
  import opened SegmentProperties
  import opened Boundary
  import opened Render
  import opened RenderProperties
  import opened RenderRepaired

  /** A note; hydration seeds sit at turn -1, below every real segment. */
  datatype Entry = Entry(turn: int, number: int, seed: bool)

  /** Prior-turn collapse of one run. The turn set freezes on the first engaged
      render that finds covered turns, and the summaries freeze with it. */
  datatype Collapse = Collapse(before: nat, frozen: Option<set<nat>>, summaries: map<nat, string>)

  /** What a render reads besides the transcript. `entries` is absent when
      fetching them failed; `prefix` is what the note renderer makes of them;
      `texts` is the joined note text of each turn that has any. */
  datatype Env = Env(notebookEnabled: bool, engaged: bool, budget: nat, threshold: nat, maxSteps: nat,
                     registry: Registry, failing: set<Key>, entries: Option<seq<Entry>>, prefix: seq<ProviderMessage>,
                     mode: Mode, stubs: bool, recallLive: bool, texts: map<nat, string>)

  // ------------------------------------------------------------ summary floor

  predicate SummaryCommitted(m: Message) {
    m.isSummary && FindFinish(m.parts) == Some(EndTurn)
  }

  /** The newest committed summary, or -1. */
  function LastSummaryIndex(msgs: seq<Message>, n: nat): (i: int)
    requires n <= |msgs|
    ensures -1 <= i < n
    ensures i >= 0 ==> SummaryCommitted(msgs[i])
    ensures forall k :: i < k < n ==> !SummaryCommitted(msgs[k])
  {
    if n == 0 then -1 else if SummaryCommitted(msgs[n - 1]) then n - 1 else LastSummaryIndex(msgs, n - 1)
  }

  // ------------------------------------------------------------- note prefix

  function BoundaryKey(segs: seq<Segment>, boundary: nat, k: nat): Key
    requires k <= |segs|
    decreases |segs| - k
  {
    if k == |segs| then Key(0, 0)
    else if segs[k].start == boundary then segs[k].Id()
    else if segs[k].start > boundary then Key(0, 0)
    else BoundaryKey(segs, boundary, k + 1)
  }

  predicate BelowKey(e: Entry, key: Key) {
    e.turn < key.turn || (e.turn == key.turn && e.number < key.number)
  }

  /** Some real note stands for the covered span; seeds do not count. */
  predicate SpanHasNotes(entries: seq<Entry>, key: Key) {
    exists k :: 0 <= k < |entries| && StandsForSpan(entries[k], key)
  }

  predicate StandsForSpan(e: Entry, key: Key) { BelowKey(e, key) && !e.seed }

  /** What the notes render as at a boundary: nothing when they cannot be read, and
      nothing before the first covered segment unless the session was seeded. */
  function NotePrefix(env: Env, boundary: nat): seq<ProviderMessage> {
    if env.entries.None? || (boundary == 0 && !Seeded(env.entries.value)) then [] else env.prefix
  }

  predicate Seeded(entries: seq<Entry>) { exists k :: 0 <= k < |entries| && entries[k].seed }

  /** The note prefix for a boundary. It fails when the notes cannot be read, and
      when a covered span would be evicted with no note to stand for it. */
  method NotebookPrefix(env: Env, boundary: nat, key: Key) returns (prefix: seq<ProviderMessage>, failed: bool)
    ensures failed <==> env.entries.None? || (boundary > 0 && !SpanHasNotes(env.entries.value, key))
    ensures prefix == NotePrefix(env, boundary)
    ensures prefix ==
      if env.entries.Some? && (boundary > 0 || exists k :: 0 <= k < |env.entries.value| && env.entries.value[k].seed)
      then env.prefix else []
  {
    if env.entries.None? { return [], true; }
    var entries := env.entries.value;
    var seeded, covered := false, false;
    for i := 0 to |entries|
      invariant covered <==> exists k :: 0 <= k < i && StandsForSpan(entries[k], key)
      invariant seeded <==> exists k :: 0 <= k < i && entries[k].seed
    {
      if BelowKey(entries[i], key) && !entries[i].seed { covered := true; assert StandsForSpan(entries[i], key); }
      if entries[i].seed { seeded := true; }
    }
    if boundary == 0 && !seeded { return [], false; }
    failed := boundary > 0 && !covered;
    prefix := env.prefix;
  }

  // ------------------------------------------------------------- the window

  ghost function SegmentsIn(msgs: seq<Message>, env: Env): seq<Segment> {
    SegmentsOf(msgs, env.threshold, env.maxSteps)
  }

  /** The segment boundary of an engaged render, before any roll-back. */
  ghost function EngagedBoundary(msgs: seq<Message>, env: Env): (boundary: nat)
    requires msgs != [] && env.budget > 0
    ensures boundary < |msgs|
  {
    var segs := SegmentsIn(msgs, env);
    SegmentsAreASegmentation(msgs, env.threshold, env.maxSteps);
    OnlyCoveredSegmentsAreEvicted(msgs, segs, env.budget, CoveredKeys(segs, env.registry));
    segs[FirstRaw(msgs, segs, env.budget, CoveredKeys(segs, env.registry))].start
  }

  ghost predicate PrefixFails(msgs: seq<Message>, env: Env)
    requires msgs != [] && env.budget > 0
  {
    var boundary := EngagedBoundary(msgs, env);
    env.entries.None? || (boundary > 0 && !SpanHasNotes(env.entries.value,
                                                        BoundaryKey(SegmentsIn(msgs, env), boundary, 0)))
  }

  /** The coverage boundary this render applies. */
  ghost function CoverageStart(msgs: seq<Message>, env: Env): (start: nat)
    requires env.budget > 0
    ensures start <= |msgs|
  {
    if msgs == [] || !env.engaged || PrefixFails(msgs, env) then 0 else EngagedBoundary(msgs, env)
  }

  /** The first rendered message: a later committed summary is a floor. */
  ghost function RenderStart(msgs: seq<Message>, env: Env): (start: nat)
    requires env.budget > 0
    ensures start <= |msgs|
  {
    if !env.notebookEnabled then 0
    else
      var summary := LastSummaryIndex(msgs, |msgs|);
      var start := CoverageStart(msgs, env);
      if msgs != [] then
        SegmentsAreASegmentation(msgs, env.threshold, env.maxSteps);
        if summary > start then summary else start
      else 0
  }

  // ---------------------------------------------------- which turns collapse

  /** The tag of message `i`: its turn if this render collapses it. */
  function TagOf(msgs: seq<Message>, i: nat, mode: Mode, collapse: Collapse): Option<nat>
    requires i < |msgs|
  {
    var turn := TurnOf(msgs, i);
    if mode == Summarize then if turn in collapse.summaries then Some(turn) else None
    else if collapse.frozen.Some? && turn in collapse.frozen.value then Some(turn)
    else None
  }

  function NoTags(n: nat): (tags: Tags) ensures |tags| == n { seq(n, _ => None) }

  function TagsFrom(msgs: seq<Message>, start: nat, mode: Mode, collapse: Collapse): (tags: Tags)
    requires start <= |msgs|
    ensures |tags| == |msgs| - start
  {
    seq(|msgs| - start, i requires 0 <= i < |msgs| - start => TagOf(msgs, start + i, mode, collapse))
  }

  /** Collapse is applied only when it is on, a covered turn is known, the note
      prefix stood, and a pointer the render prints can be followed. */
  predicate Collapses(env: Env, collapse: Option<Collapse>, prefixFailed: bool) {
    && collapse.Some? && collapse.value.frozen.Some? && collapse.value.frozen.value != {} && !prefixFailed
    && (env.recallLive || env.mode == Summarize)
  }

  function MinTurn(msgs: seq<Message>, boundary: nat): nat {
    if msgs == [] then 0
    else if boundary < |msgs| then TurnOf(msgs, boundary)
    else TurnOf(msgs, |msgs| - 1) + 1
  }

  /** What freezing makes of a run's collapse state: untouched once frozen or while
      no turn is fully covered; otherwise exactly the covered turns, and under
      summarize the note texts of those that can still render. */
  ghost predicate FrozenFrom(out: Collapse, collapse: Collapse, segs: seq<Segment>, processed: set<Key>, minTurn: nat,
                             env: Env)
  {
    if collapse.frozen.Some? || forall turn :: !FullyCovered(segs, processed, collapse.before, turn) then
      out == collapse
    else
      && out.before == collapse.before && out.frozen.Some?
      && (forall turn :: turn in out.frozen.value <==> FullyCovered(segs, processed, collapse.before, turn))
      && (if env.mode == Summarize then
            && (forall turn :: turn in out.summaries <==>
                 turn in out.frozen.value && turn in env.texts && turn >= minTurn)
            && (forall turn :: turn in out.summaries ==> out.summaries[turn] == env.texts[turn])
          else out.summaries == collapse.summaries)
  }

  method Freeze(collapse: Collapse, msgs: seq<Message>, segs: seq<Segment>, processed: set<Key>, boundary: nat,
                env: Env)
    returns (out: Collapse)
    ensures FrozenFrom(out, collapse, segs, processed, MinTurn(msgs, boundary), env)
  {
    out := collapse;
    if collapse.frozen.None? {
      var covered := CoveredPriorTurns(segs, processed, collapse.before);
      if covered != {} {
        ghost var some :| some in covered;
        assert FullyCovered(segs, processed, collapse.before, some);
        out := out.(frozen := Some(covered));
        if env.mode == Summarize {
          var minTurn := MinTurn(msgs, boundary);
          var texts := map turn | turn in env.texts && turn in covered && turn >= minTurn :: env.texts[turn];
          out := out.(summaries := texts);
        }
      }
    }
  }

  // ------------------------------------------------------------ the request

  ghost function NotesFor(msgs: seq<Message>, env: Env): seq<ProviderMessage>
    requires msgs != [] && env.budget > 0
  {
    NotePrefix(env, if env.engaged then EngagedBoundary(msgs, env) else 0)
  }

  /** The part of a render that may move the boundary: detect, choose, freeze the
      collapse set, render the notes, and roll back when they cannot stand in. */
  method ChooseBoundary(msgs: seq<Message>, env: Env, collapse: Option<Collapse>)
    returns (boundary: nat, prefix: seq<ProviderMessage>, prefixFailed: bool, next: Option<Collapse>)
    requires env.budget > 0 && msgs != []
    ensures boundary == CoverageStart(msgs, env)
    ensures prefixFailed <==> env.engaged && PrefixFails(msgs, env)
    ensures prefix == NotesFor(msgs, env)
    ensures next.Some? <==> collapse.Some?
    ensures collapse.Some? && !env.engaged ==> next == collapse
    ensures collapse.Some? && env.engaged ==>
      FrozenFrom(next.value, collapse.value, SegmentsIn(msgs, env), CoveredKeys(SegmentsIn(msgs, env), env.registry),
                 MinTurn(msgs, EngagedBoundary(msgs, env)), env)
  {
    prefixFailed, next := false, collapse;
    var segs := SegmentBoundaries(msgs, env.threshold, env.maxSteps);
    SegmentsAreASegmentation(msgs, env.threshold, env.maxSteps);
    DistinctSegmentKeys(msgs, env.threshold, env.maxSteps);
    var processed, updated := DetectSegments(segs, env.registry, env.failing);
    if env.engaged {
      boundary := FindSegmentBoundaryByTokenBudget(msgs, env.budget, segs, processed);
      if next.Some? {
        var c := Freeze(next.value, msgs, segs, processed, boundary, env);
        next := Some(c);
      }
      prefix, prefixFailed := NotebookPrefix(env, boundary, BoundaryKey(segs, boundary, 0));
      if prefixFailed { boundary := 0; }
    } else {
      var failed;
      boundary := 0;
      prefix, failed := NotebookPrefix(env, 0, Key(0, 0));
    }
  }

  /** The note prefix of a request: at the boundary the budget and the coverage choose,
      even when a failure then rolls the window back. */
  ghost function PrefixOf(msgs: seq<Message>, env: Env): seq<ProviderMessage>
    requires env.budget > 0
  {
    if !env.notebookEnabled || msgs == [] then [] else NotesFor(msgs, env)
  }

  function SummariesOf(next: Option<Collapse>): map<nat, string> {
    if next.Some? then next.value.summaries else map[]
  }

  /** What one render makes of the run's collapse state. */
  ghost predicate CollapseStep(msgs: seq<Message>, env: Env, before: Collapse, after: Collapse)
    requires env.budget > 0
  {
    if !env.notebookEnabled || msgs == [] || !env.engaged then after == before
    else
      FrozenFrom(after, before, SegmentsIn(msgs, env), CoveredKeys(SegmentsIn(msgs, env), env.registry),
                 MinTurn(msgs, EngagedBoundary(msgs, env)), env)
  }

  ghost predicate RollsBack(msgs: seq<Message>, env: Env)
    requires env.budget > 0
  {
    env.notebookEnabled && msgs != [] && env.engaged && PrefixFails(msgs, env)
  }

  /** A render collapses exactly these messages, each under its own turn: unless it
      rolled back, and only once a covered turn is known, those whose turn is in the
      frozen set, or under summarize has a frozen text; and where it would print
      pointers, only while they can be followed. */
  ghost predicate CollapsesExactly(tags: Tags, msgs: seq<Message>, start: nat, env: Env, next: Option<Collapse>,
                                   rolledBack: bool)
  {
    && |tags| == |msgs| - start
    && (forall i :: 0 <= i < |tags| && tags[i].Some? ==> tags[i].value == TurnOf(msgs, start + i))
    && (forall i :: 0 <= i < |tags| ==>
          (tags[i].Some? <==>
            && next.Some? && next.value.frozen.Some? && next.value.frozen.value != {} && !rolledBack
            && (if env.mode == Summarize then TurnOf(msgs, start + i) in next.value.summaries
                else env.recallLive && TurnOf(msgs, start + i) in next.value.frozen.value)))
  }

  function TagsFor(msgs: seq<Message>, start: nat, env: Env, next: Option<Collapse>, rolledBack: bool): (tags: Tags)
    requires start <= |msgs|
    ensures |tags| == |msgs| - start
  {
    if Collapses(env, next, rolledBack) then TagsFrom(msgs, start, env.mode, next.value) else NoTags(|msgs| - start)
  }

  lemma TagsTell(msgs: seq<Message>, start: nat, env: Env, next: Option<Collapse>, rolledBack: bool)
    requires start <= |msgs|
    ensures CollapsesExactly(TagsFor(msgs, start, env, next, rolledBack), msgs, start, env, next, rolledBack)
  {
    var tags := TagsFor(msgs, start, env, next, rolledBack);
    if Collapses(env, next, rolledBack) {
      forall i | 0 <= i < |tags| ensures tags[i] == TagOf(msgs, start + i, env.mode, next.value) {}
    }
  }

  /** The window, before anything is rendered. */
  method ChooseWindow(msgs: seq<Message>, env: Env, collapse: Option<Collapse>)
    returns (w: seq<Message>, start: nat, prefix: seq<ProviderMessage>, prefixFailed: bool, next: Option<Collapse>)
    requires env.budget > 0
    ensures next.Some? <==> collapse.Some?
    ensures collapse.Some? ==> CollapseStep(msgs, env, collapse.value, next.value)
    ensures start == RenderStart(msgs, env) && prefix == PrefixOf(msgs, env) && prefixFailed == RollsBack(msgs, env)
    ensures w == if env.notebookEnabled then Window(msgs, start) else msgs[start..]
  {
    prefix, prefixFailed, start, w, next := [], false, 0, msgs, collapse;
    if env.notebookEnabled {
      if msgs != [] {
        start, prefix, prefixFailed, next := ChooseBoundary(msgs, env, collapse);
      }
      var summary := LastSummaryIndex(msgs, |msgs|);
      if summary > start { start := summary; }
      w := msgs[start..];
      if |w| > 0 && w[0].isSummary {
        w := [w[0].(role := User)] + w[1..];
      }
    }
  }

  /** Returns the request's history and the run's collapse state. `start` and
      `tags` name the window and the collapsed turns the render settled on. */
  method Prepare(msgs: seq<Message>, env: Env, collapse: Option<Collapse>)
    returns (history: seq<ProviderMessage>, next: Option<Collapse>, ghost start: nat, ghost tags: Tags,
             ghost prefix: seq<ProviderMessage>)
    requires env.budget > 0
    ensures next.Some? <==> collapse.Some?
    ensures collapse.Some? ==> CollapseStep(msgs, env, collapse.value, next.value)
    ensures start == RenderStart(msgs, env) && |tags| == |msgs| - start
    ensures prefix == PrefixOf(msgs, env)
    ensures CollapsesExactly(tags, msgs, start, env, next, RollsBack(msgs, env))
    ensures var w := if env.notebookEnabled then Window(msgs, start) else msgs[start..];
      history == prefix + RenderedHistory(w, tags, Config(env.mode, env.stubs && env.recallLive, SummariesOf(next)))
  {
    var w, rawStart, pre, prefixFailed;
    w, rawStart, pre, prefixFailed, next := ChooseWindow(msgs, env, collapse);
    var collapsed := TagsFor(msgs, rawStart, env, next, prefixFailed);
    var cfg := Config(env.mode, env.stubs && env.recallLive, SummariesOf(next));
    TagsTell(msgs, rawStart, env, next, prefixFailed);
    TagsAreTagged(w, msgs, rawStart, collapsed, cfg, next);
    var rendered := RenderWindow(w, collapsed, cfg);
    history := pre + rendered;
    prefix, start, tags := pre, rawStart, collapsed;
  }

  lemma TagsAreTagged(w: seq<Message>, msgs: seq<Message>, start: nat, tags: Tags, cfg: Config, next: Option<Collapse>)
    requires start <= |msgs| && |w| == |msgs| - start
    requires tags == NoTags(|w|) || (next.Some? && tags == TagsFrom(msgs, start, cfg.mode, next.value))
    requires cfg.summaries == SummariesOf(next)
    ensures Tagged(w, tags, cfg)
  {
    if cfg.mode == Summarize {
      forall i | 0 <= i < |tags| && tags[i].Some? ensures tags[i].value in cfg.summaries {
        assert tags[i] == TagOf(msgs, start + i, cfg.mode, next.value);
      }
    }
  }

  lemma DistinctSegmentKeys(msgs: seq<Message>, threshold: nat, maxSteps: nat)
    requires msgs != []
    ensures DistinctKeys(SegmentsOf(msgs, threshold, maxSteps))
  {
    SegmentsPartition(msgs, threshold, maxSteps, 0);
  }

  // ------------------------------------------------- what a request promises

  /** Message `j` lies in a closed segment whose coverage is committed for exactly
      its extent. */
  ghost predicate InCoveredSegment(msgs: seq<Message>, env: Env, j: nat) {
    exists k :: 0 <= k < |SegmentsIn(msgs, env)| && HoldsCovered(SegmentsIn(msgs, env)[k], env.registry, j)
  }

  predicate HoldsCovered(s: Segment, registry: Registry, j: nat) {
    !s.open && s.start <= j < s.end && Covers(registry, s)
  }

  lemma StartsInOrder(msgs: seq<Message>, segs: seq<Segment>, j: nat, k: nat)
    requires Segmentation(msgs, segs) && j < |segs| && k < |segs|
    ensures j <= k ==> segs[j].start <= segs[k].start
  {
    if j < k { StartsAscend(msgs, segs, j, k); }
  }

  /** Every message left out of a request lies before a committed summary, or in a
      segment that is covered for exactly its extent while a note stands for the
      span. */
  lemma NothingIsEvictedUncovered(msgs: seq<Message>, env: Env, j: nat)
    requires env.budget > 0 && j < RenderStart(msgs, env)
    ensures
      || (exists s: nat :: s < |msgs| && j < s && s == RenderStart(msgs, env) && SummaryCommitted(msgs[s]))
      || (&& InCoveredSegment(msgs, env, j)
          && env.entries.Some?
          && SpanHasNotes(env.entries.value, BoundaryKey(SegmentsIn(msgs, env), CoverageStart(msgs, env), 0)))
  {
    var start := CoverageStart(msgs, env);
    if RenderStart(msgs, env) == start {
      var segs := SegmentsIn(msgs, env);
      var covered := CoveredKeys(segs, env.registry);
      SegmentsAreASegmentation(msgs, env.threshold, env.maxSteps);
      OnlyCoveredSegmentsAreEvicted(msgs, segs, env.budget, covered);
      DistinctSegmentKeys(msgs, env.threshold, env.maxSteps);
      SegmentsPartition(msgs, env.threshold, env.maxSteps, j);
      var k :| 0 <= k < |segs| && segs[k].start <= j < segs[k].end;
      var raw := FirstRaw(msgs, segs, env.budget, covered);
      StartsInOrder(msgs, segs, raw, k);
      assert k < raw;
      CoveredKeyIsExact(segs, env.registry, k);
      assert HoldsCovered(segs[k], env.registry, j);
    }
  }

  /** A failed or empty note prefix evicts nothing, and neither does a render that
      is not engaged: only a committed summary may then shorten the window. */
  lemma FailedPrefixEvictsNothing(msgs: seq<Message>, env: Env)
    requires env.budget > 0
    requires msgs != [] ==> !env.engaged || PrefixFails(msgs, env)
    ensures RenderStart(msgs, env) == if env.notebookEnabled then Max(0, LastSummaryIndex(msgs, |msgs|)) else 0
  {
  }

  /** The open tail is always rendered, unless a summary inside it is the floor. */
  lemma OpenTailIsRaw(msgs: seq<Message>, env: Env)
    requires env.budget > 0 && msgs != [] && LastSummaryIndex(msgs, |msgs|) < 0
    ensures var segs := SegmentsIn(msgs, env);
      && RenderStart(msgs, env) <= segs[|segs| - 1].start
      && exists k :: 0 <= k < |segs| && segs[k].start == RenderStart(msgs, env)
  {
    var segs := SegmentsIn(msgs, env);
    var covered := CoveredKeys(segs, env.registry);
    SegmentsAreASegmentation(msgs, env.threshold, env.maxSteps);
    OnlyCoveredSegmentsAreEvicted(msgs, segs, env.budget, covered);
    var raw := FirstRaw(msgs, segs, env.budget, covered);
    if raw < |segs| - 1 { StartsAscend(msgs, segs, raw, |segs| - 1); }
    assert segs[0].start == 0;
    if CoverageStart(msgs, env) != 0 { assert segs[raw].start == CoverageStart(msgs, env); }
  }

  /** The window never starts in front of the newest committed summary, and starts
      nowhere else than there or at the coverage boundary. */
  lemma SummaryIsAFloor(msgs: seq<Message>, env: Env)
    requires env.budget > 0 && env.notebookEnabled && msgs != []
    ensures RenderStart(msgs, env) == Max(CoverageStart(msgs, env), LastSummaryIndex(msgs, |msgs|))
  {
    SegmentsAreASegmentation(msgs, env.threshold, env.maxSteps);
  }

  lemma ShorterWindow(msgs: seq<Message>, from: nat, to: nat)
    requires from <= to <= |msgs|
    ensures RawChars(msgs[to..]) <= RawChars(msgs[from..])
  {
    RawCharsConcat(msgs[from..to], msgs[to..]);
    assert msgs[from..] == msgs[from..to] + msgs[to..];
  }

  /** What is covered does leave: in an engaged render whose notes stand, if nothing in
      front of the budget's choice lacks coverage, the window fits the larger of budget
      and open tail, but for less than one token a segment. */
  lemma WindowFitsTheBudget(msgs: seq<Message>, env: Env)
    requires env.budget > 0 && env.notebookEnabled && env.engaged && msgs != [] && !PrefixFails(msgs, env)
    requires Inside(msgs, SegmentsIn(msgs, env))
    requires var segs := SegmentsIn(msgs, env);
      forall k :: 0 <= k < BudgetFrom(msgs, segs, env.budget, |segs|) ==> Covers(env.registry, segs[k])
    ensures var segs := SegmentsIn(msgs, env);
      && segs != []
      && RawChars(msgs[RenderStart(msgs, env)..]) / 4 <
           Max(env.budget, SegmentEstimate(msgs, segs[|segs| - 1])) + |segs|
  {
    var segs := SegmentsIn(msgs, env);
    var covered := CoveredKeys(segs, env.registry);
    var k := BudgetFrom(msgs, segs, env.budget, |segs|);
    SegmentsAreASegmentation(msgs, env.threshold, env.maxSteps);
    forall j | 0 <= j < k ensures segs[j].Id() in covered { assert segs[j] in segs; }
    OnlyCoveredSegmentsAreEvicted(msgs, segs, env.budget, covered);
    assert EngagedBoundary(msgs, env) == segs[k].start;
    WindowEstimate(msgs, segs, env.budget);
    SummaryIsAFloor(msgs, env);
    ShorterWindow(msgs, segs[k].start, RenderStart(msgs, env));
    assert |segs| - k <= |segs|;
  }

  /** Notes render as system and user messages. */
  predicate NotesOnly(prefix: seq<ProviderMessage>) {
    forall k :: 0 <= k < |prefix| ==> prefix[k].SystemMsg? || prefix[k].UserMsg?
  }

  lemma {:induction false} PairedBehindPrefix(prefix: seq<ProviderMessage>, h: seq<ProviderMessage>)
    requires NotesOnly(prefix) && Paired(h)
    ensures Paired(prefix + h)
  {
    forall k | 0 <= k < |prefix + h| ensures PairedAt(prefix + h, k) {
      if k >= |prefix| { assert PairedAt(h, k - |prefix|); }
    }
  }

  /** Whatever the transcript, the window and the mode, the request a provider
      gets keeps every call next to its results. */
  method PrepareIsPaired(msgs: seq<Message>, env: Env, collapse: Option<Collapse>)
    returns (history: seq<ProviderMessage>)
    requires env.budget > 0 && NotesOnly(env.prefix)
    ensures Paired(history)
  {
    var next;
    ghost var start, tags, prefix;
    history, next, start, tags, prefix := Prepare(msgs, env, collapse);
    ghost var w := if env.notebookEnabled then Window(msgs, start) else msgs[start..];
    ghost var cfg := Config(env.mode, env.stubs && env.recallLive, SummariesOf(next));
    RenderIsPaired(w, tags, cfg);
    PairedBehindPrefix(prefix, RenderedHistory(w, tags, cfg));
  }
}
