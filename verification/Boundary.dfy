/** Where the raw window of a request starts: the token budget, the coverage that
    lets a segment be evicted, and the promotion of superseded stubs. */
module Boundary {
  import opened Transcript
  import opened Segments
  import opened SegmentProperties

  // ----------------------------------------------------------- raw estimate

  /** Unlike segmentation, the window estimate counts what the model will see:
      an applied stub counts by its own length. */
  function RawPartChars(p: Part): nat {
    if p.ResultPart? && p.result.superseded.Some? && p.result.superseded.value.applied
    then |p.result.superseded.value.stubText|
    else PartChars(p)
  }

  function RawPartsChars(parts: seq<Part>): nat {
    if parts == [] then 0 else RawPartsChars(parts[..|parts| - 1]) + RawPartChars(parts[|parts| - 1])
  }

  function RawChars(msgs: seq<Message>): nat {
    if msgs == [] then 0 else RawChars(msgs[..|msgs| - 1]) + RawPartsChars(msgs[|msgs| - 1].parts)
  }

  /** One estimate for the whole slice, rounded down once. */
  method EstimateRawMessageTokens(msgs: seq<Message>) returns (tokens: nat)
    ensures tokens == RawChars(msgs) / 4
  {
    var total: nat := 0;
    for i := 0 to |msgs|
      invariant total == RawChars(msgs[..i])
    {
      assert msgs[..i + 1][..i] == msgs[..i];
      var parts, before := msgs[i].parts, total;
      for j := 0 to |parts|
        invariant total == before + RawPartsChars(parts[..j])
      {
        assert parts[..j + 1][..j] == parts[..j];
        total := total + RawPartChars(parts[j]);
      }
      assert parts[..|parts|] == parts;
    }
    assert msgs[..|msgs|] == msgs;
    tokens := total / 4;
  }

  lemma {:induction false} RawCharsConcat(a: seq<Message>, b: seq<Message>)
    ensures RawChars(a + b) == RawChars(a) + RawChars(b)
  {
    if b == [] {
      assert a + b == a;
    } else {
      var n := |b| - 1;
      RawCharsConcat(a, b[..n]);
      assert (a + b)[..|a + b| - 1] == a + b[..n];
    }
  }

  // ------------------------------------------------------- the budget boundary

  /** Segments of this transcript, each inside it. */
  predicate Inside(msgs: seq<Message>, segs: seq<Segment>) {
    forall k :: 0 <= k < |segs| ==> segs[k].start <= segs[k].end <= |msgs|
  }

  function SegmentEstimate(msgs: seq<Message>, s: Segment): nat
    requires s.start <= s.end <= |msgs|
  {
    RawChars(msgs[s.start..s.end]) / 4
  }

  /** Summed estimates of the segments from `k` on. */
  function SumFrom(msgs: seq<Message>, segs: seq<Segment>, k: nat): nat
    requires k <= |segs| && Inside(msgs, segs)
    decreases |segs| - k
  {
    if k == |segs| then 0 else SegmentEstimate(msgs, segs[k]) + SumFrom(msgs, segs, k + 1)
  }

  /** Walking back from the tail, the first segment the budget still takes. */
  function BudgetFrom(msgs: seq<Message>, segs: seq<Segment>, budget: int, i: nat): (k: nat)
    requires i <= |segs| && Inside(msgs, segs)
    ensures k <= i
  {
    if i == 0 then 0
    else if !segs[i - 1].open && SumFrom(msgs, segs, i) + SegmentEstimate(msgs, segs[i - 1]) > budget then i
    else BudgetFrom(msgs, segs, budget, i - 1)
  }

  /** The first segment below `limit` without coverage, or `limit`. */
  function FirstUncovered(segs: seq<Segment>, processed: set<Key>, k: nat, limit: nat): (r: nat)
    requires k <= limit <= |segs|
    ensures k <= r <= limit
    ensures forall j :: k <= j < r ==> segs[j].Id() in processed
    ensures r < limit ==> segs[r].Id() !in processed
    decreases limit - k
  {
    if k == limit || segs[k].Id() !in processed then k else FirstUncovered(segs, processed, k + 1, limit)
  }

  /** The index of the first raw segment. */
  function FirstRaw(msgs: seq<Message>, segs: seq<Segment>, budget: int, processed: set<Key>): (k: nat)
    requires Inside(msgs, segs)
    ensures k <= |segs|
  {
    FirstUncovered(segs, processed, 0, BudgetFrom(msgs, segs, budget, |segs|))
  }

  /** What segmentation guarantees about its result. */
  ghost predicate Segmentation(msgs: seq<Message>, segs: seq<Segment>) {
    && segs != [] && segs[0].start == 0 && Inside(msgs, segs)
    && (forall k :: 0 <= k < |segs| ==> segs[k].start < segs[k].end && (segs[k].open <==> k == |segs| - 1))
    && (forall k :: 0 <= k < |segs| - 1 ==> segs[k].end == segs[k + 1].start)
    && segs[|segs| - 1].end == |msgs|
  }

  lemma SegmentsAreASegmentation(msgs: seq<Message>, threshold: nat, maxSteps: nat)
    requires msgs != []
    ensures Segmentation(msgs, SegmentsOf(msgs, threshold, maxSteps))
  {
    var segs := SegmentsOf(msgs, threshold, maxSteps);
    Greedy(msgs, threshold, maxSteps);
    forall k | 0 <= k < |segs|
      ensures segs[k].start < segs[k].end <= |msgs| && (segs[k].open <==> k == |segs| - 1)
      ensures k < |segs| - 1 ==> segs[k].end == segs[k + 1].start
      ensures k == |segs| - 1 ==> segs[k].end == |msgs|
    {
      assert WellCut(msgs, threshold, maxSteps, segs, k);
    }
  }

  lemma {:induction false} StartsAscend(msgs: seq<Message>, segs: seq<Segment>, j: nat, k: nat)
    requires Segmentation(msgs, segs) && j < k < |segs|
    ensures segs[j].end <= segs[k].start
    decreases k
  {
    if j < k - 1 { StartsAscend(msgs, segs, j, k - 1); }
  }

  lemma {:induction false} BudgetLeavesTail(msgs: seq<Message>, segs: seq<Segment>, budget: int, i: nat)
    requires Segmentation(msgs, segs) && i <= |segs|
    ensures BudgetFrom(msgs, segs, budget, i) < |segs|
  {
    if i > 0 { BudgetLeavesTail(msgs, segs, budget, i - 1); }
  }

  method FindSegmentBoundaryByTokenBudget(msgs: seq<Message>, tokenBudget: int, segs: seq<Segment>, processed: set<Key>)
    returns (boundary: nat)
    requires msgs != [] ==> Segmentation(msgs, segs)
    requires msgs == [] ==> segs == []
    ensures tokenBudget <= 0 || segs == [] ==> boundary == 0
    ensures tokenBudget > 0 && segs != [] ==>
      && FirstRaw(msgs, segs, tokenBudget, processed) < |segs|
      && boundary == segs[FirstRaw(msgs, segs, tokenBudget, processed)].start
  {
    if tokenBudget <= 0 || segs == [] { return 0; }
    boundary := 0;
    var accumulated: nat := 0;
    var i := |segs|;
    ghost var first := BudgetFrom(msgs, segs, tokenBudget, |segs|);
    BudgetLeavesTail(msgs, segs, tokenBudget, |segs|);
    while i > 0
      invariant 0 <= i <= |segs|
      invariant accumulated == SumFrom(msgs, segs, i)
      invariant BudgetFrom(msgs, segs, tokenBudget, i) == first
      invariant i < |segs| ==> boundary == segs[i].start
    {
      var s := segs[i - 1];
      var tokens := EstimateRawMessageTokens(msgs[s.start..s.end]);
      if !s.open && accumulated + tokens > tokenBudget {
        boundary := s.end;
        break;
      }
      boundary := s.start;
      accumulated := accumulated + tokens;
      i := i - 1;
    }
    assert boundary == segs[first].start;
    boundary := PullBack(segs, processed, boundary, msgs, first);
  }

  /** Pulls the boundary back to the first segment in front of it without coverage. */
  method PullBack(segs: seq<Segment>, processed: set<Key>, boundary: nat, ghost msgs: seq<Message>, ghost first: nat)
    returns (covered: nat)
    requires Segmentation(msgs, segs) && first < |segs| && boundary == segs[first].start
    ensures covered == segs[FirstUncovered(segs, processed, 0, first)].start
  {
    PullBackCovers(msgs, segs, processed, first);
    for k := 0 to |segs|
      invariant k <= first
      invariant FirstUncovered(segs, processed, 0, first) == FirstUncovered(segs, processed, k, first)
    {
      var s := segs[k];
      StopsAtFirst(msgs, segs, k, first);
      if s.open || s.end > boundary { return boundary; }
      if s.Id() !in processed { return s.start; }
    }
    return boundary;
  }

  lemma StopsAtFirst(msgs: seq<Message>, segs: seq<Segment>, k: nat, first: nat)
    requires Segmentation(msgs, segs) && k <= first < |segs|
    ensures segs[k].open || segs[k].end > segs[first].start <==> k == first
  {
    if k < first { StartsAscend(msgs, segs, k, first); }
  }

  lemma PullBackCovers(msgs: seq<Message>, segs: seq<Segment>, processed: set<Key>, first: nat)
    requires Segmentation(msgs, segs) && first < |segs|
    ensures FirstUncovered(segs, processed, first, first) == first
  {
  }

  // ------------------------------------------------ what the boundary promises

  /** Everything in front of the boundary is closed and covered, and the boundary
      was pulled back only to a segment that is not. */
  lemma OnlyCoveredSegmentsAreEvicted(msgs: seq<Message>, segs: seq<Segment>, budget: int, processed: set<Key>)
    requires Segmentation(msgs, segs)
    ensures var raw := FirstRaw(msgs, segs, budget, processed);
      && raw < |segs|
      && (forall k :: 0 <= k < raw ==> !segs[k].open && segs[k].Id() in processed)
      && (raw == BudgetFrom(msgs, segs, budget, |segs|) <==>
            forall k :: 0 <= k < BudgetFrom(msgs, segs, budget, |segs|) ==> segs[k].Id() in processed)
  {
    BudgetLeavesTail(msgs, segs, budget, |segs|);
  }

  function Max(a: int, b: int): int { if a < b then b else a }

  lemma {:induction false} BudgetHolds(msgs: seq<Message>, segs: seq<Segment>, budget: int, i: nat)
    requires Segmentation(msgs, segs) && i <= |segs|
    requires var tail := SegmentEstimate(msgs, segs[|segs| - 1]);
      i < |segs| ==> SumFrom(msgs, segs, i) <= Max(budget, tail)
    ensures var k, tail := BudgetFrom(msgs, segs, budget, i), SegmentEstimate(msgs, segs[|segs| - 1]);
      && (k < |segs| ==> SumFrom(msgs, segs, k) <= Max(budget, tail))
      && (k > 0 ==> SumFrom(msgs, segs, k) + SegmentEstimate(msgs, segs[k - 1]) > budget)
  {
    if i > 0 && !(!segs[i - 1].open && SumFrom(msgs, segs, i) + SegmentEstimate(msgs, segs[i - 1]) > budget) {
      assert i == |segs| ==> SumFrom(msgs, segs, i - 1) == SegmentEstimate(msgs, segs[i - 1]) + SumFrom(msgs, segs, i);
      BudgetHolds(msgs, segs, budget, i - 1);
    }
  }

  /** Without a pull-back the raw segments fit the budget, or are the open tail
      alone, and one segment more would not fit. */
  lemma BudgetIsTight(msgs: seq<Message>, segs: seq<Segment>, budget: int)
    requires Segmentation(msgs, segs)
    ensures var k, tail := BudgetFrom(msgs, segs, budget, |segs|), SegmentEstimate(msgs, segs[|segs| - 1]);
      && k < |segs|
      && SumFrom(msgs, segs, k) <= Max(budget, tail)
      && (k > 0 ==> SumFrom(msgs, segs, k) + SegmentEstimate(msgs, segs[k - 1]) > budget)
  {
    BudgetLeavesTail(msgs, segs, budget, |segs|);
    BudgetHolds(msgs, segs, budget, |segs|);
  }

  lemma {:induction false} WindowChars(msgs: seq<Message>, segs: seq<Segment>, k: nat)
    requires Segmentation(msgs, segs) && k < |segs|
    ensures RawChars(msgs[segs[k].start..]) <= 4 * SumFrom(msgs, segs, k) + 3 * (|segs| - k)
    decreases |segs| - k
  {
    var s := segs[k];
    var head := RawChars(msgs[s.start..s.end]);
    assert head <= 4 * (head / 4) + 3;
    if k + 1 < |segs| {
      WindowChars(msgs, segs, k + 1);
      RawCharsConcat(msgs[s.start..s.end], msgs[s.end..]);
      assert msgs[s.start..] == msgs[s.start..s.end] + msgs[s.end..];
    } else {
      assert msgs[s.start..] == msgs[s.start..s.end];
      assert SumFrom(msgs, segs, k + 1) == 0;
    }
  }

  /** Estimating the window at once instead of segment by segment adds less than
      one token for each raw segment. */
  lemma WindowEstimate(msgs: seq<Message>, segs: seq<Segment>, budget: int)
    requires Segmentation(msgs, segs)
    ensures var k, tail := BudgetFrom(msgs, segs, budget, |segs|), SegmentEstimate(msgs, segs[|segs| - 1]);
      k < |segs| && RawChars(msgs[segs[k].start..]) / 4 < Max(budget, tail) + (|segs| - k)
  {
    BudgetIsTight(msgs, segs, budget);
    WindowChars(msgs, segs, BudgetFrom(msgs, segs, budget, |segs|));
  }

  // ----------------------------------------------------------------- coverage

  datatype State = Unprocessed | Processed

  /** A registry row: the extent that was recorded, and whether notes for exactly
      that extent were committed. */
  datatype Row = Row(start: nat, end: nat, state: State)

  type Registry = map<Key, Row>

  predicate Covers(registry: Registry, s: Segment) {
    s.Id() in registry && registry[s.Id()] == Row(s.start, s.end, Processed)
  }

  function CoveredKeys(segs: seq<Segment>, registry: Registry): set<Key> {
    set s | s in segs && Covers(registry, s) :: s.Id()
  }

  predicate DistinctKeys(segs: seq<Segment>) {
    forall j, k :: 0 <= j < k < |segs| ==> segs[j].Id() != segs[k].Id()
  }

  function RecordClose(registry: Registry, s: Segment): Registry {
    if s.Id() in registry && registry[s.Id()].state == Processed then registry
    else registry[s.Id() := Row(s.start, s.end, Unprocessed)]
  }

  /** The registry after a detection pass: every closed segment that was new or
      had drifted while unprocessed is recorded, unless its write failed. */
  function Recorded(segs: seq<Segment>, registry: Registry, failing: set<Key>): Registry {
    if segs == [] then registry
    else
      var before, s := Recorded(segs[..|segs| - 1], registry, failing), segs[|segs| - 1];
      if s.open || s.Id() in failing then before else RecordClose(before, s)
  }

  lemma {:induction false} RecordedKeepsOthers(segs: seq<Segment>, registry: Registry, failing: set<Key>, key: Key)
    requires forall s :: s in segs ==> s.Id() != key
    ensures key in Recorded(segs, registry, failing) <==> key in registry
    ensures key in registry ==> Recorded(segs, registry, failing)[key] == registry[key]
  {
    if segs != [] {
      assert segs == segs[..|segs| - 1] + [segs[|segs| - 1]];
      RecordedKeepsOthers(segs[..|segs| - 1], registry, failing, key);
    }
  }

  /** Recording never takes coverage away and never grants it. */
  lemma {:induction false} RecordingKeepsCoverage(segs: seq<Segment>, registry: Registry, failing: set<Key>, key: Key)
    ensures (key in registry && registry[key].state == Processed) <==>
            (key in Recorded(segs, registry, failing) && Recorded(segs, registry, failing)[key].state == Processed)
    ensures key in registry && registry[key].state == Processed ==>
      Recorded(segs, registry, failing)[key] == registry[key]
  {
    if segs != [] { RecordingKeepsCoverage(segs[..|segs| - 1], registry, failing, key); }
  }

  /** The extent-checked coverage of one detection pass. A processed row whose
      extent is not the segment's extent does not count. */
  method DetectSegments(segs: seq<Segment>, registry: Registry, failing: set<Key>)
    returns (processed: set<Key>, updated: Registry)
    requires DistinctKeys(segs)
    ensures processed == CoveredKeys(segs, registry)
    ensures updated == Recorded(segs, registry, failing)
  {
    processed, updated := {}, registry;
    for i := 0 to |segs|
      invariant processed == CoveredKeys(segs[..i], registry)
      invariant updated == Recorded(segs[..i], registry, failing)
    {
      assert segs[..i + 1][..i] == segs[..i];
      assert segs[..i + 1] == segs[..i] + [segs[i]];
      RecordedKeepsOthers(segs[..i], registry, failing, segs[i].Id());
      var s, key := segs[i], segs[i].Id();
      if s.open {
        if key in updated && updated[key].state == Processed && updated[key].start == s.start &&
          updated[key].end == s.end {
          processed := processed + {key};
        }
      } else if key !in updated {
        if key !in failing { updated := updated[key := Row(s.start, s.end, Unprocessed)]; }
      } else if updated[key].state == Unprocessed {
        if updated[key].start != s.start || updated[key].end != s.end {
          if key !in failing { updated := updated[key := Row(s.start, s.end, Unprocessed)]; }
        }
      } else if updated[key].start == s.start && updated[key].end == s.end {
        processed := processed + {key};
      }
    }
    assert segs[..|segs|] == segs;
  }

  lemma CoveredKeyIsExact(segs: seq<Segment>, registry: Registry, k: nat)
    requires DistinctKeys(segs) && k < |segs|
    ensures segs[k].Id() in CoveredKeys(segs, registry) <==> Covers(registry, segs[k])
  {
    if segs[k].Id() in CoveredKeys(segs, registry) {
      var s :| s in segs && Covers(registry, s) && s.Id() == segs[k].Id();
      var j :| 0 <= j < |segs| && segs[j] == s;
    }
  }

  // --------------------------------------------------- turns that may collapse

  /** A turn before `before` with a segment here and none without coverage. */
  predicate FullyCovered(segs: seq<Segment>, processed: set<Key>, before: nat, turn: nat) {
    && turn < before
    && (exists s :: s in segs && s.turn == turn)
    && (forall s :: s in segs && s.turn == turn ==> s.Id() in processed)
  }

  method CoveredPriorTurns(segs: seq<Segment>, processed: set<Key>, before: nat) returns (covered: set<nat>)
    ensures forall turn :: turn in covered <==> FullyCovered(segs, processed, before, turn)
  {
    var fully: map<nat, bool> := map[];
    for i := 0 to |segs|
      invariant forall turn :: turn in fully <==> turn < before && exists s :: s in segs[..i] && s.turn == turn
      invariant forall turn :: turn in fully ==>
        (fully[turn] <==> forall s :: s in segs[..i] && s.turn == turn ==> s.Id() in processed)
    {
      assert segs[..i + 1] == segs[..i] + [segs[i]];
      var s := segs[i];
      if s.turn < before {
        if s.turn !in fully { fully := fully[s.turn := true]; }
        if s.Id() !in processed { fully := fully[s.turn := false]; }
      }
    }
    assert segs[..|segs|] == segs;
    covered := set turn | turn in fully && fully[turn];
  }

  // ------------------------------------------------------- promotion of stubs

  const RECENT_GUARD := 2

  function SegmentIndex(segs: seq<Segment>, i: nat, k: nat): nat
    requires k <= |segs|
  {
    if k == 0 then 0 else if segs[k - 1].start <= i < segs[k - 1].end then k - 1 else SegmentIndex(segs, i, k - 1)
  }

  /** A result with a mark that waits to be applied. */
  predicate Pending(p: Part) {
    p.ResultPart? && p.result.superseded.Some? && !p.result.superseded.value.applied && !p.result.isError
  }

  predicate HasPending(parts: seq<Part>) { exists k :: 0 <= k < |parts| && Pending(parts[k]) }

  function WithApplied(p: Part, applied: bool): Part
    requires p.ResultPart? && p.result.superseded.Some?
  {
    ResultPart(p.result.(superseded := Some(p.result.superseded.value.(applied := applied))))
  }

  function ApplyMarks(parts: seq<Part>): (out: seq<Part>)
    ensures |out| == |parts|
    ensures forall k :: 0 <= k < |parts| ==>
      out[k] == if Pending(parts[k]) then WithApplied(parts[k], true) else parts[k]
  {
    seq(|parts|, k requires 0 <= k < |parts| => if Pending(parts[k]) then WithApplied(parts[k], true) else parts[k])
  }

  /** The last of the stored results for this call. */
  function LastFor(stored: seq<Result>, id: string): Option<Result> {
    if stored == [] then None
    else if stored[|stored| - 1].callId == id then Some(stored[|stored| - 1])
    else LastFor(stored[..|stored| - 1], id)
  }

  /** A mark of the list and the stored mark of the same call, joined. */
  function Merged(p: Part, stored: Option<seq<Result>>): Part {
    if !p.ResultPart? || stored.None? then p
    else
      match LastFor(stored.value, p.result.callId)
      case None => p
      case Some(s) =>
        if s.superseded.None? then p
        else if p.result.superseded.None? then ResultPart(p.result.(superseded := s.superseded))
        else WithApplied(p, p.result.superseded.value.applied || s.superseded.value.applied)
  }

  /** Joins the marks of the stored version into a message about to be rewritten. */
  method MergeSupersededMarks(parts: seq<Part>, stored: Option<seq<Result>>) returns (out: seq<Part>)
    ensures |out| == |parts| && forall k :: 0 <= k < |parts| ==> out[k] == Merged(parts[k], stored)
  {
    if stored.None? { return parts; }
    var results, byCall := stored.value, map[];
    for i := 0 to |results|
      invariant forall id :: id in byCall <==> LastFor(results[..i], id).Some?
      invariant forall id :: id in byCall ==> LastFor(results[..i], id) == Some(byCall[id])
    {
      assert results[..i + 1][..i] == results[..i];
      byCall := byCall[results[i].callId := results[i]];
    }
    assert results[..|results|] == results;
    out := [];
    for j := 0 to |parts|
      invariant |out| == j && forall k :: 0 <= k < j ==> out[k] == Merged(parts[k], stored)
    {
      var p := parts[j];
      if p.ResultPart? && p.result.callId in byCall {
        var s := byCall[p.result.callId];
        if s.superseded.Some? {
          p := if p.result.superseded.None? then ResultPart(p.result.(superseded := s.superseded))
               else WithApplied(p, p.result.superseded.value.applied || s.superseded.value.applied);
        }
      }
      out := out + [p];
    }
  }

  /** A part of a promoted message: pending marks apply unless the write fails, and
      every other mark is joined with the stored one whether it fails or not. */
  function Promoted(p: Part, stored: Option<seq<Result>>, fails: bool): Part {
    if Pending(p) then (if fails then p else WithApplied(p, true)) else Merged(p, stored)
  }

  ghost predicate PromotedFrom(parts: seq<Part>, out: seq<Part>, stored: Option<seq<Result>>, fails: bool) {
    |out| == |parts| && forall k :: 0 <= k < |parts| ==> out[k] == Promoted(parts[k], stored, fails)
  }

  /** Takes the marks just applied back. */
  function Reverted(parts: seq<Part>, merged: seq<Part>): (out: seq<Part>)
    requires |merged| == |parts|
    requires forall k :: 0 <= k < |parts| && Pending(parts[k]) ==>
      merged[k].ResultPart? && merged[k].result.superseded.Some?
    ensures |out| == |parts|
    ensures forall k :: 0 <= k < |parts| ==>
      out[k] == if Pending(parts[k]) then WithApplied(merged[k], false) else merged[k]
  {
    seq(|parts|, k requires 0 <= k < |parts| => if Pending(parts[k]) then WithApplied(merged[k], false) else merged[k])
  }

  /** One message: apply its pending marks, join the stored ones, and take the
      applied ones back if the write fails. */
  method PromoteMessage(parts: seq<Part>, stored: Option<seq<Result>>, fails: bool)
    returns (out: seq<Part>, pending: bool)
    ensures pending <==> HasPending(parts)
    ensures pending ==> PromotedFrom(parts, out, stored, fails)
  {
    var flipped := ApplyMarks(parts);
    pending := flipped != parts;
    if !pending { return parts, false; }
    out := MergeSupersededMarks(flipped, stored);
    if fails { out := Reverted(parts, out); }
  }

  /** A tool message from the boundary on, behind the recency guard. */
  predicate Promotable(msgs: seq<Message>, boundary: nat, segs: seq<Segment>, i: nat)
    requires i < |msgs|
  {
    boundary <= i && msgs[i].role == Tool && SegmentIndex(segs, i, |segs|) + RECENT_GUARD < |segs|
  }

  function StoredNow(stored: map<nat, seq<Result>>, i: nat): Option<seq<Result>> {
    if i in stored then Some(stored[i]) else None
  }

  /** Applies pending marks in place. A message whose write fails keeps its pending
      marks unapplied. `stored` holds the results of each message as stored now, and
      lacks those that cannot be read; `failing` are the messages whose write fails. */
  method PromoteSupersededStubs(msgs: array<Message>, boundary: nat, segs: seq<Segment>,
                                stored: map<nat, seq<Result>>, failing: set<nat>)
    returns (persisted: bool)
    modifies msgs
    ensures forall i :: 0 <= i < msgs.Length ==>
      if Promotable(old(msgs[..]), boundary, segs, i) && HasPending(old(msgs[i]).parts)
      then msgs[i] == old(msgs[i]).(parts := msgs[i].parts) &&
        PromotedFrom(old(msgs[i]).parts, msgs[i].parts, StoredNow(stored, i), i in failing)
      else msgs[i] == old(msgs[i])
    ensures persisted <==>
      forall i :: 0 <= i < msgs.Length && i in failing && Promotable(old(msgs[..]), boundary, segs, i) ==>
        !HasPending(old(msgs[i]).parts)
    ensures SameStored(old(msgs[..]), msgs[..])
  {
    ghost var was := msgs[..];
    persisted := true;
    for i := 0 to msgs.Length
      invariant forall k :: i <= k < msgs.Length ==> msgs[k] == was[k]
      invariant forall k :: 0 <= k < i ==> PromotedAt(was, msgs[k], boundary, segs, stored, failing, k)
      invariant persisted <==>
        forall k :: 0 <= k < i && k in failing && Promotable(was, boundary, segs, k) ==> !HasPending(was[k].parts)
    {
      var m := msgs[i];
      if i >= boundary && m.role == Tool && SegmentIndex(segs, i, |segs|) + RECENT_GUARD < |segs| {
        var parts, pending := PromoteMessage(m.parts, StoredNow(stored, i), i in failing);
        if pending {
          if i in failing { persisted := false; }
          msgs[i] := m.(parts := parts);
        }
      }
    }
    forall i | 0 <= i < msgs.Length ensures SameContent(was[i], msgs[i]) {
      assert PromotedAt(was, msgs[i], boundary, segs, stored, failing, i);
    }
  }

  /** What a promotion leaves at `i`. */
  ghost predicate PromotedAt(was: seq<Message>, now: Message, boundary: nat, segs: seq<Segment>,
                             stored: map<nat, seq<Result>>,
                             failing: set<nat>, i: nat)
    requires i < |was|
  {
    if Promotable(was, boundary, segs, i) && HasPending(was[i].parts)
    then now == was[i].(parts := now.parts) && PromotedFrom(was[i].parts, now.parts, StoredNow(stored, i), i in failing)
    else now == was[i]
  }

  /** A promotion that lands loses no mark and unapplies none, neither of the list nor
      of what another writer had stored meanwhile. */
  lemma MarksOnlyGrow(p: Part, stored: Option<seq<Result>>)
    requires p.ResultPart?
    ensures var out := Promoted(p, stored, false);
      && out.ResultPart?
      && NoLess(p.result.superseded, out.result.superseded)
      && (stored.Some? && LastFor(stored.value, p.result.callId).Some? ==>
            NoLess(LastFor(stored.value, p.result.callId).value.superseded, out.result.superseded))
  {
  }

  predicate NoLess(a: Option<Mark>, b: Option<Mark>) { a.Some? ==> b.Some? && (a.value.applied ==> b.value.applied) }
}
