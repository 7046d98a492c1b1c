/** What the segmentation promises: it is the one greedy partition of the
    transcript, it never splits a call from its results except where the user
    spoke, and it does not move when messages are appended. */
module SegmentProperties {
  import opened Transcript
  import opened Segments

  // ------------------------------------------ an independent characterization

  /** Segment `k` starts where the one before it ends, is numbered after it, and
      closes at the first place that closes it. */
  ghost predicate WellCut(msgs: seq<Message>, threshold: nat, maxSteps: nat, segs: seq<Segment>, k: nat)
    requires k < |segs|
  {
    var s := segs[k];
    && s.start < s.end <= |msgs|
    && s.turn == TurnOf(msgs, s.start)
    && (s.open <==> k == |segs| - 1)
    && (s.open ==> s.end == |msgs|)
    && (!s.open ==>
          && s.end < |msgs| && ClosesAt(msgs, threshold, maxSteps, s.start, s.end)
          && k + 1 < |segs| && segs[k + 1].start == s.end && segs[k + 1].number == NextNumber(msgs, s.number, s.end))
    && forall c: nat :: s.start < c < s.end ==> !ClosesAt(msgs, threshold, maxSteps, s.start, c)
  }

  ghost predicate IsGreedyPartition(msgs: seq<Message>, threshold: nat, maxSteps: nat, segs: seq<Segment>) {
    && segs != [] && segs[0].start == 0 && segs[0].number == 0
    && forall k :: 0 <= k < |segs| ==> WellCut(msgs, threshold, maxSteps, segs, k)
  }

  lemma {:induction false} FromIsGreedy(msgs: seq<Message>, threshold: nat, maxSteps: nat, start: nat, number: nat,
                                        cut: nat)
    requires start < cut <= |msgs|
    requires forall c: nat :: start < c < cut ==> !ClosesAt(msgs, threshold, maxSteps, start, c)
    ensures var segs := SegmentsFrom(msgs, threshold, maxSteps, start, number, cut);
      && segs[0].start == start && segs[0].number == number
      && forall k :: 0 <= k < |segs| ==> WellCut(msgs, threshold, maxSteps, segs, k)
    decreases |msgs| - cut
  {
    if cut < |msgs| {
      if ClosesAt(msgs, threshold, maxSteps, start, cut) {
        var next := NextNumber(msgs, number, cut);
        FromIsGreedy(msgs, threshold, maxSteps, cut, next, cut + 1);
        var rest := SegmentsFrom(msgs, threshold, maxSteps, cut, next, cut + 1);
        var segs := SegmentsFrom(msgs, threshold, maxSteps, start, number, cut);
        forall k | 0 <= k < |segs| ensures WellCut(msgs, threshold, maxSteps, segs, k) {
          if k > 0 { assert WellCut(msgs, threshold, maxSteps, rest, k - 1); }
        }
      } else {
        FromIsGreedy(msgs, threshold, maxSteps, start, number, cut + 1);
      }
    }
  }

  lemma {:induction false} GreedyIsFrom(msgs: seq<Message>, threshold: nat, maxSteps: nat, segs: seq<Segment>, k: nat,
                                        cut: nat)
    requires forall j :: 0 <= j < |segs| ==> WellCut(msgs, threshold, maxSteps, segs, j)
    requires k < |segs| && segs[k].start < cut <= segs[k].end && cut <= |msgs|
    ensures segs[k..] == SegmentsFrom(msgs, threshold, maxSteps, segs[k].start, segs[k].number, cut)
    decreases |msgs| - cut
  {
    var s := segs[k];
    assert WellCut(msgs, threshold, maxSteps, segs, k);
    if cut < s.end {
      GreedyIsFrom(msgs, threshold, maxSteps, segs, k, cut + 1);
    } else if !s.open {
      assert WellCut(msgs, threshold, maxSteps, segs, k + 1);
      GreedyIsFrom(msgs, threshold, maxSteps, segs, k + 1, cut + 1);
      assert segs[k..] == [s] + segs[k + 1..];
    } else {
      assert segs[k..] == [s];
    }
  }

  /** The walk computes the greedy partition, and there is only one. */
  lemma SegmentsAreTheGreedyPartition(msgs: seq<Message>, threshold: nat, maxSteps: nat, segs: seq<Segment>)
    requires msgs != []
    ensures IsGreedyPartition(msgs, threshold, maxSteps, segs) <==> segs == SegmentsOf(msgs, threshold, maxSteps)
  {
    FromIsGreedy(msgs, threshold, maxSteps, 0, 0, 1);
    if IsGreedyPartition(msgs, threshold, maxSteps, segs) {
      assert WellCut(msgs, threshold, maxSteps, segs, 0);
      GreedyIsFrom(msgs, threshold, maxSteps, segs, 0, 1);
      assert segs[0..] == segs;
    }
  }

  lemma Greedy(msgs: seq<Message>, threshold: nat, maxSteps: nat)
    requires msgs != []
    ensures IsGreedyPartition(msgs, threshold, maxSteps, SegmentsOf(msgs, threshold, maxSteps))
  {
    SegmentsAreTheGreedyPartition(msgs, threshold, maxSteps, SegmentsOf(msgs, threshold, maxSteps));
  }

  // ------------------------------------------------- turns, keys and coverage

  lemma {:induction false} SameTurnWithin(msgs: seq<Message>, threshold: nat, maxSteps: nat, start: nat, i: nat)
    requires start <= i < |msgs|
    requires forall c: nat :: start < c <= i ==> !ClosesAt(msgs, threshold, maxSteps, start, c)
    ensures TurnOf(msgs, i) == TurnOf(msgs, start)
    decreases i
  {
    if start < i {
      SameTurnWithin(msgs, threshold, maxSteps, start, i - 1);
      assert !ClosesAt(msgs, threshold, maxSteps, start, i);
    }
  }

  /** Every message of a segment belongs to the segment's turn. */
  lemma SegmentHasOneTurn(msgs: seq<Message>, threshold: nat, maxSteps: nat, k: nat, i: nat)
    requires msgs != [] && k < |SegmentsOf(msgs, threshold, maxSteps)|
    requires var s := SegmentsOf(msgs, threshold, maxSteps)[k]; s.start <= i < s.end
    ensures i < |msgs| && TurnOf(msgs, i) == SegmentsOf(msgs, threshold, maxSteps)[k].turn
  {
    var segs := SegmentsOf(msgs, threshold, maxSteps);
    Greedy(msgs, threshold, maxSteps);
    assert WellCut(msgs, threshold, maxSteps, segs, k);
    SameTurnWithin(msgs, threshold, maxSteps, segs[k].start, i);
  }

  predicate KeyBefore(a: Key, b: Key) {
    a.turn < b.turn || (a.turn == b.turn && a.number < b.number)
  }

  lemma {:induction false} KeysAscend(msgs: seq<Message>, threshold: nat, maxSteps: nat, j: nat, k: nat)
    requires msgs != [] && j < k < |SegmentsOf(msgs, threshold, maxSteps)|
    ensures var segs := SegmentsOf(msgs, threshold, maxSteps);
      KeyBefore(segs[j].Id(), segs[k].Id()) && segs[j].end <= segs[k].start
    decreases k
  {
    var segs := SegmentsOf(msgs, threshold, maxSteps);
    Greedy(msgs, threshold, maxSteps);
    assert WellCut(msgs, threshold, maxSteps, segs, k - 1) && WellCut(msgs, threshold, maxSteps, segs, k);
    var s := segs[k - 1];
    SegmentHasOneTurn(msgs, threshold, maxSteps, k - 1, s.end - 1);
    assert TurnOf(msgs, s.end) == TurnOf(msgs, s.end - 1) + if msgs[s.end].role == User then 1 else 0;
    if j < k - 1 { KeysAscend(msgs, threshold, maxSteps, j, k - 1); }
  }

  /** The segments cover every message, once, in order, each non-empty, only the
      last open, under keys that never repeat. */
  lemma SegmentsPartition(msgs: seq<Message>, threshold: nat, maxSteps: nat, i: nat)
    requires i < |msgs|
    ensures var segs := SegmentsOf(msgs, threshold, maxSteps);
      && exists k :: 0 <= k < |segs| && segs[k].start <= i < segs[k].end
    ensures var segs := SegmentsOf(msgs, threshold, maxSteps);
      && forall j, k :: 0 <= j < k < |segs| ==>
           segs[j].end <= segs[k].start && segs[j].Id() != segs[k].Id() && !segs[j].open
  {
    var segs := SegmentsOf(msgs, threshold, maxSteps);
    Greedy(msgs, threshold, maxSteps);
    assert WellCut(msgs, threshold, maxSteps, segs, |segs| - 1);
    var k := FindSegment(msgs, threshold, maxSteps, i, |segs| - 1);
    forall j, k | 0 <= j < k < |segs|
      ensures segs[j].end <= segs[k].start && segs[j].Id() != segs[k].Id() && !segs[j].open
    {
      KeysAscend(msgs, threshold, maxSteps, j, k);
      assert WellCut(msgs, threshold, maxSteps, segs, j);
    }
  }

  lemma {:induction false} FindSegment(msgs: seq<Message>, threshold: nat, maxSteps: nat, i: nat, last: nat)
    returns (k: nat)
    requires
      && msgs != []
      && last < |SegmentsOf(msgs, threshold, maxSteps)|
      && i < SegmentsOf(msgs, threshold, maxSteps)[last].end
    ensures
      && k <= last
      && SegmentsOf(msgs, threshold, maxSteps)[k].start <= i < SegmentsOf(msgs, threshold, maxSteps)[k].end
  {
    var segs := SegmentsOf(msgs, threshold, maxSteps);
    Greedy(msgs, threshold, maxSteps);
    if segs[last].start <= i {
      k := last;
    } else {
      assert WellCut(msgs, threshold, maxSteps, segs, last - 1);
      k := FindSegment(msgs, threshold, maxSteps, i, last - 1);
    }
  }

  // ------------------------------------------------------------ safe cuts

  /** The reference predicate: every answered call before `i` has a result
      before `i`. */
  ghost predicate AllResolved(msgs: seq<Message>, i: nat) {
    forall j: nat, id: string, r: nat :: j < i && CallAt(msgs, j, id) && ResultAt(msgs, r, id) ==>
      exists b: nat :: b < i && ResultAt(msgs, b, id)
  }

  method CollectResultIds(msgs: seq<Message>, n: nat) returns (ids: set<string>)
    requires n <= |msgs|
    ensures forall id :: id in ids <==> exists j: nat :: j < n && ResultAt(msgs, j, id)
  {
    ids := {};
    for j := 0 to n
      invariant forall id :: id in ids <==> exists b: nat :: b < j && ResultAt(msgs, b, id)
    {
      var found: set<string> := {};
      if msgs[j].role == Tool {
        var results := Results(msgs[j].parts);
        found := set r | r in results :: r.callId;
      }
      assert forall id :: id in found <==> ResultAt(msgs, j, id);
      ids := ids + found;
    }
  }

  method AllCallsResolved(msgs: seq<Message>, i: nat) returns (safe: bool)
    requires i <= |msgs|
    ensures safe <==> AllResolved(msgs, i)
  {
    var resolved := CollectResultIds(msgs, i);
    var known := CollectResultIds(msgs, |msgs|);
    for j := 0 to i
      invariant forall b: nat, id: string :: b < j && CallAt(msgs, b, id) && id in known ==> id in resolved
    {
      if msgs[j].role == Assistant {
        var calls := Calls(msgs[j].parts);
        for k := 0 to |calls|
          invariant forall b :: 0 <= b < k && CallIds(calls)[b] in known ==> CallIds(calls)[b] in resolved
        {
          if calls[k].id in known && calls[k].id !in resolved {
            assert CallIds(calls)[k] == calls[k].id;
            assert CallAt(msgs, j, calls[k].id);
            var r: nat :| r < |msgs| && ResultAt(msgs, r, calls[k].id);
            return false;
          }
        }
      }
    }
    forall j: nat, id: string, r: nat | j < i && CallAt(msgs, j, id) && ResultAt(msgs, r, id)
      ensures exists b: nat :: b < i && ResultAt(msgs, b, id)
    {
      assert id in known;
    }
    safe := true;
  }

  lemma {:induction false} CalledBeforeWitness(msgs: seq<Message>, n: nat, id: string)
    requires n <= |msgs|
    ensures CalledBefore(msgs, n, id) <==> exists j: nat :: j < n && CallAt(msgs, j, id)
  {
    if n > 0 { CalledBeforeWitness(msgs, n - 1, id); }
  }

  /** At a cut nobody straddles, every result of every earlier call lies before it. */
  lemma UnstraddledIsResolved(msgs: seq<Message>, cut: nat)
    requires cut <= |msgs| && !Straddled(msgs, cut)
    ensures forall j: nat, id: string, r: nat :: j < cut && CallAt(msgs, j, id) && ResultAt(msgs, r, id) ==> r < cut
    ensures AllResolved(msgs, cut)
  {
    forall j: nat, id: string, r: nat | j < cut && CallAt(msgs, j, id) && ResultAt(msgs, r, id) ensures r < cut {
      CalledBeforeWitness(msgs, cut, id);
      assert !Waits(msgs, cut, id);
      assert LastResult(msgs, |msgs|, id) < cut;
    }
  }

  /** Where a segment closes without the user speaking, no call is split from a
      result: all results of all calls before the cut lie before the cut. */
  lemma CutsKeepCallsWithResults(msgs: seq<Message>, threshold: nat, maxSteps: nat, k: nat)
    requires msgs != [] && k < |SegmentsOf(msgs, threshold, maxSteps)|
    requires var s := SegmentsOf(msgs, threshold, maxSteps)[k]; !s.open && (s.end < |msgs| ==> msgs[s.end].role != User)
    ensures var cut := SegmentsOf(msgs, threshold, maxSteps)[k].end;
      && AllResolved(msgs, cut)
      && forall j: nat, id: string, r: nat :: j < cut && CallAt(msgs, j, id) && ResultAt(msgs, r, id) ==> r < cut
  {
    Greedy(msgs, threshold, maxSteps);
    assert WellCut(msgs, threshold, maxSteps, SegmentsOf(msgs, threshold, maxSteps), k);
    UnstraddledIsResolved(msgs, SegmentsOf(msgs, threshold, maxSteps)[k].end);
  }

  // ------------------------------------------- stability as the transcript grows

  function ClosedSegments(segs: seq<Segment>): seq<Segment> {
    if segs == [] then [] else segs[..|segs| - 1]
  }

  /** No call made before `cut` gets a result in the appended messages. */
  ghost predicate SettledBefore(msgs: seq<Message>, ext: seq<Message>, cut: nat) {
    forall j: nat, id: string, r: nat :: j < cut && CallAt(msgs, j, id) ==> !ResultAt(ext, r, id)
  }

  lemma AppendedAt(msgs: seq<Message>, ext: seq<Message>, i: nat, id: string)
    ensures i < |msgs| ==>
      (CallAt(msgs + ext, i, id) <==> CallAt(msgs, i, id)) && (ResultAt(msgs + ext, i, id) <==> ResultAt(msgs, i, id))
    ensures |msgs| <= i ==> (ResultAt(msgs + ext, i, id) <==> ResultAt(ext, i - |msgs|, id))
  {
    if |msgs| <= i < |msgs + ext| { assert (msgs + ext)[i] == ext[i - |msgs|]; }
  }

  lemma LastResultAppended(msgs: seq<Message>, ext: seq<Message>, id: string)
    ensures LastResult(msgs + ext, |msgs + ext|, id) >= LastResult(msgs, |msgs|, id)
    ensures (forall r: nat :: !ResultAt(ext, r, id)) ==>
      LastResult(msgs + ext, |msgs + ext|, id) == LastResult(msgs, |msgs|, id)
    ensures forall r: nat :: ResultAt(ext, r, id) ==> LastResult(msgs + ext, |msgs + ext|, id) >= |msgs|
  {
    var all := msgs + ext;
    var was, now := LastResult(msgs, |msgs|, id), LastResult(all, |all|, id);
    if was >= 0 { AppendedAt(msgs, ext, was, id); }
    if now >= 0 { AppendedAt(msgs, ext, now, id); }
    forall r: nat | ResultAt(ext, r, id) ensures now >= |msgs| { AppendedAt(msgs, ext, |msgs| + r, id); }
  }

  lemma {:induction false} CalledBeforeAppended(msgs: seq<Message>, ext: seq<Message>, n: nat, id: string)
    requires n <= |msgs|
    ensures CalledBefore(msgs + ext, n, id) <==> CalledBefore(msgs, n, id)
  {
    if n > 0 {
      CalledBeforeAppended(msgs, ext, n - 1, id);
      AppendedAt(msgs, ext, n - 1, id);
    }
  }

  lemma StraddledAppended(msgs: seq<Message>, ext: seq<Message>, cut: nat)
    requires cut <= |msgs|
    ensures Straddled(msgs, cut) ==> Straddled(msgs + ext, cut)
    ensures SettledBefore(msgs, ext, cut) ==> (Straddled(msgs + ext, cut) ==> Straddled(msgs, cut))
  {
    if id :| Waits(msgs, cut, id) {
      CalledBeforeAppended(msgs, ext, cut, id);
      LastResultAppended(msgs, ext, id);
      assert Waits(msgs + ext, cut, id);
    }
    if SettledBefore(msgs, ext, cut) && Straddled(msgs + ext, cut) {
      var id :| Waits(msgs + ext, cut, id);
      CalledBeforeAppended(msgs, ext, cut, id);
      CalledBeforeWitness(msgs, cut, id);
      LastResultAppended(msgs, ext, id);
      assert Waits(msgs, cut, id);
    }
  }

  lemma {:induction false} SizesAppended(msgs: seq<Message>, ext: seq<Message>, from: nat, until: nat)
    requires from <= until <= |msgs|
    ensures Tokens(msgs + ext, from, until) == Tokens(msgs, from, until)
    ensures Steps(msgs + ext, from, until) == Steps(msgs, from, until)
    decreases until
  {
    if from != until { SizesAppended(msgs, ext, from, until - 1); }
  }

  lemma ClosesAppended(msgs: seq<Message>, ext: seq<Message>, threshold: nat, maxSteps: nat, start: nat, cut: nat)
    requires start < cut < |msgs|
    ensures !ClosesAt(msgs, threshold, maxSteps, start, cut) ==> !ClosesAt(msgs + ext, threshold, maxSteps, start, cut)
    ensures
      && ClosesAt(msgs, threshold, maxSteps, start, cut)
      && (msgs[cut].role == User || SettledBefore(msgs, ext, cut)) ==>
      ClosesAt(msgs + ext, threshold, maxSteps, start, cut)
  {
    SizesAppended(msgs, ext, start, cut);
    StraddledAppended(msgs, ext, cut);
  }

  /** Every cut of the closed segments is at a user message or settled. */
  ghost predicate CutsSettled(msgs: seq<Message>, ext: seq<Message>, closed: seq<Segment>) {
    forall k :: 0 <= k < |closed| && closed[k].end < |msgs| ==>
      msgs[closed[k].end].role == User || SettledBefore(msgs, ext, closed[k].end)
  }

  lemma CutsSettledTail(msgs: seq<Message>, ext: seq<Message>, head: Segment, rest: seq<Segment>)
    requires rest != [] && CutsSettled(msgs, ext, ClosedSegments([head] + rest))
    ensures ClosedSegments([head] + rest) == [head] + ClosedSegments(rest)
    ensures CutsSettled(msgs, ext, ClosedSegments(rest))
    ensures head.end < |msgs| ==> msgs[head.end].role == User || SettledBefore(msgs, ext, head.end)
  {
    var all := ClosedSegments([head] + rest);
    assert all == [head] + ClosedSegments(rest);
    assert all[0] == head;
    forall k | 0 <= k < |ClosedSegments(rest)| ensures ClosedSegments(rest)[k] == all[k + 1] {}
  }

  lemma {:induction false} FromAppended(
      msgs: seq<Message>, ext: seq<Message>, threshold: nat, maxSteps: nat,
      start: nat, number: nat, cut: nat
  )
    requires start < cut <= |msgs|
    requires CutsSettled(msgs, ext, ClosedSegments(SegmentsFrom(msgs, threshold, maxSteps, start, number, cut)))
    ensures ClosedSegments(SegmentsFrom(msgs, threshold, maxSteps, start, number, cut))
         <= SegmentsFrom(msgs + ext, threshold, maxSteps, start, number, cut)
    decreases |msgs| - cut
  {
    if cut < |msgs| {
      ClosesAppended(msgs, ext, threshold, maxSteps, start, cut);
      if ClosesAt(msgs, threshold, maxSteps, start, cut) {
        var head := Segment(TurnOf(msgs, start), number, start, cut, false);
        CutsSettledTail(msgs, ext, head, SegmentsFrom(msgs, threshold, maxSteps, cut, NextNumber(msgs, number, cut),
                                                      cut + 1));
        FromAppended(msgs, ext, threshold, maxSteps, cut, NextNumber(msgs, number, cut), cut + 1);
        TurnStable(msgs, ext, start);
      } else {
        FromAppended(msgs, ext, threshold, maxSteps, start, number, cut + 1);
      }
    }
  }

  lemma SettledKeepsClosed(msgs: seq<Message>, ext: seq<Message>, threshold: nat, maxSteps: nat)
    requires msgs != [] && CutsSettled(msgs, ext, ClosedSegments(SegmentsOf(msgs, threshold, maxSteps)))
    ensures ClosedSegments(SegmentsOf(msgs, threshold, maxSteps)) <=
      ClosedSegments(SegmentsOf(msgs + ext, threshold, maxSteps))
  {
    var segs, grown := SegmentsOf(msgs, threshold, maxSteps), SegmentsOf(msgs + ext, threshold, maxSteps);
    var closed := ClosedSegments(segs);
    Greedy(msgs, threshold, maxSteps);
    Greedy(msgs + ext, threshold, maxSteps);
    FromAppended(msgs, ext, threshold, maxSteps, 0, 0, 1);
    assert WellCut(msgs + ext, threshold, maxSteps, grown, |grown| - 1);
    assert closed != [] ==> WellCut(msgs, threshold, maxSteps, segs, |closed| - 1);
  }

  lemma KeptIsSettled(msgs: seq<Message>, ext: seq<Message>, threshold: nat, maxSteps: nat)
    requires msgs != []
    requires ClosedSegments(SegmentsOf(msgs, threshold, maxSteps)) <=
      ClosedSegments(SegmentsOf(msgs + ext, threshold, maxSteps))
    ensures CutsSettled(msgs, ext, ClosedSegments(SegmentsOf(msgs, threshold, maxSteps)))
  {
    var grown := SegmentsOf(msgs + ext, threshold, maxSteps);
    var closed := ClosedSegments(SegmentsOf(msgs, threshold, maxSteps));
    Greedy(msgs + ext, threshold, maxSteps);
    forall k | 0 <= k < |closed| && closed[k].end < |msgs| && msgs[closed[k].end].role != User
      ensures SettledBefore(msgs, ext, closed[k].end)
    {
      assert closed[k] == grown[k];
      assert WellCut(msgs + ext, threshold, maxSteps, grown, k);
      UnstraddledSettles(msgs, ext, closed[k].end);
    }
  }

  /** Appending messages keeps every closed segment, unmoved and under its key,
      exactly when no call made before a cut that the user did not force is
      answered by the appended messages. */
  lemma ClosedSegmentsStableIff(msgs: seq<Message>, ext: seq<Message>, threshold: nat, maxSteps: nat)
    requires msgs != []
    ensures var closed := ClosedSegments(SegmentsOf(msgs, threshold, maxSteps));
      closed <= ClosedSegments(SegmentsOf(msgs + ext, threshold, maxSteps)) <==> CutsSettled(msgs, ext, closed)
  {
    if CutsSettled(msgs, ext, ClosedSegments(SegmentsOf(msgs, threshold, maxSteps))) {
      SettledKeepsClosed(msgs, ext, threshold, maxSteps);
    }
    if ClosedSegments(SegmentsOf(msgs, threshold, maxSteps)) <=
         ClosedSegments(SegmentsOf(msgs + ext, threshold, maxSteps)) {
      KeptIsSettled(msgs, ext, threshold, maxSteps);
    }
  }

  lemma UnstraddledSettles(msgs: seq<Message>, ext: seq<Message>, cut: nat)
    requires cut <= |msgs| && !Straddled(msgs + ext, cut)
    ensures SettledBefore(msgs, ext, cut)
  {
    forall j: nat, id: string, r: nat | j < cut && CallAt(msgs, j, id) ensures !ResultAt(ext, r, id) {
      if ResultAt(ext, r, id) {
        LastResultAppended(msgs, ext, id);
        CalledBeforeWitness(msgs, cut, id);
        CalledBeforeAppended(msgs, ext, cut, id);
        assert Waits(msgs + ext, cut, id);
        assert false;
      }
    }
  }

  /** In particular nothing closed moves while the appended messages answer only
      calls of the open tail. */
  lemma ClosedSegmentsStable(msgs: seq<Message>, ext: seq<Message>, threshold: nat, maxSteps: nat)
    requires msgs != []
    requires var segs := SegmentsOf(msgs, threshold, maxSteps); SettledBefore(msgs, ext, segs[|segs| - 1].start)
    ensures ClosedSegments(SegmentsOf(msgs, threshold, maxSteps)) <=
      ClosedSegments(SegmentsOf(msgs + ext, threshold, maxSteps))
  {
    var segs := SegmentsOf(msgs, threshold, maxSteps);
    forall k | 0 <= k < |segs| - 1 ensures segs[k].end <= segs[|segs| - 1].start {
      KeysAscend(msgs, threshold, maxSteps, k, |segs| - 1);
    }
    ClosedSegmentsStableIff(msgs, ext, threshold, maxSteps);
  }

  // ------------------------------------------------- independence from stubs

  /** The same message up to which superseded results are marked or applied. */
  predicate SameButMarks(a: Part, b: Part) {
    a == b || (a.ResultPart? && b.ResultPart? && a.result == b.result.(superseded := a.result.superseded))
  }

  predicate SameContent(a: Message, b: Message) {
    && a.role == b.role && |a.parts| == |b.parts|
    && forall k :: 0 <= k < |a.parts| ==> SameButMarks(a.parts[k], b.parts[k])
  }

  predicate SameStored(a: seq<Message>, b: seq<Message>) {
    |a| == |b| && forall i :: 0 <= i < |a| ==> SameContent(a[i], b[i])
  }

  lemma {:induction false} SameParts(a: seq<Part>, b: seq<Part>)
    requires |a| == |b| && forall k :: 0 <= k < |a| ==> SameButMarks(a[k], b[k])
    ensures Chars(a) == Chars(b) && Calls(a) == Calls(b)
    ensures |Results(a)| == |Results(b)| && forall k :: 0 <= k < |Results(a)| ==>
      Results(a)[k].callId == Results(b)[k].callId
  {
    if a != [] {
      var n := |a| - 1;
      SameParts(a[..n], b[..n]);
      assert SameButMarks(a[n], b[n]);
    }
  }

  lemma SameAt(a: seq<Message>, b: seq<Message>, i: nat, id: string)
    requires SameStored(a, b)
    ensures CallAt(a, i, id) <==> CallAt(b, i, id)
    ensures ResultAt(a, i, id) <==> ResultAt(b, i, id)
  {
    if i < |a| {
      assert SameContent(a[i], b[i]);
      SameParts(a[i].parts, b[i].parts);
      var x, y := Results(a[i].parts), Results(b[i].parts);
      if r :| r in x && r.callId == id {
        var k :| 0 <= k < |x| && x[k] == r;
        assert y[k] in y;
      }
      if r :| r in y && r.callId == id {
        var k :| 0 <= k < |y| && y[k] == r;
        assert x[k] in x;
      }
    }
  }

  lemma {:induction false} SameLastResult(a: seq<Message>, b: seq<Message>, n: nat, id: string)
    requires SameStored(a, b) && n <= |a|
    ensures LastResult(a, n, id) == LastResult(b, n, id)
    ensures CalledBefore(a, n, id) <==> CalledBefore(b, n, id)
  {
    if n > 0 {
      SameAt(a, b, n - 1, id);
      SameLastResult(a, b, n - 1, id);
    }
  }

  lemma SameStraddled(a: seq<Message>, b: seq<Message>, cut: nat)
    requires SameStored(a, b) && cut <= |a|
    ensures Straddled(a, cut) <==> Straddled(b, cut)
  {
    forall id ensures Waits(a, cut, id) <==> Waits(b, cut, id) {
      SameLastResult(a, b, |a|, id);
      SameLastResult(a, b, cut, id);
    }
  }

  lemma {:induction false} SameSizes(a: seq<Message>, b: seq<Message>, from: nat, until: nat)
    requires SameStored(a, b) && from <= until <= |a|
    ensures Tokens(a, from, until) == Tokens(b, from, until) && Steps(a, from, until) == Steps(b, from, until)
    decreases until
  {
    if from != until {
      assert SameContent(a[until - 1], b[until - 1]);
      SameParts(a[until - 1].parts, b[until - 1].parts);
      SameSizes(a, b, from, until - 1);
    }
  }

  lemma {:induction false} SameTurns(a: seq<Message>, b: seq<Message>, i: nat)
    requires SameStored(a, b) && i < |a|
    ensures TurnOf(a, i) == TurnOf(b, i)
  {
    assert SameContent(a[i], b[i]);
    if i > 0 { SameTurns(a, b, i - 1); }
  }

  lemma {:induction false} SameFrom(a: seq<Message>, b: seq<Message>, threshold: nat, maxSteps: nat, start: nat,
                                    number: nat, cut: nat)
    requires SameStored(a, b) && start < cut <= |a|
    ensures SegmentsFrom(a, threshold, maxSteps, start, number, cut) ==
      SegmentsFrom(b, threshold, maxSteps, start, number, cut)
    decreases |a| - cut
  {
    SameTurns(a, b, start);
    if cut < |a| {
      assert SameContent(a[cut], b[cut]);
      SameSizes(a, b, start, cut);
      SameStraddled(a, b, cut);
      SameFrom(a, b, threshold, maxSteps, start, number, cut + 1);
      SameFrom(a, b, threshold, maxSteps, cut, NextNumber(a, number, cut), cut + 1);
    }
  }

  /** Marking or applying superseded stubs never moves a cut. */
  lemma CutsIgnoreStubs(a: seq<Message>, b: seq<Message>, threshold: nat, maxSteps: nat)
    requires SameStored(a, b)
    ensures SegmentsOf(a, threshold, maxSteps) == SegmentsOf(b, threshold, maxSteps)
  {
    if a != [] { SameFrom(a, b, threshold, maxSteps, 0, 0, 1); }
  }
}
