/** What detection records, what the window estimate counts, and which marks a promotion
    applies, said of the segments, rows and marks themselves. */
module BoundaryProperties {
  import opened Transcript
  import opened PriorTurns
  import opened Segments
  import opened SegmentProperties
  import opened Boundary

  // ------------------------------------------------------------------- recording

  /** A detection pass writes a closed segment under its own extent exactly if its row is
      missing or unprocessed and the write lands; every other row stays as it was. */
  lemma {:induction false} ClosesAreRecorded(segs: seq<Segment>, registry: Registry, failing: set<Key>, k: nat)
    requires DistinctKeys(segs) && k < |segs|
    ensures var s, out := segs[k], Recorded(segs, registry, failing);
      var key := s.Id();
      if !s.open && key !in failing && (key in registry ==> registry[key].state == Unprocessed) then
        key in out && out[key] == Row(s.start, s.end, Unprocessed)
      else
        (key in out <==> key in registry) && (key in registry ==> out[key] == registry[key])
  {
    var front, last := segs[..|segs| - 1], segs[|segs| - 1];
    assert segs == front + [last];
    if k < |front| {
      assert front[k] == segs[k] && DistinctKeys(front);
      assert last.Id() != segs[k].Id();
      ClosesAreRecorded(front, registry, failing, k);
    } else {
      forall s | s in front ensures s.Id() != last.Id() {
        var j :| 0 <= j < |front| && front[j] == s;
        assert segs[j] == s;
      }
      RecordedKeepsOthers(front, registry, failing, last.Id());
    }
  }

  // -------------------------------------------------------------- what is counted

  /** The one case in which the estimate and the render differ: a failed result whose
      mark was applied, which still shows in full. */
  predicate CountedShort(p: Part) {
    && p.ResultPart? && p.result.isError && p.result.superseded.Some? && p.result.superseded.value.applied
    && |p.result.superseded.value.stubText| != |p.result.content|
  }

  lemma PartCountsAsShown(p: Part)
    ensures RawPartChars(p) == PartChars(StubPart(p)) <==> !CountedShort(p)
  {
  }

  /** The window estimate counts what a render with stubs shows, part by part, exactly
      for parts that are no failed result under an applied mark. */
  lemma {:induction false} EstimateCountsWhatIsShown(parts: seq<Part>)
    requires forall k :: 0 <= k < |parts| ==> !CountedShort(parts[k])
    ensures RawPartsChars(parts) == Chars(StubParts(parts))
  {
    if parts != [] {
      var front, last := parts[..|parts| - 1], parts[|parts| - 1];
      EstimateCountsWhatIsShown(front);
      PartCountsAsShown(last);
      assert StubParts(parts)[..|parts| - 1] == StubParts(front);
    }
  }

  // ------------------------------------------------------------------- promotion

  lemma {:induction false} SegmentIndexIs(msgs: seq<Message>, segs: seq<Segment>, i: nat, j: nat, k: nat)
    requires Segmentation(msgs, segs) && j < k <= |segs| && segs[j].start <= i < segs[j].end
    ensures SegmentIndex(segs, i, k) == j
  {
    if j < k - 1 {
      StartsAscend(msgs, segs, j, k - 1);
      SegmentIndexIs(msgs, segs, i, j, k - 1);
    }
  }

  lemma {:induction false} HasSegment(msgs: seq<Message>, segs: seq<Segment>, i: nat, n: nat) returns (j: nat)
    requires Segmentation(msgs, segs) && 0 < n <= |segs| && i < segs[n - 1].end
    ensures j < n && segs[j].start <= i < segs[j].end
  {
    if i >= segs[n - 1].start {
      j := n - 1;
    } else {
      j := HasSegment(msgs, segs, i, n - 1);
    }
  }

  /** Stubs are promoted in tool messages from the boundary on, never in the last two
      segments. */
  lemma GuardIsTheLastTwo(msgs: seq<Message>, boundary: nat, segs: seq<Segment>, i: nat)
    requires Segmentation(msgs, segs) && i < |msgs|
    ensures Promotable(msgs, boundary, segs, i) <==>
      boundary <= i && msgs[i].role == Tool && |segs| >= 2 && i < segs[|segs| - 2].start
  {
    var j := HasSegment(msgs, segs, i, |segs|);
    SegmentIndexIs(msgs, segs, i, j, |segs|);
    if |segs| >= 2 {
      var guard := |segs| - 2;
      if j < guard { StartsAscend(msgs, segs, j, guard); }
      if guard < j { StartsAscend(msgs, segs, guard, j); }
    }
  }

  /** The last of the stored results for a call. */
  predicate IsLastFor(stored: seq<Result>, id: string, r: Result) {
    exists k :: 0 <= k < |stored| && stored[k] == r && r.callId == id &&
      forall j :: k < j < |stored| ==> stored[j].callId != id
  }

  lemma {:induction false} LastForIff(stored: seq<Result>, id: string, r: Result)
    ensures LastFor(stored, id) == Some(r) <==> IsLastFor(stored, id, r)
  {
    if stored != [] {
      var front, last := stored[..|stored| - 1], stored[|stored| - 1];
      LastForIff(front, id, r);
      if last.callId == id {
        if last == r { assert stored[|front|] == r; }
      } else {
        if IsLastFor(front, id, r) {
          var k :| 0 <= k < |front| && front[k] == r && r.callId == id &&
            forall j :: k < j < |front| ==> front[j].callId != id;
          assert stored[k] == r;
          forall j | k < j < |stored| ensures stored[j].callId != id {
            if j < |front| { assert stored[j] == front[j]; }
          }
        }
        if IsLastFor(stored, id, r) {
          var k :| 0 <= k < |stored| && stored[k] == r && r.callId == id &&
            forall j :: k < j < |stored| ==> stored[j].callId != id;
          assert front[k] == r;
        }
      }
    }
  }

  /** The mark another writer has stored meanwhile for the last result of this call. */
  ghost predicate StoresMark(stored: Option<seq<Result>>, id: string, mark: Mark) {
    stored.Some? && exists s :: IsLastFor(stored.value, id, s) && s.superseded == Some(mark)
  }

  /** What a promotion makes of one result. Its pending mark is applied exactly if the
      write lands. Any other mark is its own joined with the stored one: it has one if
      either has, keeps its own text if it has one, and is applied if either is. Nothing
      but the mark ever changes. */
  lemma PromotionIsExact(r: Result, stored: Option<seq<Result>>, fails: bool)
    ensures var out := Promoted(ResultPart(r), stored, fails);
      && out.ResultPart? && out.result == r.(superseded := out.result.superseded)
      && var own, now := r.superseded, out.result.superseded;
      if own.Some? && !own.value.applied && !r.isError then
        now == Some(Mark(!fails, own.value.stubText))
      else
        && (now.Some? <==> own.Some? || exists mark :: StoresMark(stored, r.callId, mark))
        && (now.Some? && own.Some? ==>
              && now.value.stubText == own.value.stubText
              && (now.value.applied <==>
                    own.value.applied || exists mark :: StoresMark(stored, r.callId, mark) && mark.applied))
        && (now.Some? && own.None? ==> StoresMark(stored, r.callId, now.value))
  {
    if stored.Some? {
      forall s ensures LastFor(stored.value, r.callId) == Some(s) <==> IsLastFor(stored.value, r.callId, s) {
        LastForIff(stored.value, r.callId, s);
      }
      var last := LastFor(stored.value, r.callId);
      if last.Some? && last.value.superseded.Some? {
        assert StoresMark(stored, r.callId, last.value.superseded.value);
      }
    }
  }
}
