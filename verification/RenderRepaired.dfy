/** Rendering a suffix of a repaired transcript: nothing is made up and nothing is
    lost, in every mode and for every choice of collapsed turns. */
module RenderRepaired {
  import opened Transcript
  import opened PriorTurns
  import opened Settle
  import opened Render
  import opened RenderProperties

  /** The rendered tail of the transcript; a summary at its head is shown as a
      user message, because providers want one there. */
  function Window(msgs: seq<Message>, start: nat): (w: seq<Message>)
    requires start <= |msgs|
    ensures |w| == |msgs| - start
  {
    var tail := msgs[start..];
    if |tail| > 0 && tail[0].isSummary then [tail[0].(role := User)] + tail[1..] else tail
  }

  lemma WindowAt(msgs: seq<Message>, start: nat, i: nat)
    requires start <= |msgs| && i < |msgs| - start
    ensures Window(msgs, start)[i].parts == msgs[start + i].parts
    ensures Window(msgs, start)[i].role == if i == 0 && msgs[start].isSummary then User else msgs[start + i].role
    ensures Window(msgs, start)[i] == msgs[start + i].(role := Window(msgs, start)[i].role)
  {
  }

  // --------------------------------------- where a surviving call comes from

  lemma {:induction false} KeepCallsIds(calls: seq<Call>, keep: set<string>)
    requires Distinct(CallIds(calls))
    ensures Distinct(CallIds(KeepCalls(calls, keep)))
    ensures forall k :: 0 <= k < |KeepCalls(calls, keep)| ==>
      KeepCalls(calls, keep)[k].id in keep && KeepCalls(calls, keep)[k].id in CallIds(calls)
  {
    if calls != [] {
      var front, last := calls[..|calls| - 1], calls[|calls| - 1];
      assert CallIds(calls) == CallIds(front) + [last.id];
      assert Distinct(CallIds(front)) by {
        forall j, k | 0 <= j < k < |front| ensures CallIds(front)[j] != CallIds(front)[k] {
          assert CallIds(calls)[j] != CallIds(calls)[k];
        }
      }
      KeepCallsIds(front, keep);
      assert last.id !in CallIds(front) by {
        forall k | 0 <= k < |front| ensures CallIds(front)[k] != last.id {
          assert CallIds(calls)[k] != CallIds(calls)[|front|];
        }
      }
    }
  }

  lemma EmittedOrigin(m: Message, tag: Option<nat>, mode: Mode)
    requires m.role == Assistant && Distinct(CallIds(Calls(m.parts)))
    ensures Distinct(EmittedIds(Transform(m, tag, mode)))
    ensures forall id :: id in EmittedIds(Transform(m, tag, mode)) ==>
      && id in CallIds(Calls(m.parts))
      && (mode == Summarize && tag.Some? ==> id in QuestionIds(m.parts))
  {
    if tag.Some? {
      if mode == Summarize {
        var keep := QuestionIds(m.parts);
        SummarizeKeepsCallsUnmutated(m.parts, keep);
        KeepCallsIds(Calls(m.parts), keep);
      } else {
        CollapseKeepsCalls(m.parts, ExemptIds(m.parts), tag.value, mode);
      }
    }
  }

  ghost predicate EmittedAt(w: seq<Message>, tags: Tags, mode: Mode, i: nat, id: string)
    requires |w| == |tags|
  {
    i < |w| && id in EmittedIds(Transform(w[i], tags[i], mode))
  }

  lemma EmittedOnce(w: seq<Message>, tags: Tags, mode: Mode, i: nat, j: nat, id: string)
    requires |w| == |tags| && UniqueCallIds(w) && EmittedAt(w, tags, mode, i, id) && EmittedAt(w, tags, mode, j, id)
    ensures CallAt(w, i, id) && i == j
  {
    assert DistinctAt(w, i) && DistinctAt(w, j);
    EmittedOrigin(w[i], tags[i], mode);
    EmittedOrigin(w[j], tags[j], mode);
    assert CallAt(w, i, id) && CallAt(w, j, id);
  }

  lemma {:induction false} SurvivingOrigin(w: seq<Message>, tags: Tags, mode: Mode, n: nat, id: string) returns (i: nat)
    requires n <= |w| == |tags| && id in SurvivingIds(w, tags, mode, n)
    ensures i < n && EmittedAt(w, tags, mode, i, id)
  {
    if id in EmittedIds(Transform(w[n - 1], tags[n - 1], mode)) {
      i := n - 1;
    } else {
      i := SurvivingOrigin(w, tags, mode, n - 1, id);
    }
  }

  lemma SurvivorNotEmittedAgain(w: seq<Message>, tags: Tags, mode: Mode, n: nat, id: string)
    requires n < |w| == |tags| && UniqueCallIds(w) && id in SurvivingIds(w, tags, mode, n)
    ensures id !in EmittedIds(Transform(w[n], tags[n], mode))
  {
    var i := SurvivingOrigin(w, tags, mode, n, id);
    if EmittedAt(w, tags, mode, n, id) { EmittedOnce(w, tags, mode, i, n, id); }
  }

  lemma EmittedDistinct(w: seq<Message>, tags: Tags, mode: Mode, i: nat)
    requires i < |w| == |tags| && UniqueCallIds(w)
    ensures Distinct(EmittedIds(Transform(w[i], tags[i], mode)))
  {
    assert DistinctAt(w, i);
    if w[i].role == Assistant { EmittedOrigin(w[i], tags[i], mode); }
  }

  lemma {:induction false} SurvivingDistinct(w: seq<Message>, tags: Tags, mode: Mode, n: nat)
    requires n <= |w| == |tags| && UniqueCallIds(w)
    ensures Distinct(SurvivingIds(w, tags, mode, n))
  {
    if n > 0 {
      var before, ids := SurvivingIds(w, tags, mode, n - 1), EmittedIds(Transform(w[n - 1], tags[n - 1], mode));
      assert SurvivingIds(w, tags, mode, n) == before + ids;
      SurvivingDistinct(w, tags, mode, n - 1);
      EmittedDistinct(w, tags, mode, n - 1);
      forall id | id in before ensures id !in ids { SurvivorNotEmittedAgain(w, tags, mode, n - 1, id); }
      DistinctConcat(before, ids);
      assert Distinct(before + ids);
    }
  }

  lemma DistinctConcat(a: seq<string>, b: seq<string>)
    requires Distinct(a) && Distinct(b) && forall id :: id in a ==> id !in b
    ensures Distinct(a + b)
  {
    forall j, k | 0 <= j < k < |a + b| ensures (a + b)[j] != (a + b)[k] {
      if j < |a| && k >= |a| { assert (a + b)[j] in a && (a + b)[k] in b; }
    }
  }

  // ------------------------------------------------------ what the index says

  lemma {:induction false} AddCallsAt(index: Index, calls: seq<Call>, tag: Option<nat>, mode: Mode, id: string)
    ensures id !in CallIds(calls) ==>
      (id in AddCalls(index, calls, tag, mode) <==> id in index) &&
      (id in index ==> AddCalls(index, calls, tag, mode)[id] == index[id])
    ensures id in CallIds(calls) ==>
      id in AddCalls(index, calls, tag, mode) &&
      exists c :: c in calls && c.id == id && AddCalls(index, calls, tag, mode)[id] == Info(c, tag, mode)
  {
    if calls != [] {
      var front, last := calls[..|calls| - 1], calls[|calls| - 1];
      assert calls == front + [last];
      assert CallIds(calls) == CallIds(front) + [last.id];
      AddCallsAt(index, front, tag, mode, id);
      if last.id == id {
        assert last in calls;
      } else if id in CallIds(front) {
        var c :| c in front && c.id == id && AddCalls(index, front, tag, mode)[id] == Info(c, tag, mode);
        assert c in calls;
      }
    }
  }

  /** With unique IDs the index describes the one call that has the ID. */
  lemma {:induction false} IndexAt(w: seq<Message>, tags: Tags, mode: Mode, n: nat, i: nat, id: string)
    requires i < n <= |w| == |tags| && UniqueCallIds(w) && CallAt(w, i, id)
    ensures id in IndexUpTo(w, tags, mode, n)
    ensures exists c ::
      c in Calls(w[i].parts) && c.id == id && IndexUpTo(w, tags, mode, n)[id] == Info(c, tags[i], mode)
  {
    var m := w[n - 1];
    if m.role == Assistant {
      AddCallsAt(IndexUpTo(w, tags, mode, n - 1), Calls(m.parts), tags[n - 1], mode, id);
    }
    if i < n - 1 {
      IndexAt(w, tags, mode, n - 1, i, id);
      assert !CallAt(w, n - 1, id);
    }
  }

  lemma DistinctCalls(calls: seq<Call>, c: Call, d: Call)
    requires Distinct(CallIds(calls)) && c in calls && d in calls && c.id == d.id
    ensures c == d
  {
    var j :| 0 <= j < |calls| && calls[j] == c;
    var k :| 0 <= k < |calls| && calls[k] == d;
    assert CallIds(calls)[j] == CallIds(calls)[k];
  }

  /** The result of a call this render emits is known and not dropped. */
  lemma EmittedIsKept(w: seq<Message>, tags: Tags, mode: Mode, i: nat, id: string)
    requires |w| == |tags| && UniqueCallIds(w) && EmittedAt(w, tags, mode, i, id)
    ensures CallAt(w, i, id)
    ensures var index := IndexUpTo(w, tags, mode, |w|); id in index && id !in DroppedOf(index)
  {
    assert DistinctAt(w, i);
    EmittedOrigin(w[i], tags[i], mode);
    assert CallAt(w, i, id);
    IndexAt(w, tags, mode, |w|, i, id);
    var c :| c in Calls(w[i].parts) && c.id == id && IndexUpTo(w, tags, mode, |w|)[id] == Info(c, tags[i], mode);
    if mode == Summarize && tags[i].Some? {
      var d :| d in Calls(w[i].parts) && d.name == QUESTION_TOOL && d.id == id;
      DistinctCalls(Calls(w[i].parts), c, d);
    }
  }

  // ----------------------------------------------- each result, exactly once

  /** One stored result as this render shows it, given its message's tag. */
  function Show(r: Result, tag: Option<nat>, cfg: Config, index: Index): Result {
    if tag.Some? then
      if cfg.mode == Summarize then r else CollapseResult(r, tag.value, cfg.mode, ExemptOf(index), Names(index))
    else if cfg.stubs then StubResult(r)
    else r
  }

  function Shown(results: seq<Result>, tag: Option<nat>, cfg: Config, index: Index): (shown: seq<Result>)
    ensures |shown| == |results|
    ensures forall k :: 0 <= k < |results| ==> shown[k] == Show(results[k], tag, cfg, index)
  {
    seq(|results|, k requires 0 <= k < |results| => Show(results[k], tag, cfg, index))
  }

  function StoredIn(m: Message, id: string): seq<Result> {
    if m.role == Tool then Matching(Results(m.parts), id) else []
  }

  /** The results for one call that one message stores, as its tag shows them. */
  function ShownIn(m: Message, tag: Option<nat>, cfg: Config, index: Index, id: string): seq<Result> {
    Shown(StoredIn(m, id), tag, cfg, index)
  }

  /** Message by message, each under its own tag. */
  function ShownGroups(msgs: seq<Message>, tags: Tags, cfg: Config, index: Index,
                       id: string): (groups: seq<seq<Result>>)
    requires |msgs| == |tags|
    ensures |groups| == |msgs|
    ensures forall k :: 0 <= k < |msgs| ==> groups[k] == ShownIn(msgs[k], tags[k], cfg, index, id)
  {
    seq(|msgs|, k requires 0 <= k < |msgs| => ShownIn(msgs[k], tags[k], cfg, index, id))
  }

  function Joined(groups: seq<seq<Result>>, n: nat): seq<Result>
    requires n <= |groups|
  {
    if n == 0 then [] else Joined(groups, n - 1) + groups[n - 1]
  }

  /** All stored results for one call in transcript order, each once, as shown. */
  function ShownFor(msgs: seq<Message>, tags: Tags, cfg: Config, index: Index, id: string): seq<Result>
    requires |msgs| == |tags|
  {
    Joined(ShownGroups(msgs, tags, cfg, index, id), |msgs|)
  }

  lemma MatchingSnoc(results: seq<Result>, r: Result, id: string)
    ensures Matching(results + [r], id) == Matching(results, id) + if r.callId == id then [r] else []
  {
    assert (results + [r])[..|results|] == results;
  }

  lemma {:induction false} RewrittenShows(parts: seq<Part>, out: seq<Part>, tag: Option<nat>, cfg: Config,
                                          index: Index, id: string)
    requires |parts| == |out|
    requires forall k :: 0 <= k < |parts| ==>
      out[k] == if parts[k].ResultPart? then ResultPart(Show(parts[k].result, tag, cfg, index)) else parts[k]
    ensures Matching(Results(out), id) == Shown(Matching(Results(parts), id), tag, cfg, index)
  {
    if parts != [] {
      var n := |parts| - 1;
      RewrittenShows(parts[..n], out[..n], tag, cfg, index, id);
      if parts[n].ResultPart? {
        ShownSnoc(Results(parts[..n]), parts[n].result, Results(out[..n]), tag, cfg, index, id);
      } else {
        assert Results(parts) == Results(parts[..n]) && Results(out) == Results(out[..n]);
      }
    }
  }

  lemma ShownSnoc(stored: seq<Result>, r: Result, shown: seq<Result>, tag: Option<nat>, cfg: Config, index: Index,
                  id: string)
    requires Matching(shown, id) == Shown(Matching(stored, id), tag, cfg, index)
    ensures Matching(shown + [Show(r, tag, cfg, index)], id) == Shown(Matching(stored + [r], id), tag, cfg, index)
  {
    ShowKeepsId(r, tag, cfg, index);
    ShownAppend(Matching(stored, id), r, tag, cfg, index);
    MatchingSnocs(stored, r, shown, Show(r, tag, cfg, index), id);
  }

  lemma ShowKeepsId(r: Result, tag: Option<nat>, cfg: Config, index: Index)
    ensures Show(r, tag, cfg, index).callId == r.callId
  {
  }

  lemma ShownAppend(list: seq<Result>, r: Result, tag: Option<nat>, cfg: Config, index: Index)
    ensures Shown(list + [r], tag, cfg, index) == Shown(list, tag, cfg, index) + [Show(r, tag, cfg, index)]
  {
  }

  lemma MatchingSnocs(stored: seq<Result>, r: Result, shown: seq<Result>, out: Result, id: string)
    requires out.callId == r.callId
    ensures Matching(stored + [r], id) == if r.callId == id then Matching(stored, id) + [r] else Matching(stored, id)
    ensures Matching(shown + [out], id) == if r.callId == id then Matching(shown, id) + [out] else Matching(shown, id)
  {
    MatchingSnoc(stored, r, id);
    MatchingSnoc(shown, out, id);
    if r.callId != id {
      assert Matching(stored, id) + [] == Matching(stored, id) && Matching(shown, id) + [] == Matching(shown, id);
    }
  }

  lemma {:induction false} SummarizedShows(parts: seq<Part>, names: map<string, string>, dropped: set<string>,
                                           id: string)
    requires id in names && id !in dropped
    ensures Matching(Results(SummarizeToolParts(parts, names, dropped)), id) == Matching(Results(parts), id)
  {
    if parts != [] {
      var front, last := parts[..|parts| - 1], parts[|parts| - 1];
      SummarizedShows(front, names, dropped, id);
      var kept := SummarizeToolParts(front, names, dropped);
      assert (kept + [last])[..|kept|] == kept;
      assert kept + [] == kept;
      if last.ResultPart? {
        MatchingSnoc(Results(front), last.result, id);
        MatchingSnoc(Results(kept), last.result, id);
      } else {
        assert Results(parts) == Results(front) && Results(kept + [last]) == Results(kept);
      }
    }
  }

  lemma ToolSideShows(parts: seq<Part>, tag: Option<nat>, cfg: Config, index: Index, id: string)
    requires id in index && id !in DroppedOf(index)
    ensures Matching(Results(ToolSide(parts, tag, cfg, index)), id) ==
      Shown(Matching(Results(parts), id), tag, cfg, index)
  {
    if tag.Some? && cfg.mode == Summarize {
      SummarizedShows(parts, Names(index), DroppedOf(index), id);
    } else {
      RewrittenShows(parts, ToolSide(parts, tag, cfg, index), tag, cfg, index, id);
    }
  }

  lemma OneMessageShows(m: Message, tag: Option<nat>, cfg: Config, index: Index, id: string)
    requires id in index && id !in DroppedOf(index)
    ensures ShownIn(m, tag, cfg, index, id) ==
      if m.role == Tool then Matching(Results(ToolSide(m.parts, tag, cfg, index)), id) else []
  {
    if m.role == Tool { ToolSideShows(m.parts, tag, cfg, index, id); }
  }

  lemma ResultsForShows(w: seq<Message>, tags: Tags, cfg: Config, index: Index, id: string)
    requires |w| == |tags| && id in index && id !in DroppedOf(index)
    ensures ResultsFor(w, tags, cfg, index, |w|, id) == ShownFor(w, tags, cfg, index, id)
  {
    ResultsAreJoined(w, tags, cfg, index, |w|, id, ShownGroups(w, tags, cfg, index, id));
  }

  lemma {:induction false} ResultsAreJoined(w: seq<Message>, tags: Tags, cfg: Config, index: Index, n: nat, id: string,
                                            groups: seq<seq<Result>>)
    requires n <= |w| == |tags| == |groups| && id in index && id !in DroppedOf(index)
    requires forall k :: 0 <= k < |w| ==> groups[k] == ShownIn(w[k], tags[k], cfg, index, id)
    ensures ResultsFor(w, tags, cfg, index, n, id) == Joined(groups, n)
  {
    if n > 0 {
      ResultsAreJoined(w, tags, cfg, index, n - 1, id, groups);
      OneMessageShows(w[n - 1], tags[n - 1], cfg, index, id);
      assert groups[n - 1] == ShownIn(w[n - 1], tags[n - 1], cfg, index, id);
      var before := Joined(groups, n - 1);
      assert w[n - 1].role != Tool ==> before + groups[n - 1] == before;
    }
  }

  lemma {:induction false} MatchingNonEmpty(results: seq<Result>, id: string)
    ensures Matching(results, id) != [] <==> exists r :: r in results && r.callId == id
  {
    if results != [] {
      var front, last := results[..|results| - 1], results[|results| - 1];
      assert results == front + [last];
      MatchingNonEmpty(front, id);
      if last.callId == id { assert last in results; }
      if Matching(front, id) != [] {
        var r :| r in front && r.callId == id;
        assert r in results;
      }
    }
  }

  lemma {:induction false} JoinedEmpty(groups: seq<seq<Result>>, n: nat)
    requires n <= |groups| && forall k :: 0 <= k < n ==> groups[k] == []
    ensures Joined(groups, n) == []
  {
    if n > 0 { JoinedEmpty(groups, n - 1); }
  }

  lemma {:induction false} JoinedNonEmpty(groups: seq<seq<Result>>, n: nat, j: nat)
    requires j < n <= |groups| && groups[j] != []
    ensures Joined(groups, n) != []
  {
    if j < n - 1 { JoinedNonEmpty(groups, n - 1, j); }
  }

  lemma {:induction false} JoinedSuffix(window: seq<seq<Result>>, all: seq<seq<Result>>, start: nat, n: nat)
    requires n <= |window| && start + n <= |all|
    requires forall k :: 0 <= k < start ==> all[k] == []
    requires forall k :: 0 <= k < n ==> window[k] == all[start + k]
    ensures Joined(window, n) == Joined(all, start + n)
  {
    if n == 0 { JoinedEmpty(all, start); } else { JoinedSuffix(window, all, start, n - 1); }
  }

  lemma StoredInIff(msgs: seq<Message>, j: nat, id: string)
    requires j < |msgs|
    ensures StoredIn(msgs[j], id) != [] <==> ResultAt(msgs, j, id)
  {
    MatchingNonEmpty(Results(msgs[j].parts), id);
  }

  /** One more message of the window holds the same results as its original, unless
      it is a flipped summary in front, which comes too early to hold any. */
  lemma WindowStep(msgs: seq<Message>, start: nat, k: nat, id: string)
    requires start <= |msgs| && k < |msgs| - start && !ResultAt(msgs, start, id)
    ensures StoredIn(Window(msgs, start)[k], id) == StoredIn(msgs[start + k], id)
  {
    WindowAt(msgs, start, k);
    if k == 0 {
      MatchingNonEmpty(Results(msgs[start].parts), id);
    }
  }

  lemma WindowUnique(msgs: seq<Message>, start: nat)
    requires start <= |msgs| && UniqueCallIds(msgs)
    ensures UniqueCallIds(Window(msgs, start))
    ensures forall i: nat, id: string :: CallAt(Window(msgs, start), i, id) ==> CallAt(msgs, start + i, id)
  {
    var w := Window(msgs, start);
    forall i: nat, id: string | CallAt(w, i, id) ensures CallAt(msgs, start + i, id) { WindowAt(msgs, start, i); }
    forall i: nat ensures DistinctAt(w, i) {
      if i < |w| {
        WindowAt(msgs, start, i);
        assert DistinctAt(msgs, start + i);
      }
    }
    forall i: nat, j: nat, id: string | CallAt(w, i, id) && CallAt(w, j, id) ensures i == j {
      assert CallAt(msgs, start + i, id) && CallAt(msgs, start + j, id);
    }
  }

  /** Message `i` makes this call, the window shows it as an assistant message, and the
      render drops no result for it. */
  ghost predicate ShownFrom(msgs: seq<Message>, start: nat, tags: Tags, mode: Mode, id: string, i: nat)
    requires start <= |msgs| && |tags| == |msgs| - start
  {
    && start <= i && CallAt(msgs, i, id) && !(i == 0 && msgs[0].isSummary)
    && var index := IndexUpTo(Window(msgs, start), tags, mode, |tags|);
    id in index && id !in DroppedOf(index)
  }

  lemma SurvivingIsEmitted(msgs: seq<Message>, start: nat, tags: Tags, mode: Mode, id: string) returns (i: nat)
    requires start <= |msgs| && |tags| == |msgs| - start && UniqueCallIds(msgs)
    requires id in SurvivingIds(Window(msgs, start), tags, mode, |tags|)
    ensures ShownFrom(msgs, start, tags, mode, id, i)
  {
    var w := Window(msgs, start);
    WindowUnique(msgs, start);
    var k := SurvivingOrigin(w, tags, mode, |w|, id);
    EmittedIsKept(w, tags, mode, k, id);
    i := start + k;
  }

  /** The window's tags, placed over the whole transcript. */
  function FullTags(start: nat, tags: Tags): (full: Tags)
    ensures |full| == start + |tags|
    ensures forall k :: 0 <= k < |full| ==> full[k] == if k < start then None else tags[k - start]
  {
    seq(start + |tags|, k requires 0 <= k < start + |tags| => if k < start then None else tags[k - start])
  }

  /** What a render shows for one call out of everything the transcript stores. */
  function ShownStored(msgs: seq<Message>, start: nat, tags: Tags, cfg: Config, id: string): seq<Result>
    requires start <= |msgs| && |tags| == |msgs| - start
  {
    ShownFor(msgs, FullTags(start, tags), cfg, IndexUpTo(Window(msgs, start), tags, cfg.mode, |tags|), id)
  }

  /** Every call a render can show has a result in some tool message. A summary at
      the head of the transcript is the one message that is always flipped. */
  ghost predicate AnsweredIfShown(msgs: seq<Message>) {
    forall i: nat, id: string :: CallAt(msgs, i, id) && !(i == 0 && msgs[0].isSummary) ==>
      exists j: nat :: ResultAt(msgs, j, id)
  }

  /** The pool holds every stored result of a surviving call, each exactly once, in
      stored order and as its own message shows it, even when call and result sit in
      differently collapsed turns. */
  lemma SurvivingCallHasAllResults(msgs: seq<Message>, start: nat, tags: Tags, cfg: Config, id: string)
    requires start <= |msgs| && |tags| == |msgs| - start
    requires UniqueCallIds(msgs) && ResultsFollowCalls(msgs) && AnsweredIfShown(msgs)
    requires id in SurvivingIds(Window(msgs, start), tags, cfg.mode, |tags|)
    ensures var pool := FullPool(Window(msgs, start), tags, cfg);
      id in pool && pool[id] == ShownStored(msgs, start, tags, cfg, id) != []
  {
    var i := SurvivingIsEmitted(msgs, start, tags, cfg.mode, id);
    EmittedIsPooled(msgs, start, tags, cfg, id, i);
  }

  lemma EmittedIsPooled(msgs: seq<Message>, start: nat, tags: Tags, cfg: Config, id: string, i: nat)
    requires start <= |msgs| && |tags| == |msgs| - start
    requires ResultsFollowCalls(msgs) && AnsweredIfShown(msgs) && ShownFrom(msgs, start, tags, cfg.mode, id, i)
    ensures var pool := FullPool(Window(msgs, start), tags, cfg);
      id in pool && pool[id] == ShownStored(msgs, start, tags, cfg, id) != []
  {
    var j := AnswerExists(msgs, start, i, id);
    StoredIsPooled(msgs, start, tags, cfg, id, j);
  }

  lemma StoredIsPooled(msgs: seq<Message>, start: nat, tags: Tags, cfg: Config, id: string, j: nat)
    requires start <= |msgs| && |tags| == |msgs| - start
    requires var index := IndexUpTo(Window(msgs, start), tags, cfg.mode, |tags|); id in index && id !in DroppedOf(index)
    requires AnsweredBehind(msgs, start, id, j)
    ensures var pool := FullPool(Window(msgs, start), tags, cfg);
      id in pool && pool[id] == ShownStored(msgs, start, tags, cfg, id) != []
  {
    var w := Window(msgs, start);
    var index := IndexUpTo(w, tags, cfg.mode, |w|);
    WindowShowsAll(msgs, start, tags, cfg, index, id, j);
    ResultsForShows(w, tags, cfg, index, id);
  }

  /** All stored results of a call are in the window if none lies in front of it. */
  lemma WindowShowsAll(msgs: seq<Message>, start: nat, tags: Tags, cfg: Config, index: Index, id: string, j: nat)
    requires start <= |msgs| && |tags| == |msgs| - start
    requires AnsweredBehind(msgs, start, id, j)
    ensures ShownFor(Window(msgs, start), tags, cfg, index, id) ==
      ShownFor(msgs, FullTags(start, tags), cfg, index, id) != []
  {
    var w := Window(msgs, start);
    var all, window := ShownGroups(msgs, FullTags(start, tags), cfg, index, id), ShownGroups(w, tags, cfg, index, id);
    assert all[j] != [] by { ShownIsEmpty(msgs, FullTags(start, tags), cfg, index, id, j); }
    forall k: nat | k < start ensures all[k] == [] { ShownIsEmpty(msgs, FullTags(start, tags), cfg, index, id, k); }
    forall k: nat | k < |w| ensures window[k] == all[start + k] { GroupsAlign(msgs, start, tags, cfg, index, id, k); }
    assert start + |w| == |msgs|;
    JoinedTail(window, all, start, j);
  }

  lemma ShownIsEmpty(msgs: seq<Message>, tags: Tags, cfg: Config, index: Index, id: string, k: nat)
    requires k < |msgs| == |tags|
    ensures ShownGroups(msgs, tags, cfg, index, id)[k] == [] <==> !ResultAt(msgs, k, id)
  {
    StoredInIff(msgs, k, id);
    assert |ShownIn(msgs[k], tags[k], cfg, index, id)| == |StoredIn(msgs[k], id)|;
  }

  lemma GroupsAlign(msgs: seq<Message>, start: nat, tags: Tags, cfg: Config, index: Index, id: string, k: nat)
    requires start <= |msgs| && |tags| == |msgs| - start && k < |tags| && !ResultAt(msgs, start, id)
    ensures ShownGroups(Window(msgs, start), tags, cfg, index, id)[k] ==
      ShownGroups(msgs, FullTags(start, tags), cfg, index, id)[start + k]
  {
    WindowStep(msgs, start, k, id);
    assert FullTags(start, tags)[start + k] == tags[k];
  }

  lemma JoinedTail(window: seq<seq<Result>>, all: seq<seq<Result>>, start: nat, j: nat)
    requires |all| == start + |window| && j < |all| && all[j] != []
    requires forall k :: 0 <= k < start ==> all[k] == []
    requires forall k :: 0 <= k < |window| ==> window[k] == all[start + k]
    ensures Joined(window, |window|) == Joined(all, |all|) != []
  {
    JoinedSuffix(window, all, start, |window|);
    JoinedNonEmpty(all, |all|, j);
  }

  /** Message `j` answers the call, and no message up to `start` does. */
  ghost predicate AnsweredBehind(msgs: seq<Message>, start: nat, id: string, j: nat) {
    ResultAt(msgs, j, id) && forall k: nat :: k <= start ==> !ResultAt(msgs, k, id)
  }

  /** A shown call has a result, and none up to its own message. */
  lemma AnswerExists(msgs: seq<Message>, start: nat, i: nat, id: string) returns (j: nat)
    requires ResultsFollowCalls(msgs) && AnsweredIfShown(msgs) && CallAt(msgs, i, id) && !(i == 0 && msgs[0].isSummary)
    requires start <= i
    ensures AnsweredBehind(msgs, start, id, j)
  {
    j :| ResultAt(msgs, j, id);
  }

  /** Every ID this render emits is fresh and has its results waiting. */
  lemma SurvivorsAreAnswerable(msgs: seq<Message>, start: nat, tags: Tags, cfg: Config)
    requires start <= |msgs| && |tags| == |msgs| - start
    requires UniqueCallIds(msgs) && ResultsFollowCalls(msgs) && AnsweredIfShown(msgs)
    ensures Answerable(SurvivingIds(Window(msgs, start), tags, cfg.mode, |tags|),
                       FullPool(Window(msgs, start), tags, cfg), {})
  {
    var w := Window(msgs, start);
    var ids, pool := SurvivingIds(w, tags, cfg.mode, |w|), FullPool(w, tags, cfg);
    WindowUnique(msgs, start);
    SurvivingDistinct(w, tags, cfg.mode, |w|);
    forall k | 0 <= k < |ids| ensures ids[k] in pool && pool[ids[k]] != [] {
      SurvivingCallHasAllResults(msgs, start, tags, cfg, ids[k]);
    }
  }

  /** Rendering any suffix of a transcript whose calls are answered behind them
      never makes up a reply. */
  lemma AnsweredTranscriptNeverSynthesizes(msgs: seq<Message>, start: nat, tags: Tags, cfg: Config)
    requires start <= |msgs| && |tags| == |msgs| - start
    requires UniqueCallIds(msgs) && ResultsFollowCalls(msgs) && AnsweredIfShown(msgs)
    ensures AllStored(RenderedHistory(Window(msgs, start), tags, cfg))
  {
    SurvivorsAreAnswerable(msgs, start, tags, cfg);
    SyntheticExactlyWhenUnanswerable(Window(msgs, start), tags, cfg);
  }

  // ------------------------------------- each stored result, exactly once

  /** The replies that name one call, in order. */
  function Naming(replies: seq<Reply>, id: string): seq<Reply> {
    if replies == [] then []
    else
      var last := replies[|replies| - 1];
      Naming(replies[..|replies| - 1], id) + if last.Id() == id then [last] else []
  }

  /** Everything a request says in reply to one call. */
  function RepliesTo(h: seq<ProviderMessage>, id: string): seq<Reply> {
    if h == [] then []
    else
      var last := h[|h| - 1];
      RepliesTo(h[..|h| - 1], id) + if last.ToolMsg? then Naming(last.replies, id) else []
  }

  lemma RepliesToSnoc(h: seq<ProviderMessage>, p: ProviderMessage, id: string)
    ensures RepliesTo(h + [p], id) == RepliesTo(h, id) + if p.ToolMsg? then Naming(p.replies, id) else []
  {
    assert (h + [p])[..|h|] == h;
  }

  lemma {:induction false} NamingConcat(a: seq<Reply>, b: seq<Reply>, id: string)
    ensures Naming(a + b, id) == Naming(a, id) + Naming(b, id)
  {
    if b == [] {
      assert a + b == a;
    } else {
      NamingConcat(a, b[..|b| - 1], id);
      assert (a + b)[..|a + b| - 1] == a + b[..|b| - 1];
    }
  }

  lemma {:induction false} NamingAll(replies: seq<Reply>, callId: string, id: string)
    requires forall k :: 0 <= k < |replies| ==> replies[k].Id() == callId
    ensures Naming(replies, id) == if callId == id then replies else []
  {
    if replies != [] { NamingAll(replies[..|replies| - 1], callId, id); }
  }

  lemma {:induction false} NamingReplies(calls: seq<Call>, pool: Pool, used: set<string>, id: string)
    requires Keyed(pool) && Answerable(CallIds(calls), pool, used)
    ensures Naming(Replies(calls, pool, used), id) == if id in CallIds(calls) then AsReplies(Lookup(pool, id)) else []
  {
    if calls != [] {
      var front, last := calls[..|calls| - 1], calls[|calls| - 1].id;
      assert CallIds(calls) == CallIds(front) + [last];
      AnswerableSnoc(CallIds(front), last, pool, used);
      NamingReplies(front, pool, used, id);
      IdSetOfIds(front);
      assert last !in used + IdSet(front);
      GroupNaming(Replies(front, pool, used), last, pool, used + IdSet(front), id);
    }
  }

  lemma GroupNaming(before: seq<Reply>, last: string, pool: Pool, used: set<string>, id: string)
    requires Keyed(pool) && last in pool && last !in used && pool[last] != []
    ensures Naming(before + Group(last, pool, used), id) ==
      Naming(before, id) + if last == id then AsReplies(pool[last]) else []
  {
    NamingConcat(before, Group(last, pool, used), id);
    NamingAll(Group(last, pool, used), last, id);
  }

  lemma EmitBodyReplies(mid: Output, m: Message, pool: Pool, id: string)
    requires Keyed(pool) && Answerable(EmittedIds(m), pool, mid.used)
    ensures RepliesTo(EmitBody(mid, m, pool).history, id) ==
      RepliesTo(mid.history, id) + if id in EmittedIds(m) then AsReplies(Lookup(pool, id)) else []
  {
    if !Silent(m) {
      var calls := Calls(m.parts);
      if m.role == Assistant && calls != [] {
        NamingReplies(calls, pool, mid.used, id);
        RepliesToPair(mid.history, Body(m), Replies(calls, pool, mid.used), id);
      } else {
        RepliesToSnoc(mid.history, Body(m), id);
        assert CallIds([]) == [];
        assert RepliesTo(mid.history, id) + [] == RepliesTo(mid.history, id);
      }
    } else {
      assert RepliesTo(mid.history, id) + [] == RepliesTo(mid.history, id);
    }
  }

  lemma RepliesToPair(h: seq<ProviderMessage>, p: ProviderMessage, replies: seq<Reply>, id: string)
    requires !p.ToolMsg?
    ensures RepliesTo(h + [p, ToolMsg(replies)], id) == RepliesTo(h, id) + Naming(replies, id)
  {
    assert h + [p, ToolMsg(replies)] == (h + [p]) + [ToolMsg(replies)];
    RepliesToSnoc(h + [p], ToolMsg(replies), id);
    RepliesToSnoc(h, p, id);
  }

  lemma EmitSummaryReplies(out: Output, m: Message, tag: Option<nat>, cfg: Config, id: string)
    ensures RepliesTo(EmitSummary(out, m, tag, cfg).history, id) == RepliesTo(out.history, id)
    ensures EmitSummary(out, m, tag, cfg).used == out.used
  {
    var mid := EmitSummary(out, m, tag, cfg);
    if mid != out { RepliesToSnoc(out.history, mid.history[|out.history|], id); }
  }

  /** What a request says in reply to a call it emits is that call's pool entry,
      once; to any other call it says nothing. */
  lemma {:induction false} RepliesArePooled(w: seq<Message>, tags: Tags, cfg: Config, pool: Pool, n: nat, id: string)
    requires n <= |w| == |tags| && Keyed(pool) && Answerable(SurvivingIds(w, tags, cfg.mode, n), pool, {})
    ensures RepliesTo(EmitUpTo(w, tags, cfg, pool, n).history, id) ==
      if id in SurvivingIds(w, tags, cfg.mode, n) then AsReplies(Lookup(pool, id)) else []
  {
    if n > 0 {
      var ids := SurvivingIds(w, tags, cfg.mode, n - 1);
      AnswerableConcat(ids, EmittedIds(Transform(w[n - 1], tags[n - 1], cfg.mode)), pool);
      RepliesArePooled(w, tags, cfg, pool, n - 1, id);
      UsedAreSurviving(w, tags, cfg, pool, n - 1);
      OneMessageReplies(EmitUpTo(w, tags, cfg, pool, n - 1), ids, w[n - 1], tags[n - 1], cfg, pool, id);
    }
  }

  lemma OneMessageReplies(before: Output, ids: seq<string>, msg: Message, tag: Option<nat>, cfg: Config, pool: Pool,
                          id: string)
    requires before.used == IdsOf(ids) && Keyed(pool)
    requires Answerable(EmittedIds(Transform(msg, tag, cfg.mode)), pool, IdsOf(ids))
    requires RepliesTo(before.history, id) == if id in ids then AsReplies(Lookup(pool, id)) else []
    ensures var m := Transform(msg, tag, cfg.mode);
      RepliesTo(EmitBody(EmitSummary(before, msg, tag, cfg), m, pool).history, id) ==
        if id in ids + EmittedIds(m) then AsReplies(Lookup(pool, id)) else []
  {
    var m := Transform(msg, tag, cfg.mode);
    EmitSummaryReplies(before, msg, tag, cfg, id);
    EmitBodyReplies(EmitSummary(before, msg, tag, cfg), m, pool, id);
    if id in ids { NotAnsweredTwice(ids, EmittedIds(m), pool, id); }
  }

  lemma NotAnsweredTwice(a: seq<string>, b: seq<string>, pool: Pool, id: string)
    requires Answerable(b, pool, IdsOf(a)) && id in a
    ensures id !in b
  {
    forall k | 0 <= k < |b| ensures b[k] != id { assert AnswerableAt(b, pool, IdsOf(a), k); }
  }

  /** The calls that ask in a request are the surviving ones. */
  lemma {:induction false} AskedSurvive(w: seq<Message>, tags: Tags, cfg: Config, pool: Pool, n: nat, k: nat, c: Call)
    requires n <= |w| == |tags|
    requires var h := EmitUpTo(w, tags, cfg, pool, n).history; k < |h| && AsksForTools(h[k]) && c in Calls(h[k].parts)
    ensures c.id in SurvivingIds(w, tags, cfg.mode, n)
  {
    var before := EmitUpTo(w, tags, cfg, pool, n - 1);
    var mid, m := EmitSummary(before, w[n - 1], tags[n - 1], cfg), Transform(w[n - 1], tags[n - 1], cfg.mode);
    if k < |before.history| {
      AskedSurvive(w, tags, cfg, pool, n - 1, k, c);
    } else if k >= |mid.history| {
      AskedIsEmitted(mid, m, pool, k, c);
    }
  }

  lemma AskedIsEmitted(mid: Output, m: Message, pool: Pool, k: nat, c: Call)
    requires var h := EmitBody(mid, m, pool).history;
      |mid.history| <= k < |h| && AsksForTools(h[k]) && c in Calls(h[k].parts)
    ensures c.id in EmittedIds(m)
  {
    assert EmitBody(mid, m, pool).history[|mid.history|] == Body(m);
    var j :| 0 <= j < |Calls(m.parts)| && Calls(m.parts)[j] == c;
    assert CallIds(Calls(m.parts))[j] == c.id;
  }

  // ------------------------------------------------- repair, then render

  /** A call a render can show that has a result anywhere has one in a tool message. */
  ghost predicate ReadableReplies(msgs: seq<Message>) {
    forall i: nat, id: string :: CallAt(msgs, i, id) && !(i == 0 && msgs[0].isSummary) && id in ResolvedIds(msgs) ==>
      exists j: nat :: ResultAt(msgs, j, id)
  }

  lemma RepairAnswersShown(msgs: seq<Message>)
    requires ReadableReplies(msgs)
    ensures AnsweredIfShown(Repair(msgs))
  {
    var out := Repair(msgs);
    forall i: nat, id: string | CallAt(out, i, id) && !(i == 0 && out[0].isSummary)
      ensures exists j: nat :: ResultAt(out, j, id)
    {
      RepairedCallAt(msgs, i, id);
      assert i == 0 ==> out[0] == RepairMessage(msgs[0], ResolvedIds(msgs));
      RepairedAnswer(msgs, i, id);
    }
  }

  /** Everything the transcript stores for these calls, call by call, as shown. */
  function ShownReplies(calls: seq<Call>, msgs: seq<Message>, start: nat, tags: Tags, cfg: Config): seq<Reply>
    requires start <= |msgs| && |tags| == |msgs| - start
  {
    if calls == [] then []
    else
      ShownReplies(calls[..|calls| - 1], msgs, start, tags, cfg)
      + AsReplies(ShownStored(msgs, start, tags, cfg, calls[|calls| - 1].id))
  }

  lemma {:induction false} StoredAreShown(calls: seq<Call>, pool: Pool, msgs: seq<Message>, start: nat, tags: Tags,
                                          cfg: Config)
    requires start <= |msgs| && |tags| == |msgs| - start
    requires forall c :: c in calls ==> c.id in pool && pool[c.id] == ShownStored(msgs, start, tags, cfg, c.id)
    ensures StoredReplies(calls, pool) == ShownReplies(calls, msgs, start, tags, cfg)
  {
    if calls != [] {
      assert calls == calls[..|calls| - 1] + [calls[|calls| - 1]];
      StoredAreShown(calls[..|calls| - 1], pool, msgs, start, tags, cfg);
    }
  }

  /** Repair, then render any suffix in any mode: no reply is made up, and every tool
      message is exactly what the repaired transcript stores for the calls in front
      of it, each result as its own message's turn shows it. */
  lemma RepairedTranscriptRendersStored(msgs: seq<Message>, start: nat, tags: Tags, cfg: Config)
    requires UniqueCallIds(msgs) && ResultsFollowCalls(msgs) && ReadableReplies(msgs)
    requires start <= |Repair(msgs)| && |tags| == |Repair(msgs)| - start
    ensures var h := RenderedHistory(Window(Repair(msgs), start), tags, cfg);
      && AllStored(h) && Paired(h)
      && forall k :: 0 <= k < |h| && AsksForTools(h[k]) ==>
           k + 1 < |h| && h[k + 1] == ToolMsg(ShownReplies(Calls(h[k].parts), Repair(msgs), start, tags, cfg))
  {
    var w := Window(Repair(msgs), start);
    var h, pool := RenderedHistory(w, tags, cfg), FullPool(w, tags, cfg);
    RepairKeepsShape(msgs);
    RepairAnswersShown(msgs);
    AnsweredTranscriptNeverSynthesizes(Repair(msgs), start, tags, cfg);
    RenderIsPaired(w, tags, cfg);
    forall k | 0 <= k < |h| && AsksForTools(h[k])
      ensures k + 1 < |h| && h[k + 1] == ToolMsg(ShownReplies(Calls(h[k].parts), Repair(msgs), start, tags, cfg))
    {
      StoredRendersServeAll(w, tags, cfg, k);
      forall c | c in Calls(h[k].parts)
        ensures c.id in pool && pool[c.id] == ShownStored(Repair(msgs), start, tags, cfg, c.id)
      {
        AskedSurvive(w, tags, cfg, pool, |w|, k, c);
        SurvivingCallHasAllResults(Repair(msgs), start, tags, cfg, c.id);
      }
      StoredAreShown(Calls(h[k].parts), pool, Repair(msgs), start, tags, cfg);
    }
  }

  /** Repair, then render any suffix in any mode: each stored result of a call that
      survives is in the request exactly once, as its own message's turn shows it and
      in stored order, and the request replies to no other call. */
  lemma EachStoredResultIsShownOnce(msgs: seq<Message>, start: nat, tags: Tags, cfg: Config, id: string)
    requires UniqueCallIds(msgs) && ResultsFollowCalls(msgs) && ReadableReplies(msgs)
    requires start <= |Repair(msgs)| && |tags| == |Repair(msgs)| - start
    ensures var w := Window(Repair(msgs), start);
      RepliesTo(RenderedHistory(w, tags, cfg), id) ==
        if id in SurvivingIds(w, tags, cfg.mode, |w|) then AsReplies(ShownStored(Repair(msgs), start, tags, cfg, id))
        else []
  {
    var w := Window(Repair(msgs), start);
    RepairKeepsShape(msgs);
    RepairAnswersShown(msgs);
    SurvivorsAreAnswerable(Repair(msgs), start, tags, cfg);
    PoolKeyed(w, tags, cfg);
    RepliesArePooled(w, tags, cfg, FullPool(w, tags, cfg), |w|, id);
    if id in SurvivingIds(w, tags, cfg.mode, |w|) { SurvivingCallHasAllResults(Repair(msgs), start, tags, cfg, id); }
  }

  const VERBATIM := Config(Verbatim, false, map[])

  function Untagged(n: nat): (tags: Tags)
    ensures |tags| == n && forall k :: 0 <= k < n ==> tags[k] == None
  {
    seq(n, _ => None)
  }

  lemma {:induction false} VerbatimSurvives(w: seq<Message>, n: nat, i: nat, id: string)
    requires i < n <= |w| && CallAt(w, i, id)
    ensures id in SurvivingIds(w, Untagged(|w|), Verbatim, n)
  {
    if i < n - 1 { VerbatimSurvives(w, n - 1, i, id); }
  }

  /** A verbatim pool holds nothing for a call without a result in a tool message. */
  lemma {:induction false} NothingPooled(w: seq<Message>, index: Index, n: nat, id: string)
    requires n <= |w| && forall j: nat :: !ResultAt(w, j, id)
    ensures ResultsFor(w, Untagged(|w|), VERBATIM, index, n, id) == []
  {
    if n > 0 {
      NothingPooled(w, index, n - 1, id);
      StoredInIff(w, n - 1, id);
    }
  }

  lemma UnansweredIsMadeUp(w: seq<Message>, i: nat, id: string)
    requires CallAt(w, i, id) && forall j: nat :: !ResultAt(w, j, id)
    ensures !AllStored(RenderedHistory(w, Untagged(|w|), VERBATIM))
  {
    var tags := Untagged(|w|);
    var ids := SurvivingIds(w, tags, Verbatim, |w|);
    VerbatimSurvives(w, |w|, i, id);
    NothingPooled(w, IndexUpTo(w, tags, Verbatim, |w|), |w|, id);
    var k :| 0 <= k < |ids| && ids[k] == id;
    assert !AnswerableAt(ids, FullPool(w, tags, VERBATIM), {}, k);
    SyntheticExactlyWhenUnanswerable(w, tags, VERBATIM);
  }

  /** A call whose only results sit outside tool messages is left alone by repair,
      and the verbatim render of the whole transcript makes a reply up for it. */
  lemma MisplacedResultIsMadeUp(msgs: seq<Message>, i: nat, id: string)
    requires CallAt(msgs, i, id) && !(i == 0 && msgs[0].isSummary)
    requires id in ResolvedIds(msgs) && forall j: nat :: !ResultAt(msgs, j, id)
    ensures var w := Window(Repair(msgs), 0); !AllStored(RenderedHistory(w, Untagged(|w|), VERBATIM))
  {
    var out := Repair(msgs);
    StoredCallAt(msgs, i, id);
    assert i == 0 ==> out[0] == RepairMessage(msgs[0], ResolvedIds(msgs));
    WindowKeepsCall(out, i, id);
    forall j: nat ensures !ResultAt(Window(out, 0), j, id) {
      if ResultAt(out, j, id) { ReadResultIsStored(msgs, j, id); }
      WindowAddsNoResult(out, j, id);
    }
    UnansweredIsMadeUp(Window(out, 0), i, id);
  }

  lemma WindowKeepsCall(msgs: seq<Message>, i: nat, id: string)
    requires CallAt(msgs, i, id) && !(i == 0 && msgs[0].isSummary)
    ensures CallAt(Window(msgs, 0), i, id)
  {
    WindowAt(msgs, 0, i);
    if i == 0 { assert msgs[0..][0] == msgs[0]; }
  }

  lemma WindowAddsNoResult(msgs: seq<Message>, j: nat, id: string)
    ensures ResultAt(Window(msgs, 0), j, id) ==> ResultAt(msgs, j, id)
  {
    if j < |msgs| { WindowAt(msgs, 0, j); }
  }

  ghost predicate NothingMadeUp(msgs: seq<Message>, start: nat, tags: Tags, cfg: Config) {
    start <= |msgs| && |tags| == |msgs| - start ==> AllStored(RenderedHistory(Window(msgs, start), tags, cfg))
  }

  /** Of transcripts with unique call IDs and results behind their calls, exactly
      those render without a made-up reply after repair, from every start, under
      every choice of collapsed turns and in every mode, in which no call that can be
      shown has all its results outside tool messages. */
  lemma RepairedRendersStoredIff(msgs: seq<Message>)
    requires UniqueCallIds(msgs) && ResultsFollowCalls(msgs)
    ensures (forall start: nat, tags, cfg :: NothingMadeUp(Repair(msgs), start, tags, cfg)) <==> ReadableReplies(msgs)
  {
    if ReadableReplies(msgs) {
      forall start: nat, tags, cfg ensures NothingMadeUp(Repair(msgs), start, tags, cfg) {
        if start <= |Repair(msgs)| && |tags| == |Repair(msgs)| - start {
          RepairedTranscriptRendersStored(msgs, start, tags, cfg);
        }
      }
    } else {
      var i: nat, id: string :| CallAt(msgs, i, id) && !(i == 0 && msgs[0].isSummary) && id in ResolvedIds(msgs) &&
        forall j: nat :: !ResultAt(msgs, j, id);
      MisplacedResultIsMadeUp(msgs, i, id);
      assert !NothingMadeUp(Repair(msgs), 0, Untagged(|Window(Repair(msgs), 0)|), VERBATIM);
    }
  }
}
