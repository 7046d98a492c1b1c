/** What the renderer promises a provider, for every transcript, window and mode. */
module RenderProperties {
  import opened Transcript
  import opened PriorTurns
  import opened Settle
  import opened Render

  // -------------------------------------------------- calls next to results

  predicate AsksForTools(p: ProviderMessage) {
    p.AssistantMsg? && Calls(p.parts) != []
  }

  /** Position `k` keeps the provider contract: an assistant message with calls
      is followed at once by the tool message that answers each of its calls, in
      order, and no other; a tool message stands nowhere else. */
  ghost predicate PairedAt(h: seq<ProviderMessage>, k: nat)
    requires k < |h|
  {
    && (AsksForTools(h[k]) ==> k + 1 < |h| && h[k + 1].ToolMsg? && AnswersInOrder(Calls(h[k].parts), h[k + 1].replies))
    && (h[k].ToolMsg? ==> k > 0 && AsksForTools(h[k - 1]))
  }

  ghost predicate Paired(h: seq<ProviderMessage>) {
    forall k :: 0 <= k < |h| ==> PairedAt(h, k)
  }

  /** Position `k` is served from the pool: the replies behind a message with
      calls are what the pool held for them. */
  ghost predicate ServedAt(h: seq<ProviderMessage>, k: nat, pool: Pool)
    requires k < |h|
  {
    && (AsksForTools(h[k]) ==>
          k + 1 < |h| && h[k + 1].ToolMsg? && exists used :: h[k + 1].replies == Replies(Calls(h[k].parts), pool, used))
    && (h[k].ToolMsg? ==> k > 0 && AsksForTools(h[k - 1]))
  }

  ghost predicate Served(h: seq<ProviderMessage>, pool: Pool) {
    forall k :: 0 <= k < |h| ==> ServedAt(h, k, pool)
  }

  lemma ServedPlain(h: seq<ProviderMessage>, p: ProviderMessage, pool: Pool)
    requires Served(h, pool) && !AsksForTools(p) && !p.ToolMsg?
    ensures Served(h + [p], pool)
  {
    forall k | 0 <= k < |h + [p]| ensures ServedAt(h + [p], k, pool) {
      if k < |h| { assert ServedAt(h, k, pool); }
    }
  }

  lemma ServedWithTools(h: seq<ProviderMessage>, parts: seq<Part>, pool: Pool, used: set<string>)
    requires Served(h, pool) && Calls(parts) != []
    ensures Served(h + [AssistantMsg(parts), ToolMsg(Replies(Calls(parts), pool, used))], pool)
  {
    var out := h + [AssistantMsg(parts), ToolMsg(Replies(Calls(parts), pool, used))];
    forall k | 0 <= k < |out| ensures ServedAt(out, k, pool) {
      if k < |h| { assert ServedAt(h, k, pool); }
    }
  }

  lemma {:induction false} MatchingIds(results: seq<Result>, id: string)
    ensures forall k :: 0 <= k < |Matching(results, id)| ==> Matching(results, id)[k].callId == id
  {
    if results != [] { MatchingIds(results[..|results| - 1], id); }
  }

  lemma {:induction false} ResultsForIds(w: seq<Message>, tags: Tags, cfg: Config, index: Index, n: nat, id: string)
    requires n <= |w| == |tags|
    ensures forall k :: 0 <= k < |ResultsFor(w, tags, cfg, index, n, id)| ==>
      ResultsFor(w, tags, cfg, index, n, id)[k].callId == id
  {
    if n > 0 {
      ResultsForIds(w, tags, cfg, index, n - 1, id);
      MatchingIds(Results(ToolSide(w[n - 1].parts, tags[n - 1], cfg, index)), id);
    }
  }

  lemma PoolKeyed(w: seq<Message>, tags: Tags, cfg: Config)
    requires |w| == |tags|
    ensures Keyed(FullPool(w, tags, cfg))
  {
    var index := IndexUpTo(w, tags, cfg.mode, |w|);
    forall id | id in FullPool(w, tags, cfg)
      ensures forall k :: 0 <= k < |FullPool(w, tags, cfg)[id]| ==> FullPool(w, tags, cfg)[id][k].callId == id
    {
      ResultsForIds(w, tags, cfg, index, |w|, id);
    }
  }

  lemma {:induction false} EmitServed(w: seq<Message>, tags: Tags, cfg: Config, pool: Pool, n: nat)
    requires n <= |w| == |tags|
    ensures Served(EmitUpTo(w, tags, cfg, pool, n).history, pool)
  {
    if n > 0 {
      EmitServed(w, tags, cfg, pool, n - 1);
      var before := EmitUpTo(w, tags, cfg, pool, n - 1);
      var tag := tags[n - 1];
      var mid, m := EmitSummary(before, w[n - 1], tag, cfg), Transform(w[n - 1], tag, cfg.mode);
      if mid != before { ServedPlain(before.history, mid.history[|before.history|], pool); }
      if !Silent(m) {
        if m.role == Assistant && Calls(m.parts) != [] {
          ServedWithTools(mid.history, m.parts, pool, mid.used);
        } else {
          ServedPlain(mid.history, Body(m), pool);
        }
      }
    }
  }

  /** For every window, tagging and mode, whatever the transcript holds, each
      rendered message with calls is followed at once by its results. */
  lemma RenderIsPaired(w: seq<Message>, tags: Tags, cfg: Config)
    requires |w| == |tags|
    ensures Paired(RenderedHistory(w, tags, cfg))
  {
    var h, pool := RenderedHistory(w, tags, cfg), FullPool(w, tags, cfg);
    PoolKeyed(w, tags, cfg);
    EmitServed(w, tags, cfg, pool, |w|);
    forall k | 0 <= k < |h| ensures PairedAt(h, k) {
      assert ServedAt(h, k, pool);
      if AsksForTools(h[k]) {
        var used :| h[k + 1].replies == Replies(Calls(h[k].parts), pool, used);
        RepliesAnswer(Calls(h[k].parts), pool, used);
      }
    }
  }

  // ------------------------------------------- exactly when a reply is made up

  /** No reply of the rendered request is synthetic. */
  ghost predicate AllStored(h: seq<ProviderMessage>) {
    forall k :: 0 <= k < |h| ==> StoredAt(h[k])
  }

  predicate StoredAt(p: ProviderMessage) {
    p.ToolMsg? ==> RepliesStored(p.replies)
  }

  predicate RepliesStored(replies: seq<Reply>) {
    forall j :: 0 <= j < |replies| ==> replies[j].Stored?
  }

  /** The call IDs this render emits, in emission order. */
  function EmittedIds(m: Message): (ids: seq<string>) {
    if !Silent(m) && m.role == Assistant then CallIds(Calls(m.parts)) else []
  }

  function SurvivingIds(w: seq<Message>, tags: Tags, mode: Mode, n: nat): seq<string>
    requires n <= |w| == |tags|
  {
    if n == 0 then []
    else SurvivingIds(w, tags, mode, n - 1) + EmittedIds(Transform(w[n - 1], tags[n - 1], mode))
  }

  function IdsOf(ids: seq<string>): set<string> { set id | id in ids }

  lemma IdsOfConcat(a: seq<string>, b: seq<string>)
    ensures IdsOf(a + b) == IdsOf(a) + IdsOf(b)
  {
  }

  /** Each ID is fresh, among those before it too, and has a stored result waiting. */
  predicate Answerable(ids: seq<string>, pool: Pool, used: set<string>) {
    forall k :: 0 <= k < |ids| ==> AnswerableAt(ids, pool, used, k)
  }

  predicate AnswerableAt(ids: seq<string>, pool: Pool, used: set<string>, k: nat)
    requires k < |ids|
  {
    ids[k] !in used && ids[k] !in ids[..k] && ids[k] in pool && pool[ids[k]] != []
  }

  lemma IdSetOfIds(calls: seq<Call>)
    ensures IdSet(calls) == set k | 0 <= k < |calls| :: CallIds(calls)[k]
  {
    forall id ensures id in IdSet(calls) <==> exists k :: 0 <= k < |calls| && CallIds(calls)[k] == id {
      if id in IdSet(calls) {
        var c :| c in calls && c.id == id;
        var k :| 0 <= k < |calls| && calls[k] == c;
        assert CallIds(calls)[k] == id;
      }
      if k :| 0 <= k < |calls| && CallIds(calls)[k] == id { assert calls[k] in calls; }
    }
  }

  lemma GroupStored(id: string, pool: Pool, used: set<string>)
    ensures RepliesStored(Group(id, pool, used)) <==> id in pool && id !in used && pool[id] != []
  {
    if !(id in pool && id !in used && pool[id] != []) { assert Group(id, pool, used)[0].Synthetic?; }
  }

  lemma StoredConcat(a: seq<Reply>, b: seq<Reply>)
    ensures RepliesStored(a + b) <==> RepliesStored(a) && RepliesStored(b)
  {
    if RepliesStored(a + b) {
      forall j | 0 <= j < |a| ensures a[j].Stored? { assert (a + b)[j].Stored?; }
      forall j | 0 <= j < |b| ensures b[j].Stored? { assert (a + b)[|a| + j].Stored?; }
    }
  }

  lemma AnswerableSnoc(ids: seq<string>, id: string, pool: Pool, used: set<string>)
    ensures Answerable(ids + [id], pool, used) <==>
      Answerable(ids, pool, used) && id !in used && id !in ids && id in pool && pool[id] != []
  {
    var all := ids + [id];
    assert all[..|ids|] == ids;
    assert AnswerableAt(all, pool, used, |ids|) <==> id !in used && id !in ids && id in pool && pool[id] != [];
    forall k | 0 <= k < |ids| ensures AnswerableAt(all, pool, used, k) <==> AnswerableAt(ids, pool, used, k) {
      assert all[..k] == ids[..k];
    }
    if Answerable(all, pool, used) {
      forall k | 0 <= k < |ids| ensures AnswerableAt(ids, pool, used, k) { assert AnswerableAt(all, pool, used, k); }
      assert AnswerableAt(all, pool, used, |ids|);
    }
  }

  lemma {:induction false} RepliesStoredIff(calls: seq<Call>, pool: Pool, used: set<string>)
    ensures RepliesStored(Replies(calls, pool, used)) <==> Answerable(CallIds(calls), pool, used)
  {
    if calls != [] {
      var front, id := calls[..|calls| - 1], calls[|calls| - 1].id;
      RepliesStoredIff(front, pool, used);
      StoredConcat(Replies(front, pool, used), Group(id, pool, used + IdSet(front)));
      GroupStored(id, pool, used + IdSet(front));
      assert CallIds(calls) == CallIds(front) + [id];
      AnswerableSnoc(CallIds(front), id, pool, used);
      IdSetOfIds(front);
      assert id in IdSet(front) <==> id in CallIds(front);
    }
  }

  lemma {:induction false} AnswerableConcat(a: seq<string>, b: seq<string>, pool: Pool)
    ensures Answerable(a + b, pool, {}) <==> Answerable(a, pool, {}) && Answerable(b, pool, IdsOf(a))
  {
    if b == [] {
      assert a + b == a;
    } else {
      var front, id := b[..|b| - 1], b[|b| - 1];
      AnswerableConcat(a, front, pool);
      assert a + b == (a + front) + [id];
      assert b == front + [id];
      AnswerableSnoc(a + front, id, pool, {});
      AnswerableSnoc(front, id, pool, IdsOf(a));
    }
  }

  lemma AllStoredSnoc(h: seq<ProviderMessage>, p: ProviderMessage)
    ensures AllStored(h + [p]) <==> AllStored(h) && StoredAt(p)
  {
    if AllStored(h + [p]) {
      forall k | 0 <= k < |h| ensures StoredAt(h[k]) { assert StoredAt((h + [p])[k]); }
      assert StoredAt((h + [p])[|h|]);
    }
  }

  lemma EmitSummaryNeutral(out: Output, m: Message, tag: Option<nat>, cfg: Config)
    ensures EmitSummary(out, m, tag, cfg).used == out.used
    ensures AllStored(EmitSummary(out, m, tag, cfg).history) <==> AllStored(out.history)
  {
    var mid := EmitSummary(out, m, tag, cfg);
    if mid != out { AllStoredSnoc(out.history, mid.history[|out.history|]); }
  }

  lemma {:induction false} UsedAreSurviving(w: seq<Message>, tags: Tags, cfg: Config, pool: Pool, n: nat)
    requires n <= |w| == |tags|
    ensures EmitUpTo(w, tags, cfg, pool, n).used == IdsOf(SurvivingIds(w, tags, cfg.mode, n))
  {
    if n > 0 {
      UsedAreSurviving(w, tags, cfg, pool, n - 1);
      var before := EmitUpTo(w, tags, cfg, pool, n - 1);
      EmitSummaryNeutral(before, w[n - 1], tags[n - 1], cfg);
      EmitBodyStoredIff(EmitSummary(before, w[n - 1], tags[n - 1], cfg), Transform(w[n - 1], tags[n - 1], cfg.mode),
                        pool);
      IdsOfConcat(SurvivingIds(w, tags, cfg.mode, n - 1), EmittedIds(Transform(w[n - 1], tags[n - 1], cfg.mode)));
    }
  }

  lemma {:induction false} EmitStoredIff(w: seq<Message>, tags: Tags, cfg: Config, pool: Pool, n: nat)
    requires n <= |w| == |tags|
    ensures AllStored(EmitUpTo(w, tags, cfg, pool, n).history) <==>
      Answerable(SurvivingIds(w, tags, cfg.mode, n), pool, {})
  {
    if n > 0 {
      EmitStoredIff(w, tags, cfg, pool, n - 1);
      UsedAreSurviving(w, tags, cfg, pool, n - 1);
      EmitStoredStep(EmitUpTo(w, tags, cfg, pool, n - 1), SurvivingIds(w, tags, cfg.mode, n - 1), w[n - 1], tags[n - 1],
                     cfg, pool);
    }
  }

  lemma EmitStoredStep(before: Output, ids: seq<string>, msg: Message, tag: Option<nat>, cfg: Config, pool: Pool)
    requires before.used == IdsOf(ids) && (AllStored(before.history) <==> Answerable(ids, pool, {}))
    ensures var m := Transform(msg, tag, cfg.mode);
      AllStored(EmitBody(EmitSummary(before, msg, tag, cfg), m, pool).history) <==>
        Answerable(ids + EmittedIds(m), pool, {})
  {
    EmitOneStored(before, msg, tag, cfg, pool);
    AnswerableConcat(ids, EmittedIds(Transform(msg, tag, cfg.mode)), pool);
  }

  lemma EmitOneStored(before: Output, msg: Message, tag: Option<nat>, cfg: Config, pool: Pool)
    ensures var m := Transform(msg, tag, cfg.mode);
      AllStored(EmitBody(EmitSummary(before, msg, tag, cfg), m, pool).history) <==>
        AllStored(before.history) && Answerable(EmittedIds(m), pool, before.used)
  {
    EmitSummaryNeutral(before, msg, tag, cfg);
    EmitBodyStoredIff(EmitSummary(before, msg, tag, cfg), Transform(msg, tag, cfg.mode), pool);
  }

  lemma EmitBodyStoredIff(mid: Output, m: Message, pool: Pool)
    ensures EmitBody(mid, m, pool).used == mid.used + IdsOf(EmittedIds(m))
    ensures AllStored(EmitBody(mid, m, pool).history) <==>
      AllStored(mid.history) && Answerable(EmittedIds(m), pool, mid.used)
  {
    var calls := Calls(m.parts);
    if !Silent(m) {
      AllStoredSnoc(mid.history, Body(m));
      if m.role == Assistant && calls != [] {
        var t := ToolMsg(Replies(calls, pool, mid.used));
        RepliesStoredIff(calls, pool, mid.used);
        assert mid.history + [Body(m), t] == (mid.history + [Body(m)]) + [t];
        AllStoredSnoc(mid.history + [Body(m)], t);
        IdSetOfIds(calls);
      }
    }
  }

  /** A reply is made up exactly when two emitted calls share an ID or an emitted
      call has no stored result left in the window. */
  lemma SyntheticExactlyWhenUnanswerable(w: seq<Message>, tags: Tags, cfg: Config)
    requires |w| == |tags|
    ensures AllStored(RenderedHistory(w, tags, cfg)) <==>
      Answerable(SurvivingIds(w, tags, cfg.mode, |w|), FullPool(w, tags, cfg), {})
  {
    EmitStoredIff(w, tags, cfg, FullPool(w, tags, cfg), |w|);
  }

  /** All stored results of these calls, call by call and nothing else. */
  function StoredReplies(calls: seq<Call>, pool: Pool): seq<Reply> {
    if calls == [] then []
    else StoredReplies(calls[..|calls| - 1], pool) + AsReplies(Lookup(pool, calls[|calls| - 1].id))
  }

  lemma {:induction false} RepliesWhenStored(calls: seq<Call>, pool: Pool, used: set<string>)
    requires RepliesStored(Replies(calls, pool, used))
    ensures Replies(calls, pool, used) == StoredReplies(calls, pool)
  {
    if calls != [] {
      var front, id := calls[..|calls| - 1], calls[|calls| - 1].id;
      StoredConcat(Replies(front, pool, used), Group(id, pool, used + IdSet(front)));
      GroupStored(id, pool, used + IdSet(front));
      RepliesWhenStored(front, pool, used);
    }
  }

  /** When nothing is made up, each tool message is the pool's results for the
      calls in front of it: all of them, in call order, each call's in stored order. */
  lemma StoredRendersServeAll(w: seq<Message>, tags: Tags, cfg: Config, k: nat)
    requires |w| == |tags| && AllStored(RenderedHistory(w, tags, cfg))
    requires k < |RenderedHistory(w, tags, cfg)| && AsksForTools(RenderedHistory(w, tags, cfg)[k])
    ensures var h := RenderedHistory(w, tags, cfg);
      k + 1 < |h| && h[k + 1] == ToolMsg(StoredReplies(Calls(h[k].parts), FullPool(w, tags, cfg)))
  {
    var h, pool := RenderedHistory(w, tags, cfg), FullPool(w, tags, cfg);
    EmitServed(w, tags, cfg, pool, |w|);
    assert ServedAt(h, k, pool);
    var used :| h[k + 1].replies == Replies(Calls(h[k].parts), pool, used);
    assert StoredAt(h[k + 1]);
    RepliesWhenStored(Calls(h[k].parts), pool, used);
  }

  // ------------------------------------------------- nothing else is reordered

  lemma {:induction false} ShownIsIn(w: seq<Message>, tags: Tags, mode: Mode, n: nat, i: nat, p: ProviderMessage)
    requires i < n <= |w| == |tags| && ShownBody(w[i], tags[i], mode) == [p]
    ensures p in ShownBodies(w, tags, mode, n)
  {
    if i < n - 1 {
      ShownIsIn(w, tags, mode, n - 1, i, p);
    } else {
      var before := ShownBodies(w, tags, mode, i);
      assert (before + [p])[|before|] == p;
    }
  }

  lemma {:induction false} BodyIsRendered(h: seq<ProviderMessage>, p: ProviderMessage)
    requires p in Bodies(h)
    ensures p in h
  {
    if h != [] {
      var front, last := h[..|h| - 1], h[|h| - 1];
      assert h == front + [last];
      if p in Bodies(front) { BodyIsRendered(front, p); }
    }
  }

  /** Whatever collapses, every prompt of the window is in the request as stored. */
  lemma EveryPromptIsSent(w: seq<Message>, tags: Tags, cfg: Config, i: nat)
    requires i < |w| == |tags| && w[i].role == User && w[i].parts != []
    ensures UserMsg(w[i].parts) in RenderedHistory(w, tags, cfg)
  {
    RenderKeepsOrder(w, tags, cfg, FullPool(w, tags, cfg), |w|);
    ShownIsIn(w, tags, cfg.mode, |w|, i, UserMsg(w[i].parts));
    BodyIsRendered(RenderedHistory(w, tags, cfg), UserMsg(w[i].parts));
  }

  // -------------------------------------------------------- one summary a turn

  function SummaryCount(h: seq<ProviderMessage>, turn: nat): nat {
    if h == [] then 0
    else
      var last := h[|h| - 1];
      SummaryCount(h[..|h| - 1], turn) + if last.SummaryMsg? && last.turn == turn then 1 else 0
  }

  lemma SummaryCountSnoc(h: seq<ProviderMessage>, p: ProviderMessage, turn: nat)
    ensures SummaryCount(h + [p], turn) == SummaryCount(h, turn) + if p.SummaryMsg? && p.turn == turn then 1 else 0
  {
    assert (h + [p])[..|h|] == h;
  }

  /** Message `i` belongs to the executable span of a collapsed turn. */
  predicate InSpan(w: seq<Message>, tags: Tags, i: nat, turn: nat)
    requires |w| == |tags|
  {
    i < |w| && tags[i] == Some(turn) && w[i].role != User
  }

  lemma EmitBodySummaries(mid: Output, m: Message, pool: Pool, turn: nat)
    ensures SummaryCount(EmitBody(mid, m, pool).history, turn) == SummaryCount(mid.history, turn)
    ensures EmitBody(mid, m, pool).summarized == mid.summarized
  {
    if !Silent(m) {
      SummaryCountSnoc(mid.history, Body(m), turn);
      if m.role == Assistant && Calls(m.parts) != [] {
        var t := ToolMsg(Replies(Calls(m.parts), pool, mid.used));
        assert mid.history + [Body(m), t] == (mid.history + [Body(m)]) + [t];
        SummaryCountSnoc(mid.history + [Body(m)], t, turn);
      }
    }
  }

  /** Summarize mode emits one summary for each collapsed turn with an executable
      span in the window, and none for any other turn. */
  lemma {:induction false} OneSummaryPerTurn(w: seq<Message>, tags: Tags, cfg: Config, pool: Pool, n: nat, turn: nat)
    requires Tagged(w, tags, cfg) && n <= |w| && cfg.mode == Summarize
    ensures var out := EmitUpTo(w, tags, cfg, pool, n);
      && (turn in out.summarized <==> exists i: nat :: i < n && InSpan(w, tags, i, turn))
      && SummaryCount(out.history, turn) == if turn in out.summarized then 1 else 0
  {
    if n > 0 {
      OneSummaryPerTurn(w, tags, cfg, pool, n - 1, turn);
      SummaryStep(EmitUpTo(w, tags, cfg, pool, n - 1), w[n - 1], tags[n - 1], cfg, pool, turn);
      SpanGrows(w, tags, n, turn);
    }
  }

  lemma SpanGrows(w: seq<Message>, tags: Tags, n: nat, turn: nat)
    requires 0 < n <= |w| == |tags|
    ensures (exists i: nat :: i < n && InSpan(w, tags, i, turn)) <==>
      (exists i: nat :: i < n - 1 && InSpan(w, tags, i, turn)) || InSpan(w, tags, n - 1, turn)
  {
    if InSpan(w, tags, n - 1, turn) { assert n - 1 < n; }
  }

  lemma SummaryStep(before: Output, m: Message, tag: Option<nat>, cfg: Config, pool: Pool, turn: nat)
    requires cfg.mode == Summarize && (tag.Some? ==> tag.value in cfg.summaries)
    requires SummaryCount(before.history, turn) == if turn in before.summarized then 1 else 0
    ensures var out := EmitBody(EmitSummary(before, m, tag, cfg), Transform(m, tag, cfg.mode), pool);
      && (turn in out.summarized <==> turn in before.summarized || (tag == Some(turn) && m.role != User))
      && SummaryCount(out.history, turn) == if turn in out.summarized then 1 else 0
  {
    var mid := EmitSummary(before, m, tag, cfg);
    if mid != before { SummaryCountSnoc(before.history, mid.history[|before.history|], turn); }
    EmitBodySummaries(mid, Transform(m, tag, cfg.mode), pool, turn);
  }

  /** The summary stands where the span begins: right behind everything rendered
      before the first message of the span, and ahead of that message. */
  lemma SummaryOpensSpan(w: seq<Message>, tags: Tags, cfg: Config, pool: Pool, i: nat, turn: nat)
    requires Tagged(w, tags, cfg) && cfg.mode == Summarize && InSpan(w, tags, i, turn)
    requires forall j: nat :: j < i ==> !InSpan(w, tags, j, turn)
    ensures EmitUpTo(w, tags, cfg, pool, i).history + [SummaryMsg(turn, cfg.summaries[turn])]
         <= EmitUpTo(w, tags, cfg, pool, i + 1).history
  {
    OneSummaryPerTurn(w, tags, cfg, pool, i, turn);
  }
}
