/** The transcript renderer: stored messages become the provider messages of one
    request. Results are re-emitted right behind the message that asked for them
    wherever they are stored, because providers reject a call that is not
    followed at once by its results. */
module Render {
  import opened Transcript
  import opened PriorTurns
  import opened PriorTurnsProperties
  import opened Settle

  /** A provider message. User and assistant messages carry the parts they are
      converted from; converting part by part is not part of this model. */
  datatype ProviderMessage =
    | SystemMsg(text: string)
    | UserMsg(parts: seq<Part>)
    | AssistantMsg(parts: seq<Part>)
    | SummaryMsg(turn: nat, text: string)
    | ToolMsg(replies: seq<Reply>)

  /** `stubs` says that superseded results may render as stubs. */
  datatype Config = Config(mode: Mode, stubs: bool, summaries: map<nat, string>)

  /** For each message of the window, the collapsed turn it belongs to. */
  type Tags = seq<Option<nat>>

  datatype CallInfo = CallInfo(name: string, exempt: bool, dropped: bool)

  type Index = map<string, CallInfo>

  ghost predicate Tagged(w: seq<Message>, tags: Tags, cfg: Config) {
    && |tags| == |w|
    && (cfg.mode == Summarize ==> forall i :: 0 <= i < |tags| && tags[i].Some? ==> tags[i].value in cfg.summaries)
  }

  // ------------------------------------------------------- indexing the window

  function Info(c: Call, tag: Option<nat>, mode: Mode): CallInfo {
    CallInfo(c.name, CallIsExempt(c), mode == Summarize && tag.Some? && c.name != QUESTION_TOOL)
  }

  function AddCalls(index: Index, calls: seq<Call>, tag: Option<nat>, mode: Mode): Index {
    if calls == [] then index
    else
      var last := calls[|calls| - 1];
      AddCalls(index, calls[..|calls| - 1], tag, mode)[last.id := Info(last, tag, mode)]
  }

  /** Every call of the window by ID; a repeated ID keeps the last call. */
  function IndexUpTo(w: seq<Message>, tags: Tags, mode: Mode, n: nat): Index
    requires n <= |w| == |tags|
  {
    if n == 0 then map[]
    else
      var before, m := IndexUpTo(w, tags, mode, n - 1), w[n - 1];
      if m.role == Assistant then AddCalls(before, Calls(m.parts), tags[n - 1], mode) else before
  }

  function Names(index: Index): map<string, string> { map id | id in index :: index[id].name }

  function ExemptOf(index: Index): set<string> { set id | id in index && index[id].exempt }

  function DroppedOf(index: Index): set<string> { set id | id in index && index[id].dropped }

  /** The parts of a tool message as this render shows them. */
  function ToolSide(parts: seq<Part>, tag: Option<nat>, cfg: Config, index: Index): seq<Part> {
    if tag.Some? then
      if cfg.mode == Summarize then SummarizeToolParts(parts, Names(index), DroppedOf(index))
      else CollapseToolParts(parts, tag.value, cfg.mode, ExemptOf(index), Names(index))
    else if cfg.stubs then StubParts(parts)
    else parts
  }

  function Matching(results: seq<Result>, id: string): seq<Result> {
    if results == [] then []
    else
      var last := results[|results| - 1];
      Matching(results[..|results| - 1], id) + if last.callId == id then [last] else []
  }

  /** The shown results for one call, in stored order. */
  function ResultsFor(w: seq<Message>, tags: Tags, cfg: Config, index: Index, n: nat, id: string): seq<Result>
    requires n <= |w| == |tags|
  {
    if n == 0 then []
    else
      var before, m := ResultsFor(w, tags, cfg, index, n - 1, id), w[n - 1];
      if m.role == Tool then before + Matching(Results(ToolSide(m.parts, tags[n - 1], cfg, index)), id) else before
  }

  /** Results grouped by the call they answer; a result without a call in the
      window is dropped. */
  function PoolUpTo(w: seq<Message>, tags: Tags, cfg: Config, index: Index, n: nat): Pool
    requires n <= |w| == |tags|
  {
    map id | id in index && ResultsFor(w, tags, cfg, index, n, id) != [] :: ResultsFor(w, tags, cfg, index, n, id)
  }

  // ------------------------------------------------------ emitting the messages

  function Transform(m: Message, tag: Option<nat>, mode: Mode): Message {
    if tag.Some? && m.role == Assistant then
      if mode == Summarize then SummarizeAssistant(m) else CollapseAssistant(m, tag.value, mode)
    else m
  }

  /** Messages that emit nothing in their own place: empty ones, an assistant
      message cancelled before it said anything, and tool messages, whose results
      are emitted elsewhere. System messages convert to nothing. */
  predicate Silent(m: Message) {
    || m.parts == []
    || (m.role == Assistant && Calls(m.parts) == [] && FirstText(m.parts) == "" && FirstThinking(m.parts) == "")
    || m.role == Tool
    || m.role == System
  }

  function Body(m: Message): ProviderMessage
    requires m.role == User || m.role == Assistant
  {
    if m.role == User then UserMsg(m.parts) else AssistantMsg(m.parts)
  }

  datatype Output = Output(history: seq<ProviderMessage>, used: set<string>, summarized: set<nat>)

  function EmitSummary(out: Output, m: Message, tag: Option<nat>, cfg: Config): Output {
    if cfg.mode == Summarize && tag.Some? && m.role != User && tag.value !in out.summarized &&
      tag.value in cfg.summaries
    then Output(out.history + [SummaryMsg(tag.value, cfg.summaries[tag.value])], out.used, out.summarized + {tag.value})
    else out
  }

  function EmitBody(out: Output, m: Message, pool: Pool): Output {
    if Silent(m) then out
    else
      var calls := Calls(m.parts);
      if m.role == Assistant && calls != []
      then Output(out.history + [Body(m), ToolMsg(Replies(calls, pool, out.used))], out.used + IdSet(calls),
                  out.summarized)
      else Output(out.history + [Body(m)], out.used, out.summarized)
  }

  function EmitUpTo(w: seq<Message>, tags: Tags, cfg: Config, pool: Pool, n: nat): Output
    requires n <= |w| == |tags|
  {
    if n == 0 then Output([], {}, {})
    else
      var before := EmitUpTo(w, tags, cfg, pool, n - 1);
      EmitBody(EmitSummary(before, w[n - 1], tags[n - 1], cfg), Transform(w[n - 1], tags[n - 1], cfg.mode), pool)
  }

  function FullPool(w: seq<Message>, tags: Tags, cfg: Config): Pool
    requires |w| == |tags|
  {
    PoolUpTo(w, tags, cfg, IndexUpTo(w, tags, cfg.mode, |w|), |w|)
  }

  function RenderedHistory(w: seq<Message>, tags: Tags, cfg: Config): seq<ProviderMessage>
    requires |w| == |tags|
  {
    EmitUpTo(w, tags, cfg, FullPool(w, tags, cfg), |w|).history
  }

  // -------------------------------------------------- what a render is to show

  /** What one message shows of its parts. */
  function ShownParts(m: Message, tag: Option<nat>, mode: Mode): seq<Part> {
    if m.role != Assistant || tag.None? then m.parts
    else if mode == Summarize then BaredParts(m.parts, |m.parts|)
    else ShrunkParts(m.parts, mode, tag.value)
  }

  /** Every prompt with parts is shown, and every assistant message left with a call, a
      text or thinking; nothing else is shown in its own place. */
  function ShownBody(m: Message, tag: Option<nat>, mode: Mode): seq<ProviderMessage> {
    var parts := ShownParts(m, tag, mode);
    match m.role
    case User => if parts == [] then [] else [UserMsg(parts)]
    case Assistant => if Asks(parts) || Speaks(parts) || Thinks(parts) then [AssistantMsg(parts)] else []
    case _ => []
  }

  function ShownBodies(w: seq<Message>, tags: Tags, mode: Mode, n: nat): seq<ProviderMessage>
    requires n <= |w| == |tags|
  {
    if n == 0 then [] else ShownBodies(w, tags, mode, n - 1) + ShownBody(w[n - 1], tags[n - 1], mode)
  }

  /** The rendered messages without tool messages and turn summaries. */
  function Bodies(h: seq<ProviderMessage>): seq<ProviderMessage> {
    if h == [] then []
    else
      var last := h[|h| - 1];
      Bodies(h[..|h| - 1]) + if last.ToolMsg? || last.SummaryMsg? then [] else [last]
  }

  lemma BodiesSnoc(h: seq<ProviderMessage>, p: ProviderMessage)
    ensures Bodies(h + [p]) == Bodies(h) + if p.ToolMsg? || p.SummaryMsg? then [] else [p]
  {
    assert (h + [p])[..|h|] == h;
  }

  lemma TransformShows(m: Message, tag: Option<nat>, mode: Mode)
    ensures Transform(m, tag, mode) == m.(parts := ShownParts(m, tag, mode))
  {
    if tag.Some? && m.role == Assistant {
      CollapseShows(m, tag.value, mode);
      SummarizeShows(m);
    }
  }

  lemma BodyShows(m: Message, tag: Option<nat>, mode: Mode)
    ensures var out := Transform(m, tag, mode);
      ShownBody(m, tag, mode) == if Silent(out) then [] else [Body(out)]
  {
    var parts := ShownParts(m, tag, mode);
    TransformShows(m, tag, mode);
    AsksIff(parts);
    SpeaksIff(parts);
    ThinksIff(parts);
  }

  lemma EmitSummaryBodies(out: Output, m: Message, tag: Option<nat>, cfg: Config)
    ensures Bodies(EmitSummary(out, m, tag, cfg).history) == Bodies(out.history)
  {
    var mid := EmitSummary(out, m, tag, cfg);
    if mid != out { BodiesSnoc(out.history, mid.history[|out.history|]); }
  }

  lemma EmitBodyBodies(mid: Output, m: Message, pool: Pool)
    ensures Bodies(EmitBody(mid, m, pool).history) == Bodies(mid.history) + if Silent(m) then [] else [Body(m)]
  {
    if !Silent(m) {
      BodiesSnoc(mid.history, Body(m));
      if m.role == Assistant && Calls(m.parts) != [] {
        var t := ToolMsg(Replies(Calls(m.parts), pool, mid.used));
        assert mid.history + [Body(m), t] == (mid.history + [Body(m)]) + [t];
        BodiesSnoc(mid.history + [Body(m)], t);
      }
    }
  }

  lemma OneMessageBodies(before: Output, m: Message, tag: Option<nat>, cfg: Config, pool: Pool)
    ensures Bodies(EmitBody(EmitSummary(before, m, tag, cfg), Transform(m, tag, cfg.mode), pool).history) ==
      Bodies(before.history) + ShownBody(m, tag, cfg.mode)
  {
    EmitSummaryBodies(before, m, tag, cfg);
    EmitBodyBodies(EmitSummary(before, m, tag, cfg), Transform(m, tag, cfg.mode), pool);
    BodyShows(m, tag, cfg.mode);
  }

  /** Pulling results forward and inserting summaries hides, repeats and moves no other
      message: what is left is every message that has something to show, once, in
      stored order. */
  lemma {:induction false} RenderKeepsOrder(w: seq<Message>, tags: Tags, cfg: Config, pool: Pool, n: nat)
    requires n <= |w| == |tags|
    ensures Bodies(EmitUpTo(w, tags, cfg, pool, n).history) == ShownBodies(w, tags, cfg.mode, n)
  {
    if n > 0 {
      RenderKeepsOrder(w, tags, cfg, pool, n - 1);
      OneMessageBodies(EmitUpTo(w, tags, cfg, pool, n - 1), w[n - 1], tags[n - 1], cfg, pool);
    }
  }

  // ------------------------------------------------------- the three loops

  method IndexCalls(w: seq<Message>, tags: Tags, mode: Mode) returns (index: Index)
    requires |w| == |tags|
    ensures index == IndexUpTo(w, tags, mode, |w|)
  {
    index := map[];
    for i := 0 to |w|
      invariant index == IndexUpTo(w, tags, mode, i)
    {
      if w[i].role == Assistant {
        var calls, before := Calls(w[i].parts), index;
        for j := 0 to |calls|
          invariant index == AddCalls(before, calls[..j], tags[i], mode)
        {
          assert calls[..j + 1][..j] == calls[..j];
          var dropped := mode == Summarize && tags[i].Some? && calls[j].name != QUESTION_TOOL;
          index := index[calls[j].id := CallInfo(calls[j].name, CallIsExempt(calls[j]), dropped)];
        }
        assert calls[..|calls|] == calls;
      }
    }
  }

  /** The tool message after the collapse or stub substitution of this render. */
  method ShowToolMessage(m: Message, tag: Option<nat>, cfg: Config, index: Index) returns (shown: Message)
    ensures shown.parts == ToolSide(m.parts, tag, cfg, index)
  {
    var n;
    if tag.Some? {
      if cfg.mode == Summarize {
        shown, n := SummarizeToolMessageForTurn(m, Names(index), DroppedOf(index));
      } else {
        shown, n := CollapseToolMessageForTurn(m, tag.value, cfg.mode, ExemptOf(index), Names(index));
      }
    } else if cfg.stubs {
      shown := ApplySupersededStubs(m);
    } else {
      shown := m;
    }
  }

  function Lookup(pool: Pool, id: string): seq<Result> { if id in pool then pool[id] else [] }

  function AddResult(pool: Pool, r: Result, index: Index): Pool {
    if r.callId in index then pool[r.callId := Lookup(pool, r.callId) + [r]] else pool
  }

  function AddResults(pool: Pool, results: seq<Result>, index: Index): Pool {
    if results == [] then pool
    else AddResult(AddResults(pool, results[..|results| - 1], index), results[|results| - 1], index)
  }

  lemma {:induction false} AddResultsLookup(pool: Pool, results: seq<Result>, index: Index, id: string)
    ensures Lookup(AddResults(pool, results, index), id) ==
      Lookup(pool, id) + if id in index then Matching(results, id) else []
    ensures id in AddResults(pool, results, index) <==> id in pool || (id in index && Matching(results, id) != [])
  {
    if results != [] { AddResultsLookup(pool, results[..|results| - 1], index, id); }
  }

  lemma PoolStep(w: seq<Message>, tags: Tags, cfg: Config, index: Index, i: nat)
    requires i < |w| == |tags| && w[i].role == Tool
    ensures PoolUpTo(w, tags, cfg, index, i + 1)
         == AddResults(PoolUpTo(w, tags, cfg, index, i), Results(ToolSide(w[i].parts, tags[i], cfg, index)), index)
  {
    var before, results := PoolUpTo(w, tags, cfg, index, i), Results(ToolSide(w[i].parts, tags[i], cfg, index));
    var after := AddResults(before, results, index);
    forall id ensures id in after <==> id in PoolUpTo(w, tags, cfg, index, i + 1)
              ensures id in after ==> after[id] == ResultsFor(w, tags, cfg, index, i + 1, id)
    {
      AddResultsLookup(before, results, index, id);
    }
  }

  method CollectResults(w: seq<Message>, tags: Tags, cfg: Config, index: Index) returns (pool: Pool)
    requires |w| == |tags|
    ensures pool == PoolUpTo(w, tags, cfg, index, |w|)
  {
    pool := map[];
    for i := 0 to |w|
      invariant pool == PoolUpTo(w, tags, cfg, index, i)
    {
      if w[i].role == Tool {
        PoolStep(w, tags, cfg, index, i);
        var shown := ShowToolMessage(w[i], tags[i], cfg, index);
        pool := AddToPool(pool, Results(shown.parts), index);
      }
    }
  }

  method AddToPool(before: Pool, results: seq<Result>, index: Index) returns (pool: Pool)
    ensures pool == AddResults(before, results, index)
  {
    pool := before;
    for j := 0 to |results|
      invariant pool == AddResults(before, results[..j], index)
    {
      assert results[..j + 1][..j] == results[..j];
      if results[j].callId in index {
        pool := pool[results[j].callId := Lookup(pool, results[j].callId) + [results[j]]];
      }
    }
    assert results[..|results|] == results;
  }

  method TransformForTurn(m: Message, tag: Option<nat>, mode: Mode) returns (out: Message)
    ensures out == Transform(m, tag, mode)
  {
    out := m;
    if tag.Some? && m.role == Assistant {
      var n;
      if mode == Summarize {
        out, n := SummarizeAssistantForTurn(m);
      } else {
        out, n := CollapseAssistantForTurn(m, tag.value, mode);
      }
    }
  }

  /** One message of the window: its turn's summary if this is the place for it,
      its own conversion, and its calls' results right behind. */
  method EmitMessage(msg: Message, tag: Option<nat>, cfg: Config, before: seq<ProviderMessage>, results: Pool,
                     turns: set<nat>,
                     ghost pool: Pool, ghost used: set<string>)
    returns (history: seq<ProviderMessage>, byCall: Pool, summarized: set<nat>, ghost nowUsed: set<string>)
    requires results == pool - used && (cfg.mode == Summarize && tag.Some? ==> tag.value in cfg.summaries)
    ensures Output(history, nowUsed, summarized) ==
      EmitBody(EmitSummary(Output(before, used, turns), msg, tag, cfg), Transform(msg, tag, cfg.mode), pool)
    ensures byCall == pool - nowUsed
    ensures Bodies(history) == Bodies(before) + ShownBody(msg, tag, cfg.mode)
  {
    OneMessageBodies(Output(before, used, turns), msg, tag, cfg, pool);
    history, byCall, summarized, nowUsed := before, results, turns, used;
    if tag.Some? && cfg.mode == Summarize && msg.role != User && tag.value !in summarized {
      summarized := summarized + {tag.value};
      history := history + [SummaryMsg(tag.value, cfg.summaries[tag.value])];
    }
    var m := TransformForTurn(msg, tag, cfg.mode);
    history, byCall, nowUsed := EmitConverted(m, history, byCall, summarized, pool, used);
  }

  method EmitConverted(
      m: Message, before: seq<ProviderMessage>, results: Pool,
      ghost turns: set<nat>, ghost pool: Pool, ghost used: set<string>
  )
    returns (history: seq<ProviderMessage>, byCall: Pool, ghost nowUsed: set<string>)
    requires results == pool - used
    ensures Output(history, nowUsed, turns) == EmitBody(Output(before, used, turns), m, pool)
    ensures byCall == pool - nowUsed
  {
    history, byCall, nowUsed := before, results, used;
    if Silent(m) { return; }
    history := history + [Body(m)];
    var calls := Calls(m.parts);
    if m.role == Assistant && |calls| > 0 {
      RepliesFromRest(calls, pool, used, {});
      assert used + {} == used;
      var content;
      content, byCall := ToolResultsForCalls(calls, byCall);
      history := history + [ToolMsg(content)];
      nowUsed := used + IdSet(calls);
    }
  }

  /** The body of the renderer once the window and its collapsed turns are known. */
  method RenderWindow(w: seq<Message>, tags: Tags, cfg: Config) returns (history: seq<ProviderMessage>)
    requires Tagged(w, tags, cfg)
    ensures history == RenderedHistory(w, tags, cfg)
    ensures Bodies(history) == ShownBodies(w, tags, cfg.mode, |w|)
  {
    var index := IndexCalls(w, tags, cfg.mode);
    var byCall := CollectResults(w, tags, cfg, index);
    ghost var pool := byCall;
    var summarized: set<nat> := {};
    ghost var used: set<string> := {};
    history := [];
    for i := 0 to |w|
      invariant byCall == pool - used
      invariant Output(history, used, summarized) == EmitUpTo(w, tags, cfg, pool, i)
    {
      history, byCall, summarized, used := EmitMessage(w[i], tags[i], cfg, history, byCall, summarized, pool, used);
    }
    RenderKeepsOrder(w, tags, cfg, pool, |w|);
  }
}
