/** Which calls a render shows and what it shows of each result, said of the stored
    transcript and independently of the index the renderer builds. */
module RenderShown {
  import opened Transcript
  import opened PriorTurns
  import opened PriorTurnsProperties
  import opened Settle
  import opened Render
  import opened RenderProperties
  import opened RenderRepaired

  // ------------------------------------------------------- which calls are shown

  /** Message `i` makes this call, and its turn is not summarized or the call asks the
      user. */
  predicate ShownCallAt(w: seq<Message>, tags: Tags, mode: Mode, i: nat, id: string)
    requires |w| == |tags|
  {
    && i < |w| && w[i].role == Assistant
    && (exists k :: 0 <= k < |w[i].parts| && w[i].parts[k].CallPart? && w[i].parts[k].call.id == id)
    && (mode == Summarize && tags[i].Some? ==> AsksUser(w[i].parts, id))
  }

  lemma CallIdsMember(calls: seq<Call>, id: string)
    ensures id in CallIds(calls) <==> exists c :: c in calls && c.id == id
  {
    if id in CallIds(calls) {
      var k :| 0 <= k < |calls| && CallIds(calls)[k] == id;
      assert calls[k] in calls;
    }
    if c :| c in calls && c.id == id {
      var k :| 0 <= k < |calls| && calls[k] == c;
      assert CallIds(calls)[k] == id;
    }
  }

  lemma MakesCall(parts: seq<Part>, id: string)
    ensures id in CallIds(Calls(parts)) <==>
      exists k :: 0 <= k < |parts| && parts[k].CallPart? && parts[k].call.id == id
  {
    CallIdsMember(Calls(parts), id);
    if c :| c in Calls(parts) && c.id == id { CallsMember(parts, c); }
    if k :| 0 <= k < |parts| && parts[k].CallPart? && parts[k].call.id == id { CallsMember(parts, parts[k].call); }
  }

  lemma EmittedIff(w: seq<Message>, tags: Tags, mode: Mode, i: nat, id: string)
    requires i < |w| == |tags|
    ensures EmittedAt(w, tags, mode, i, id) <==> ShownCallAt(w, tags, mode, i, id)
  {
    var m := w[i];
    MakesCall(m.parts, id);
    if m.role == Assistant && tags[i].Some? {
      if mode == Summarize {
        EmittedOfSummarized(m, id);
      } else {
        CollapseKeepsCalls(m.parts, ExemptIds(m.parts), tags[i].value, mode);
        assert CallIds([]) == [];
      }
    }
  }

  lemma EmittedOfSummarized(m: Message, id: string)
    requires m.role == Assistant
    ensures id in EmittedIds(SummarizeAssistant(m)) <==> id in CallIds(Calls(m.parts)) && AsksUser(m.parts, id)
  {
    var keep := QuestionIds(m.parts);
    var kept := KeepCalls(Calls(m.parts), keep);
    SummarizeKeepsCallsUnmutated(m.parts, keep);
    StayingIds(m.parts, id);
    CallIdsMember(Calls(m.parts), id);
    CallIdsMember(kept, id);
    forall c ensures c in kept <==> c in Calls(m.parts) && c.id in keep { KeepCallsMember(Calls(m.parts), keep, c); }
  }

  lemma InJoined(a: seq<string>, b: seq<string>, id: string)
    ensures id in a + b <==> id in a || id in b
  {
  }

  lemma SurvivesStep(w: seq<Message>, tags: Tags, mode: Mode, n: nat, id: string)
    requires n < |w| == |tags|
    ensures id in SurvivingIds(w, tags, mode, n + 1) <==>
      id in SurvivingIds(w, tags, mode, n) || EmittedAt(w, tags, mode, n, id)
  {
    InJoined(SurvivingIds(w, tags, mode, n), EmittedIds(Transform(w[n], tags[n], mode)), id);
  }

  lemma {:induction false} SurvivesOn(w: seq<Message>, tags: Tags, mode: Mode, m: nat, n: nat, id: string)
    requires m <= n <= |w| == |tags| && id in SurvivingIds(w, tags, mode, m)
    ensures id in SurvivingIds(w, tags, mode, n)
    decreases n - m
  {
    if m < n {
      SurvivesStep(w, tags, mode, m, id);
      SurvivesOn(w, tags, mode, m + 1, n, id);
    }
  }

  lemma SurvivorIsShown(w: seq<Message>, tags: Tags, mode: Mode, id: string) returns (i: nat)
    requires |w| == |tags| && id in SurvivingIds(w, tags, mode, |w|)
    ensures ShownCallAt(w, tags, mode, i, id)
  {
    i := SurvivingOrigin(w, tags, mode, |w|, id);
    EmittedIff(w, tags, mode, i, id);
  }

  /** A request carries a call exactly if some message of the window makes it and, under
      summarize, the message's turn does not collapse or the call asks the user. */
  lemma SurvivesIff(w: seq<Message>, tags: Tags, mode: Mode, id: string)
    requires |w| == |tags|
    ensures id in SurvivingIds(w, tags, mode, |w|) <==> exists i: nat :: ShownCallAt(w, tags, mode, i, id)
  {
    if id in SurvivingIds(w, tags, mode, |w|) {
      var i := SurvivorIsShown(w, tags, mode, id);
    } else if i: nat :| ShownCallAt(w, tags, mode, i, id) {
      EmittedIff(w, tags, mode, i, id);
      SurvivesStep(w, tags, mode, i, id);
      SurvivesOn(w, tags, mode, i + 1, |w|, id);
    }
  }

  // ------------------------------------------------------------ what the index holds

  /** Call `k` of message `i` is the last of the first `n` messages with its ID. */
  predicate LastCall(w: seq<Message>, n: nat, i: nat, k: nat)
    requires n <= |w|
  {
    && i < n && w[i].role == Assistant && k < |Calls(w[i].parts)|
    && (forall j :: k < j < |Calls(w[i].parts)| ==> Calls(w[i].parts)[j].id != Calls(w[i].parts)[k].id)
    && (forall j: nat :: i < j < n ==> !CallAt(w, j, Calls(w[i].parts)[k].id))
  }

  lemma {:induction false} LastOfCalls(index: Index, calls: seq<Call>, tag: Option<nat>, mode: Mode, k: nat)
    requires k < |calls| && forall j :: k < j < |calls| ==> calls[j].id != calls[k].id
    ensures calls[k].id in AddCalls(index, calls, tag, mode)
    ensures AddCalls(index, calls, tag, mode)[calls[k].id] == Info(calls[k], tag, mode)
  {
    if k < |calls| - 1 {
      var front := calls[..|calls| - 1];
      assert forall j :: 0 <= j < |front| ==> front[j] == calls[j];
      LastOfCalls(index, front, tag, mode, k);
    }
  }

  /** The index describes, for each ID, the last call of the window that has it: its
      name, whether it asks the user or was run by the provider, and whether it leaves
      with a summarized turn. */
  lemma {:induction false} IndexIsLast(w: seq<Message>, tags: Tags, mode: Mode, n: nat, i: nat, k: nat)
    requires n <= |w| == |tags| && LastCall(w, n, i, k)
    ensures var c, index := Calls(w[i].parts)[k], IndexUpTo(w, tags, mode, n);
      && c.id in index
      && index[c.id].name == c.name
      && index[c.id].exempt == (c.name == "question" || c.providerExecuted)
      && index[c.id].dropped == (mode == Summarize && tags[i].Some? && c.name != "question")
  {
    var c := Calls(w[i].parts)[k];
    if i == n - 1 {
      LastOfCalls(IndexUpTo(w, tags, mode, i), Calls(w[i].parts), tags[i], mode, k);
    } else {
      assert !CallAt(w, n - 1, c.id);
      IndexIsLast(w, tags, mode, n - 1, i, k);
      if w[n - 1].role == Assistant {
        AddCallsAt(IndexUpTo(w, tags, mode, n - 1), Calls(w[n - 1].parts), tags[n - 1], mode, c.id);
      }
    }
  }

  /** The index knows exactly the calls of the window. */
  lemma {:induction false} IndexKnows(w: seq<Message>, tags: Tags, mode: Mode, n: nat, id: string)
    requires n <= |w| == |tags|
    ensures id in IndexUpTo(w, tags, mode, n) <==> exists i: nat :: i < n && CallAt(w, i, id)
  {
    if n > 0 {
      IndexKnows(w, tags, mode, n - 1, id);
      if w[n - 1].role == Assistant {
        AddCallsAt(IndexUpTo(w, tags, mode, n - 1), Calls(w[n - 1].parts), tags[n - 1], mode, id);
      }
      if CallAt(w, n - 1, id) { assert n - 1 < n; }
      assert (exists i: nat :: i < n && CallAt(w, i, id)) <==>
        (exists i: nat :: i < n - 1 && CallAt(w, i, id)) || CallAt(w, n - 1, id);
    }
  }

  // -------------------------------------------------- what one result shows as

  /** How one stored result of call `c` is shown, given its own message's tag. */
  ghost predicate ShowsAs(r: Result, out: Result, c: Call, tag: Option<nat>, cfg: Config) {
    if tag.Some? then
      if cfg.mode == Summarize || c.name == "question" || c.providerExecuted then out == r else IsPointer(r, out)
    else if cfg.stubs then ShowsStub(r, out)
    else out == r
  }

  lemma CallInWindow(w: seq<Message>, i: nat, c: Call) returns (k: nat)
    requires i < |w| && w[i].role == Assistant && c in Calls(w[i].parts) && UniqueCallIds(w)
    ensures LastCall(w, |w|, i, k) && Calls(w[i].parts)[k] == c
  {
    var calls := Calls(w[i].parts);
    k :| 0 <= k < |calls| && calls[k] == c;
    assert CallIds(calls)[k] == c.id;
    assert CallAt(w, i, c.id) && DistinctAt(w, i);
    forall j | k < j < |calls| ensures calls[j].id != c.id { assert CallIds(calls)[j] != CallIds(calls)[k]; }
  }

  /** Each result in reply to a call of the window shows as its own message's turn and
      the call say: as stored while the turn is raw, but for an applied stub; in a
      collapsed turn as stored if the call asks the user, was run by the provider or
      survives a summary, and otherwise as a pointer to what is stored. */
  lemma EachResultShowsAs(w: seq<Message>, tags: Tags, cfg: Config, i: nat, c: Call, r: Result, tag: Option<nat>)
    requires |w| == |tags| && UniqueCallIds(w)
    requires i < |w| && w[i].role == Assistant && c in Calls(w[i].parts) && r.callId == c.id
    ensures ShowsAs(r, Show(r, tag, cfg, IndexUpTo(w, tags, cfg.mode, |w|)), c, tag, cfg)
  {
    var k := CallInWindow(w, i, c);
    IndexIsLast(w, tags, cfg.mode, |w|, i, k);
    ShowsByIndex(r, c, tag, cfg, IndexUpTo(w, tags, cfg.mode, |w|));
  }

  lemma ShowsByIndex(r: Result, c: Call, tag: Option<nat>, cfg: Config, index: Index)
    requires r.callId == c.id && c.id in index
    requires index[c.id].exempt <==> c.name == "question" || c.providerExecuted
    ensures ShowsAs(r, Show(r, tag, cfg, index), c, tag, cfg)
  {
    if tag.Some? && cfg.mode != Summarize && !index[c.id].exempt {
      PointerPoints(cfg.mode, tag.value, c.id, c.id in Names(index) && Names(index)[c.id] in WRITE_TOOLS);
    }
  }

  /** A summary at the head of the window opens the request as a prompt, and everything
      behind it keeps its own role. */
  lemma SummaryIsSent(msgs: seq<Message>, start: nat, tags: Tags, cfg: Config)
    requires start < |msgs| && |tags| == |msgs| - start && msgs[start].isSummary && msgs[start].parts != []
    ensures UserMsg(msgs[start].parts) in RenderedHistory(Window(msgs, start), tags, cfg)
    ensures forall i: nat :: 0 < i < |tags| ==> Window(msgs, start)[i] == msgs[start + i]
  {
    WindowAt(msgs, start, 0);
    EveryPromptIsSent(Window(msgs, start), tags, cfg, 0);
  }
}
