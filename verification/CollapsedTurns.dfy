/** Which turns a run's requests collapse: the ones that were fully covered, for
    exactly their extents, when the set froze, and no other for the rest of the run. */
module CollapsedTurns {
  import opened Transcript
  import opened PriorTurns
  import opened Settle
  import opened Segments
  import opened SegmentProperties
  import opened Boundary
  import opened Render
  import opened PreparePrompt

  /** What one render of the run is given. */
  datatype Given = Given(msgs: seq<Message>, env: Env)

  /** A run and its collapse states: `states[k]` goes into render `k`, and `states[k + 1]`
      comes out of it. */
  ghost predicate IsRun(states: seq<Collapse>, renders: seq<Given>) {
    && |states| == |renders| + 1
    && states[0].frozen == None && states[0].summaries == map[]
    && forall k :: 0 <= k < |renders| ==> RenderedAt(states, renders, k)
  }

  ghost predicate RenderedAt(states: seq<Collapse>, renders: seq<Given>, k: nat)
    requires k < |renders| && k + 1 < |states|
  {
    renders[k].env.budget > 0 && CollapseStep(renders[k].msgs, renders[k].env, states[k], states[k + 1])
  }

  /** Render `k` sees segments of this turn, and coverage is committed for all of them. */
  ghost predicate CoveredAt(g: Given, before: nat, turn: nat) {
    var segs := SegmentsIn(g.msgs, g.env);
    FullyCovered(segs, CoveredKeys(segs, g.env.registry), before, turn)
  }

  lemma {:induction false} BeforeTheFreeze(states: seq<Collapse>, renders: seq<Given>, k: nat)
    requires IsRun(states, renders) && k < |states|
    ensures states[k].before == states[0].before
    ensures states[k].frozen.None? ==> states[k] == states[0]
  {
    if k > 0 {
      BeforeTheFreeze(states, renders, k - 1);
      assert RenderedAt(states, renders, k - 1);
    }
  }

  /** The set froze at one render of the run, to exactly the turns that render saw fully
      covered, and nothing in the collapse state has changed since. */
  lemma {:induction false} FrozenOnce(states: seq<Collapse>, renders: seq<Given>, k: nat) returns (j: nat)
    requires IsRun(states, renders) && k < |states| && states[k].frozen.Some?
    ensures j < k && states[j] == states[0] && forall i :: j < i <= k ==> states[i] == states[k]
    ensures renders[j].env.engaged && renders[j].msgs != []
    ensures forall turn :: turn in states[k].frozen.value <==> CoveredAt(renders[j], states[0].before, turn)
  {
    BeforeTheFreeze(states, renders, k - 1);
    assert RenderedAt(states, renders, k - 1);
    if states[k - 1].frozen.None? {
      j := k - 1;
    } else {
      j := FrozenOnce(states, renders, k - 1);
    }
  }

  lemma MinTurnMeans(msgs: seq<Message>, boundary: nat, i: nat)
    requires boundary < |msgs| && i < |msgs|
    ensures TurnOf(msgs, i) >= MinTurn(msgs, boundary) <==>
      exists m: nat :: boundary <= m < |msgs| && TurnOf(msgs, m) == TurnOf(msgs, i)
  {
    if TurnOf(msgs, i) >= MinTurn(msgs, boundary) {
      if i < boundary { TurnMonotone(msgs, i, boundary); }
    }
    if m: nat :| boundary <= m < |msgs| && TurnOf(msgs, m) == TurnOf(msgs, i) { TurnMonotone(msgs, boundary, m); }
  }

  lemma CoveredTurnHasMessage(g: Given, before: nat, turn: nat) returns (i: nat)
    requires g.msgs != [] && CoveredAt(g, before, turn)
    ensures i < |g.msgs| && TurnOf(g.msgs, i) == turn
  {
    var segs := SegmentsIn(g.msgs, g.env);
    var s :| s in segs && s.turn == turn;
    var k :| 0 <= k < |segs| && segs[k] == s;
    SegmentsAreASegmentation(g.msgs, g.env.threshold, g.env.maxSteps);
    i := s.start;
    SegmentHasOneTurn(g.msgs, g.env.threshold, g.env.maxSteps, k, i);
  }

  /** Under summarize the frozen texts are those of the covered turns that have one and
      still have a message at or behind the freezing render's boundary. */
  lemma FrozenTexts(states: seq<Collapse>, renders: seq<Given>, j: nat, turn: nat)
    requires IsRun(states, renders) && j < |renders| && states[j].frozen.None? && states[j + 1].frozen.Some?
    requires renders[j].env.mode == Summarize
    ensures var g, after := renders[j], states[j + 1];
      && g.msgs != [] && g.env.budget > 0
      && (turn in after.summaries <==>
           && CoveredAt(g, states[0].before, turn) && turn in g.env.texts
           && exists m: nat :: EngagedBoundary(g.msgs, g.env) <= m < |g.msgs| && TurnOf(g.msgs, m) == turn)
      && (turn in after.summaries ==> after.summaries[turn] == g.env.texts[turn])
  {
    BeforeTheFreeze(states, renders, j);
    assert RenderedAt(states, renders, j);
    if CoveredAt(renders[j], states[0].before, turn) {
      var i := CoveredTurnHasMessage(renders[j], states[0].before, turn);
      MinTurnMeans(renders[j].msgs, EngagedBoundary(renders[j].msgs, renders[j].env), i);
    }
  }

  lemma {:induction false} TextsAreFrozen(states: seq<Collapse>, renders: seq<Given>, k: nat)
    requires IsRun(states, renders) && k < |states|
    ensures forall turn :: turn in states[k].summaries ==> states[k].frozen.Some? && turn in states[k].frozen.value
  {
    if k > 0 {
      TextsAreFrozen(states, renders, k - 1);
      assert RenderedAt(states, renders, k - 1);
    }
  }

  /** Every message a request of the run collapses is of a turn below the run's own that
      the freezing render saw fully covered; of the run's own turn and of later ones no
      message is ever collapsed. */
  lemma OnlyCoveredTurnsCollapse(states: seq<Collapse>, renders: seq<Given>, k: nat, start: nat, tags: Tags, i: nat)
    returns (j: nat)
    requires IsRun(states, renders) && k < |renders| && start <= |renders[k].msgs| && i < |tags|
    requires CollapsesExactly(tags, renders[k].msgs, start, renders[k].env, Some(states[k + 1]),
                              renders[k].env.budget > 0 && RollsBack(renders[k].msgs, renders[k].env))
    ensures var turn := TurnOf(renders[k].msgs, start + i);
      && (turn >= states[0].before ==> tags[i] == None)
      && (tags[i].Some? ==>
            && tags[i] == Some(turn) && j <= k && states[j].frozen.None? && states[j + 1] == states[k + 1]
            && CoveredAt(renders[j], states[0].before, turn))
  {
    j := 0;
    if tags[i].Some? {
      TextsAreFrozen(states, renders, k + 1);
      j := FrozenOnce(states, renders, k + 1);
    }
  }

  /** A covered turn is covered message by message: each lies in a segment whose coverage
      is committed for exactly that extent. */
  lemma CoveredMessageByMessage(g: Given, before: nat, turn: nat, m: nat) returns (k: nat)
    requires CoveredAt(g, before, turn) && m < |g.msgs| && TurnOf(g.msgs, m) == turn
    ensures var segs := SegmentsIn(g.msgs, g.env);
      && k < |segs| && segs[k].start <= m < segs[k].end
      && segs[k].Id() in g.env.registry
      && g.env.registry[segs[k].Id()] == Row(segs[k].start, segs[k].end, Processed)
  {
    var segs := SegmentsIn(g.msgs, g.env);
    SegmentsPartition(g.msgs, g.env.threshold, g.env.maxSteps, m);
    k :| 0 <= k < |segs| && segs[k].start <= m < segs[k].end;
    SegmentHasOneTurn(g.msgs, g.env.threshold, g.env.maxSteps, k, m);
    assert segs[k] in segs;
    DistinctSegmentKeys(g.msgs, g.env.threshold, g.env.maxSteps);
    CoveredKeyIsExact(segs, g.env.registry, k);
  }

  // ------------------------------------------------- notes that stand for a span

  lemma {:induction false} BoundaryKeyAt(msgs: seq<Message>, segs: seq<Segment>, k: nat, from: nat)
    requires Segmentation(msgs, segs) && from <= k < |segs|
    ensures BoundaryKey(segs, segs[k].start, from) == Key(segs[k].turn, segs[k].number)
    decreases k - from
  {
    if from < k {
      StartsAscend(msgs, segs, from, k);
      BoundaryKeyAt(msgs, segs, k, from + 1);
    }
  }

  /** A note written for a segment stands for the span in front of a boundary exactly if
      it is no seed and its segment ends at or before the boundary. */
  lemma StandsForWhatIsEvicted(msgs: seq<Message>, threshold: nat, maxSteps: nat, j: nat, k: nat, e: Entry)
    requires msgs != []
    requires var segs := SegmentsOf(msgs, threshold, maxSteps);
      j < |segs| && k < |segs| && e.turn == segs[j].turn && e.number == segs[j].number
    ensures var segs := SegmentsOf(msgs, threshold, maxSteps);
      StandsForSpan(e, BoundaryKey(segs, segs[k].start, 0)) <==> !e.seed && segs[j].end <= segs[k].start
  {
    var segs := SegmentsOf(msgs, threshold, maxSteps);
    SegmentsAreASegmentation(msgs, threshold, maxSteps);
    BoundaryKeyAt(msgs, segs, k, 0);
    if j < k { KeysAscend(msgs, threshold, maxSteps, j, k); }
    if k < j { KeysAscend(msgs, threshold, maxSteps, k, j); }
  }

  /** A summary is committed exactly if its first finish says that its turn ended. */
  lemma CommittedMeans(m: Message)
    ensures SummaryCommitted(m) <==> m.isSummary && EndsWith(m.parts, EndTurn)
  {
    FindFinishIff(m.parts, EndTurn);
  }
}
