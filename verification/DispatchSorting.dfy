/** What a drain and a hand-off do with a queue, prompt by prompt: which positions stay,
    which go into the running step, and which are dropped. */
module DispatchSorting {
  import opened Transcript
  import opened DispatchState

  /** The positions of the prompts that a standing cancel covers, or does not, and that
      carry a run ID, or do not. */
  function Where(queue: seq<Queued>, mark: nat, covered: bool, named: bool): set<nat> {
    set j: nat | j < |queue| && IsSuch(queue[j], mark, covered, named) :: j
  }

  predicate IsSuch(q: Queued, mark: nat, covered: bool, named: bool) {
    && (covered <==> mark > 0 && (q.acceptSeq == 0 || q.acceptSeq <= mark))
    && (named <==> q.runId != "")
  }

  predicate Ascending(at: seq<nat>) { forall j, k :: 0 <= j < k < |at| ==> at[j] < at[k] }

  /** `out` is what stands at these positions of the queue, each once and in queue
      order. */
  ghost predicate TakenFrom(out: seq<Queued>, queue: seq<Queued>, positions: set<nat>) {
    exists at: seq<nat> :: StandsAt(out, queue, at) && forall j :: j in at <==> j in positions
  }

  ghost predicate StandsAt(out: seq<Queued>, queue: seq<Queued>, at: seq<nat>) {
    && |out| == |at| && Ascending(at)
    && forall k :: 0 <= k < |at| ==> at[k] < |queue| && out[k] == queue[at[k]]
  }

  lemma TakenNone(queue: seq<Queued>)
    ensures TakenFrom([], queue, {})
  {
    assert StandsAt([], queue, []);
  }

  /** One more prompt of the queue, taken or left. */
  lemma TakenSnoc(out: seq<Queued>, front: seq<Queued>, last: Queued, positions: set<nat>)
    requires TakenFrom(out, front, positions)
    ensures TakenFrom(out + [last], front + [last], positions + {|front|})
    ensures TakenFrom(out, front + [last], positions)
  {
    var at: seq<nat> :| StandsAt(out, front, at) && forall j :: j in at <==> j in positions;
    assert StandsAt(out, front + [last], at);
    var more := at + [|front|];
    assert StandsAt(out + [last], front + [last], more) by {
      forall k | 0 <= k < |at| ensures more[k] < |front| { assert more[k] == at[k]; }
    }
    forall j ensures j in more <==> j in positions + {|front|} { assert j in more <==> j in at || j == |front|; }
  }

  lemma WhereSnoc(front: seq<Queued>, last: Queued, mark: nat, covered: bool, named: bool)
    ensures Where(front + [last], mark, covered, named) ==
      if IsSuch(last, mark, covered, named) then Where(front, mark, covered, named) + {|front|}
      else Where(front, mark, covered, named)
  {
    var queue := front + [last];
    var before := Where(front, mark, covered, named);
    forall j: nat
      ensures j in Where(queue, mark, covered, named) <==>
        j in before || (j == |front| && IsSuch(last, mark, covered, named))
    {
      if j < |queue| { assert queue[j] == if j < |front| then front[j] else last; }
    }
  }

  /** What a drain does, prompt by prompt: it keeps the uncovered prompts that carry a run
      ID, folds the uncovered ones that carry none, and of the covered ones reports those
      that carry one; each in queue order and as often as it was queued. */
  lemma {:induction false} DrainSorts(queue: seq<Queued>, mark: nat)
    ensures TakenFrom(Pick(queue, mark, Keep), queue, Where(queue, mark, false, true))
    ensures TakenFrom(Pick(queue, mark, Fold), queue, Where(queue, mark, false, false))
    ensures TakenFrom(Named(Pick(queue, mark, Drop)), queue, Where(queue, mark, true, true))
  {
    if queue == [] {
      TakenNone(queue);
      assert Where(queue, mark, false, true) == Where(queue, mark, false, false) == Where(queue, mark, true,
                                                                                          true) == {};
    } else {
      var front, last := queue[..|queue| - 1], queue[|queue| - 1];
      assert queue == front + [last];
      DrainSorts(front, mark);
      DrainSortsOne(front, last, mark);
    }
  }

  lemma DrainSortsOne(front: seq<Queued>, last: Queued, mark: nat)
    requires TakenFrom(Pick(front, mark, Keep), front, Where(front, mark, false, true))
    requires TakenFrom(Pick(front, mark, Fold), front, Where(front, mark, false, false))
    requires TakenFrom(Named(Pick(front, mark, Drop)), front, Where(front, mark, true, true))
    ensures var queue := front + [last];
      && TakenFrom(Pick(queue, mark, Keep), queue, Where(queue, mark, false, true))
      && TakenFrom(Pick(queue, mark, Fold), queue, Where(queue, mark, false, false))
      && TakenFrom(Named(Pick(queue, mark, Drop)), queue, Where(queue, mark, true, true))
  {
    WhereSnoc(front, last, mark, false, true);
    WhereSnoc(front, last, mark, false, false);
    WhereSnoc(front, last, mark, true, true);
    PickSnoc(front, last, mark, Keep);
    PickSnoc(front, last, mark, Fold);
    PickSnoc(front, last, mark, Drop);
    NamedSnoc(Pick(front, mark, Drop), last);
    TakenSnoc(Pick(front, mark, Keep), front, last, Where(front, mark, false, true));
    TakenSnoc(Pick(front, mark, Fold), front, last, Where(front, mark, false, false));
    TakenSnoc(Named(Pick(front, mark, Drop)), front, last, Where(front, mark, true, true));
  }

  /** What outlives a finishing run, prompt by prompt: the prompts no standing cancel
      covers, in queue order and as often as queued; those it reports are the covered
      ones with a run ID. */
  lemma {:induction false} HandOffSorts(v: Shared)
    ensures TakenFrom(Survivors(v), v.queue, Where(v.queue, v.mark, false, true) + Where(v.queue, v.mark, false, false))
    ensures TakenFrom(Named(HandoffDrops(v)), v.queue, Where(v.queue, v.mark, true, true))
  {
    SurvivorsArePicked(v);
    UncoveredStand(v.queue, v.mark);
    DrainSorts(v.queue, v.mark);
  }

  lemma {:induction false} UncoveredStand(queue: seq<Queued>, mark: nat)
    ensures TakenFrom(Uncovered(queue, mark), queue, Where(queue, mark, false, true) + Where(queue, mark, false, false))
  {
    if queue == [] {
      TakenNone(queue);
      assert Where(queue, mark, false, true) + Where(queue, mark, false, false) == {};
    } else {
      var front, last := queue[..|queue| - 1], queue[|queue| - 1];
      assert queue == front + [last];
      UncoveredStand(front, mark);
      var before := Where(front, mark, false, true) + Where(front, mark, false, false);
      WhereSnoc(front, last, mark, false, true);
      WhereSnoc(front, last, mark, false, false);
      assert Where(queue, mark, false, true) + Where(queue, mark, false, false) ==
        if mark > 0 && (last.acceptSeq == 0 || last.acceptSeq <= mark) then before else before + {|front|};
      PickSnoc(front, last, mark, Drop);
      TakenSnoc(Uncovered(front, mark), front, last, before);
    }
  }

  /** So what is left in the queue carries a run ID and no standing cancel covers it. */
  lemma DrainLeavesNamed(v: Shared, q: Queued)
    ensures q in Drain(v).queue <==>
      q in v.queue && q.runId != "" && !(v.mark > 0 && (q.acceptSeq == 0 || q.acceptSeq <= v.mark))
  {
    DrainSorts(v.queue, v.mark);
    TakenMember(Drain(v).queue, v.queue, Where(v.queue, v.mark, false, true), q);
  }

  lemma TakenMember(out: seq<Queued>, queue: seq<Queued>, positions: set<nat>, q: Queued)
    requires TakenFrom(out, queue, positions)
    ensures q in out <==> exists j: nat :: j < |queue| && j in positions && queue[j] == q
  {
    var at: seq<nat> :| StandsAt(out, queue, at) && forall j :: j in at <==> j in positions;
    if q in out {
      var k :| 0 <= k < |out| && out[k] == q;
      assert at[k] in at;
    }
    if j: nat :| j < |queue| && j in positions && queue[j] == q {
      var k :| 0 <= k < |at| && at[k] == j;
      assert out[k] == q;
    }
  }
}
