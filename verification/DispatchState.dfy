/** What one session's dispatch state is and what each critical section does to
    it. The agent keeps these fields in maps keyed by session; the accept sequence
    is shared by all sessions. */
module DispatchState {
  import opened Transcript

  /** A queued prompt. `acceptSeq` is 0 when it was enqueued without an accept
      reservation; `ticket` names the submission it stands for. */
  datatype Queued = Queued(ticket: nat, runId: string, acceptSeq: nat)

  /** `mark` is the cancel high-water mark, 0 when there is none; `active` is the
      identity of the cancel entry in the active slot. */
  datatype Shared = Shared(seqGen: nat, count: nat, mark: nat, queue: seq<Queued>, active: Option<nat>)

  predicate Covered(mark: nat, seq_: nat) { mark > 0 && (seq_ == 0 || seq_ <= mark) }

  // --------------------------------------------------------- sorting a queue

  /** What a step's drain does with a queued prompt. */
  datatype Fate = Drop | Keep | Fold

  function FateOf(q: Queued, mark: nat): Fate {
    if Covered(mark, q.acceptSeq) then Drop else if q.runId != "" then Keep else Fold
  }

  /** The prompts with this fate, in queue order. */
  function Pick(queue: seq<Queued>, mark: nat, fate: Fate): seq<Queued> {
    if queue == [] then []
    else
      var last := queue[|queue| - 1];
      Pick(queue[..|queue| - 1], mark, fate) + if FateOf(last, mark) == fate then [last] else []
  }

  /** The prompts no standing cancel covers, in queue order. */
  function Uncovered(queue: seq<Queued>, mark: nat): seq<Queued> {
    if queue == [] then []
    else
      var last := queue[|queue| - 1];
      Uncovered(queue[..|queue| - 1], mark) + if Covered(mark, last.acceptSeq) then [] else [last]
  }

  /** The prompts that carry a run ID: someone waits for their terminal event. */
  function Named(queue: seq<Queued>): seq<Queued> {
    if queue == [] then []
    else
      var last := queue[|queue| - 1];
      Named(queue[..|queue| - 1]) + if last.runId != "" then [last] else []
  }

  // ------------------------------------------------------- critical sections

  function Begin(v: Shared): Shared { v.(seqGen := v.seqGen + 1, count := v.count + 1) }

  /** Releasing the last reservation drops the mark: nothing is left to cover. */
  function End(v: Shared): Shared {
    if v.count <= 1 then v.(count := 0, mark := 0) else v.(count := v.count - 1)
  }

  datatype Entry = CanceledOnEntry | Enqueued | BecameActive

  function EntryOf(v: Shared, handle: Option<nat>): Entry {
    if handle.Some? && Covered(v.mark, handle.value) then CanceledOnEntry
    else if v.active.Some? then Enqueued
    else BecameActive
  }

  /** The dispatch decision of one call, with or without an accept handle. */
  function Enter(v: Shared, ticket: nat, runId: string, handle: Option<nat>, token: nat): Shared {
    var closed := if handle.Some? then End(v) else v;
    match EntryOf(v, handle)
    case CanceledOnEntry => closed
    case Enqueued => closed.(queue := v.queue + [Queued(ticket, runId, if handle.Some? then handle.value else 0)])
    case BecameActive => closed.(active := Some(token))
  }

  function Drain(v: Shared): Shared { v.(queue := Pick(v.queue, v.mark, Keep)) }

  /** The prompts that outlive a finishing run. */
  function Survivors(v: Shared): seq<Queued> {
    if v.mark > 0 && v.queue != [] then Uncovered(v.queue, v.mark) else v.queue
  }

  function HandoffDrops(v: Shared): seq<Queued> {
    if v.mark > 0 && v.queue != [] then Pick(v.queue, v.mark, Drop) else []
  }

  /** A finishing run reserves a fresh accept for the first survivor, or clears a
      mark nothing accepted still needs. */
  function HandOff(v: Shared): Shared {
    var kept := Survivors(v);
    if kept == [] then v.(queue := [], mark := if v.count == 0 then 0 else v.mark)
    else Begin(v.(queue := kept[1..]))
  }

  /** Whether a run that hands off still publishes its own terminal event: not if
      a queued prompt carries its run ID forward. */
  predicate OwesOwn(v: Shared, runId: string) {
    runId != "" && forall k :: 0 <= k < |Survivors(v)| ==> Survivors(v)[k].runId != runId
  }

  function Max(a: nat, b: nat): nat { if a < b then b else a }

  /** What a Cancel reads of the reservations: the sequence its mark will stand at, or
      nothing when no handle is open. */
  function Seen(v: Shared): Option<nat> { if v.count > 0 then Some(v.seqGen) else None }

  /** What a Cancel that has read `seen` then writes. */
  function Recorded(v: Shared, seen: Option<nat>): Shared {
    v.(mark := if seen.Some? then Max(v.mark, seen.value) else v.mark, queue := [])
  }

  // ------------------------------------------------------------------ lemmas

  lemma {:induction false} PickMember(queue: seq<Queued>, mark: nat, fate: Fate, q: Queued)
    ensures q in Pick(queue, mark, fate) <==> q in queue && FateOf(q, mark) == fate
    ensures q in Uncovered(queue, mark) <==> q in queue && FateOf(q, mark) != Drop
  {
    if queue != [] {
      assert queue == queue[..|queue| - 1] + [queue[|queue| - 1]];
      PickMember(queue[..|queue| - 1], mark, fate, q);
    }
  }

  lemma {:induction false} PickNoMark(queue: seq<Queued>)
    ensures Uncovered(queue, 0) == queue && Pick(queue, 0, Drop) == []
  {
    if queue != [] {
      var front, last := queue[..|queue| - 1], queue[|queue| - 1];
      assert front + [last] == queue;
      PickNoMark(front);
      PickSnoc(front, last, 0, Drop);
    }
  }

  lemma SurvivorsArePicked(v: Shared)
    ensures Survivors(v) == Uncovered(v.queue, v.mark)
    ensures HandoffDrops(v) == Pick(v.queue, v.mark, Drop)
  {
    if v.mark == 0 { PickNoMark(v.queue); }
  }

  lemma PickSnoc(front: seq<Queued>, last: Queued, mark: nat, fate: Fate)
    ensures Pick(front + [last], mark, fate) ==
      if FateOf(last, mark) == fate then Pick(front, mark, fate) + [last] else Pick(front, mark, fate)
    ensures Uncovered(front + [last], mark) ==
      if Covered(mark, last.acceptSeq) then Uncovered(front, mark) else Uncovered(front, mark) + [last]
  {
    assert (front + [last])[..|front + [last]| - 1] == front;
  }

  lemma NamedSnoc(front: seq<Queued>, last: Queued)
    ensures Named(front + [last]) == if last.runId != "" then Named(front) + [last] else Named(front)
  {
    assert (front + [last])[..|front + [last]| - 1] == front;
  }

  lemma {:induction false} NamedTwice(queue: seq<Queued>)
    ensures Named(Named(queue)) == Named(queue)
  {
    if queue != [] {
      var front, last := queue[..|queue| - 1], queue[|queue| - 1];
      assert front + [last] == queue;
      NamedTwice(front);
      NamedSnoc(front, last);
      NamedSnoc(Named(front), last);
    }
  }

  // ---------------------------------------------------------------- counting

  datatype Key = ByTicket(ticket: nat) | ByRun(runId: string)

  predicate Matches(q: Queued, k: Key) {
    match k
    case ByTicket(t) => q.ticket == t
    case ByRun(r) => q.runId == r
  }

  function Hit(q: Queued, k: Key): nat { if Matches(q, k) then 1 else 0 }

  function Count(queue: seq<Queued>, k: Key): nat {
    if queue == [] then 0 else Count(queue[..|queue| - 1], k) + Hit(queue[|queue| - 1], k)
  }

  lemma {:induction false} CountConcat(a: seq<Queued>, b: seq<Queued>, k: Key)
    ensures Count(a + b, k) == Count(a, k) + Count(b, k)
  {
    if b == [] {
      assert a + b == a;
    } else {
      CountConcat(a, b[..|b| - 1], k);
      assert (a + b)[..|a + b| - 1] == a + b[..|b| - 1];
    }
  }

  lemma CountSnoc(front: seq<Queued>, last: Queued, k: Key)
    ensures Count(front + [last], k) == Count(front, k) + Hit(last, k)
  {
    assert (front + [last])[..|front + [last]| - 1] == front;
  }

  lemma CountCons(first: Queued, rest: seq<Queued>, k: Key)
    ensures Count([first] + rest, k) == Hit(first, k) + Count(rest, k)
  {
    CountConcat([first], rest, k);
    CountSnoc([], first, k);
    assert [] + [first] == [first];
  }

  lemma CountHead(queue: seq<Queued>, k: Key)
    requires queue != []
    ensures Count(queue, k) == Hit(queue[0], k) + Count(queue[1..], k)
  {
    assert [queue[0]] + queue[1..] == queue;
    CountCons(queue[0], queue[1..], k);
  }

  lemma {:induction false} CountMember(queue: seq<Queued>, k: Key)
    ensures Count(queue, k) > 0 <==> exists j :: 0 <= j < |queue| && Matches(queue[j], k)
  {
    if queue != [] {
      var front := queue[..|queue| - 1];
      CountMember(front, k);
      if Matches(queue[|queue| - 1], k) {
        assert Count(queue, k) > 0;
      } else if Count(front, k) > 0 {
        var j :| 0 <= j < |front| && Matches(front[j], k);
        assert Matches(queue[j], k);
      }
    }
  }

  lemma CountPicked(front: seq<Queued>, last: Queued, mark: nat, fate: Fate, k: Key)
    ensures Count(Pick(front + [last], mark, fate), k) ==
      Count(Pick(front, mark, fate), k) + if FateOf(last, mark) == fate then Hit(last, k) else 0
    ensures Count(Uncovered(front + [last], mark), k) ==
      Count(Uncovered(front, mark), k) + if Covered(mark, last.acceptSeq) then 0 else Hit(last, k)
  {
    PickSnoc(front, last, mark, fate);
    CountSnoc(Pick(front, mark, fate), last, k);
    CountSnoc(Uncovered(front, mark), last, k);
  }

  /** Sorting a queue puts each prompt on exactly one side. */
  lemma {:induction false} CountSplit(queue: seq<Queued>, mark: nat, k: Key)
    ensures Count(queue, k) ==
      Count(Pick(queue, mark, Drop), k) + Count(Pick(queue, mark, Keep), k) + Count(Pick(queue, mark, Fold), k)
    ensures Count(queue, k) == Count(Pick(queue, mark, Drop), k) + Count(Uncovered(queue, mark), k)
  {
    if queue != [] {
      var front, last := queue[..|queue| - 1], queue[|queue| - 1];
      assert front + [last] == queue;
      CountSplit(front, mark, k);
      CountPicked(front, last, mark, Drop, k);
      CountPicked(front, last, mark, Keep, k);
      CountPicked(front, last, mark, Fold, k);
    }
  }

  lemma CountNamedStep(front: seq<Queued>, last: Queued, k: Key)
    requires k.ByRun? && k.runId != "" && Count(Named(front), k) == Count(front, k)
    ensures Count(Named(front + [last]), k) == Count(front + [last], k)
  {
    NamedSnoc(front, last);
    CountSnoc(front, last, k);
    CountSnoc(Named(front), last, k);
  }

  lemma {:induction false} CountNamed(queue: seq<Queued>, runId: string)
    requires runId != ""
    ensures Count(Named(queue), ByRun(runId)) == Count(queue, ByRun(runId))
  {
    if queue != [] {
      var front, last := queue[..|queue| - 1], queue[|queue| - 1];
      CountNamed(front, runId);
      CountNamedStep(front, last, ByRun(runId));
      assert front + [last] == queue;
    }
  }

  /** Prompts the drain folds carry no run ID. */
  lemma {:induction false} FoldedAreUnnamed(queue: seq<Queued>, mark: nat, runId: string)
    requires runId != ""
    ensures Count(Pick(queue, mark, Fold), ByRun(runId)) == 0
  {
    if queue != [] {
      var front, last := queue[..|queue| - 1], queue[|queue| - 1];
      assert front + [last] == queue;
      FoldedAreUnnamed(front, mark, runId);
      CountPicked(front, last, mark, Fold, ByRun(runId));
    }
  }
}
