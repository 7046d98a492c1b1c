/** Turn segmentation: the greedy walk that cuts a transcript into segments, the
    unit in which history is covered by notes and later evicted. */
module Segments {
  import opened Transcript

  datatype Key = Key(turn: nat, number: nat)

  /** Messages `start` up to but not including `end`. Only the last segment of a
      transcript is open. */
  datatype Segment = Segment(turn: nat, number: nat, start: nat, end: nat, open: bool) {
    function Id(): Key { Key(turn, number) }
  }

  // ---------------------------------------------------------------- estimates

  /** What the segmentation accumulator counts: full stored content, whether or
      not a superseded result renders as a stub. */
  function PartChars(p: Part): nat {
    match p
    case Text(text) => |text|
    case Reasoning(thinking, _, _, _, _) => |thinking|
    case CallPart(c) => |c.input|
    case ResultPart(r) => |r.content|
    case _ => 0
  }

  function Chars(parts: seq<Part>): nat {
    if parts == [] then 0 else Chars(parts[..|parts| - 1]) + PartChars(parts[|parts| - 1])
  }

  /** Messages are estimated one at a time, each rounded down. */
  method EstimateSegmentTokens(m: Message) returns (tokens: nat)
    ensures tokens == Chars(m.parts) / 4
  {
    var total: nat := 0;
    for i := 0 to |m.parts|
      invariant total == Chars(m.parts[..i])
    {
      assert m.parts[..i + 1][..i] == m.parts[..i];
      match m.parts[i] {
        case Text(text) => total := total + |text|;
        case Reasoning(thinking, _, _, _, _) => total := total + |thinking|;
        case CallPart(c) => total := total + |c.input|;
        case ResultPart(r) => total := total + |r.content|;
        case _ =>
      }
    }
    assert m.parts[..|m.parts|] == m.parts;
    tokens := total / 4;
  }

  function Tokens(msgs: seq<Message>, from: nat, until: nat): nat
    requires from <= until <= |msgs|
  {
    if from == until then 0 else Tokens(msgs, from, until - 1) + Chars(msgs[until - 1].parts) / 4
  }

  function Steps(msgs: seq<Message>, from: nat, until: nat): nat
    requires from <= until <= |msgs|
  {
    if from == until then 0 else Steps(msgs, from, until - 1) + if msgs[until - 1].role == Assistant then 1 else 0
  }

  // ---------------------------------------------------------- where a cut splits

  /** The last tool message below `n` with a result for this call, or -1. */
  function LastResult(msgs: seq<Message>, n: nat, id: string): (pos: int)
    requires n <= |msgs|
    ensures -1 <= pos < n
    ensures pos >= 0 ==> ResultAt(msgs, pos, id)
    ensures forall k: nat :: pos < k < n ==> !ResultAt(msgs, k, id)
  {
    if n == 0 then -1 else if ResultAt(msgs, n - 1, id) then n - 1 else LastResult(msgs, n - 1, id)
  }

  /** Some assistant message below `n` makes this call. */
  predicate CalledBefore(msgs: seq<Message>, n: nat, id: string)
    requires n <= |msgs|
  {
    n > 0 && (CalledBefore(msgs, n - 1, id) || CallAt(msgs, n - 1, id))
  }

  /** The call was made before `cut` and has a result at or behind it. */
  predicate Waits(msgs: seq<Message>, cut: nat, id: string)
    requires cut <= |msgs|
  {
    CalledBefore(msgs, cut, id) && LastResult(msgs, |msgs|, id) >= cut
  }

  ghost predicate Straddled(msgs: seq<Message>, cut: nat)
    requires cut <= |msgs|
  {
    exists id :: Waits(msgs, cut, id)
  }

  /** A segment that opened at `start` closes at `cut`: always before a user
      message, otherwise at the first safe place once it is big enough. */
  ghost predicate ClosesAt(msgs: seq<Message>, threshold: nat, maxSteps: nat, start: nat, cut: nat)
    requires start < cut < |msgs|
  {
    || msgs[cut].role == User
    || (!Straddled(msgs, cut) && (Tokens(msgs, start, cut) >= threshold || Steps(msgs, start, cut) >= maxSteps))
  }

  function NextNumber(msgs: seq<Message>, number: nat, cut: nat): nat
    requires cut < |msgs|
  {
    if msgs[cut].role == User then 0 else number + 1
  }

  ghost function SegmentsFrom(msgs: seq<Message>, threshold: nat, maxSteps: nat, start: nat, number: nat,
                              cut: nat): (segs: seq<Segment>)
    requires start < cut <= |msgs|
    ensures segs != []
    decreases |msgs| - cut
  {
    if cut == |msgs| then [Segment(TurnOf(msgs, start), number, start, cut, true)]
    else if ClosesAt(msgs, threshold, maxSteps, start, cut) then
      [Segment(TurnOf(msgs, start), number, start, cut, false)]
      + SegmentsFrom(msgs, threshold, maxSteps, cut, NextNumber(msgs, number, cut), cut + 1)
    else SegmentsFrom(msgs, threshold, maxSteps, start, number, cut + 1)
  }

  ghost function SegmentsOf(msgs: seq<Message>, threshold: nat, maxSteps: nat): seq<Segment> {
    if msgs == [] then [] else SegmentsFrom(msgs, threshold, maxSteps, 0, 0, 1)
  }

  // --------------------------------------------------------------- the walk

  type Positions = map<string, nat>

  ghost predicate Indexes(pos: Positions, msgs: seq<Message>, n: nat)
    requires n <= |msgs|
  {
    forall id :: (id in pos <==> LastResult(msgs, n, id) >= 0) && (id in pos ==> pos[id] == LastResult(msgs, n, id))
  }

  method IndexResults(msgs: seq<Message>) returns (pos: Positions)
    ensures Indexes(pos, msgs, |msgs|)
  {
    pos := map[];
    for i := 0 to |msgs|
      invariant Indexes(pos, msgs, i)
    {
      if msgs[i].role == Tool {
        var results := Results(msgs[i].parts);
        ghost var before := pos;
        for j := 0 to |results|
          invariant forall id :: id in pos <==> id in before || exists k :: 0 <= k < j && results[k].callId == id
          invariant forall id :: id in pos ==>
            pos[id] == if exists k :: 0 <= k < j && results[k].callId == id then i else before[id]
        {
          pos := pos[results[j].callId := i];
        }
        forall id ensures (exists k :: 0 <= k < |results| && results[k].callId == id) <==> ResultAt(msgs, i, id) {
          if k :| 0 <= k < |results| && results[k].callId == id { assert results[k] in results; }
          if ResultAt(msgs, i, id) {
            var r :| r in results && r.callId == id;
            var k :| 0 <= k < |results| && results[k] == r;
          }
        }
      }
    }
  }

  function IdsBefore(msgs: seq<Message>, n: nat): (ids: set<string>)
    requires n <= |msgs|
    ensures forall id :: id in ids <==> CalledBefore(msgs, n, id)
  {
    if n == 0 then {}
    else if msgs[n - 1].role == Assistant then
      var calls := CallIds(Calls(msgs[n - 1].parts));
      IdsBefore(msgs, n - 1) + set k | 0 <= k < |calls| :: calls[k]
    else IdsBefore(msgs, n - 1)
  }

  /** The calls made before `cut` that wait for a result at or behind it. */
  function PendingAt(msgs: seq<Message>, cut: nat): Positions
    requires cut <= |msgs|
  {
    map id | id in IdsBefore(msgs, cut) && LastResult(msgs, |msgs|, id) >= cut :: LastResult(msgs, |msgs|, id)
  }

  function Pend(pending: Positions, calls: seq<Call>, pos: Positions, i: nat): Positions {
    if calls == [] then pending
    else
      var before, id := Pend(pending, calls[..|calls| - 1], pos, i), calls[|calls| - 1].id;
      if id in pos && pos[id] > i then before[id := pos[id]] else before
  }

  lemma {:induction false} PendAt(pending: Positions, calls: seq<Call>, pos: Positions, i: nat, id: string)
    requires id in pending && id in pos ==> pending[id] == pos[id]
    ensures id in Pend(pending, calls, pos, i) <==> id in pending || (id in CallIds(calls) && id in pos && pos[id] > i)
    ensures id in Pend(pending, calls, pos, i) ==>
      Pend(pending, calls, pos, i)[id] == if id in pending then pending[id] else pos[id]
  {
    if calls != [] {
      var front, last := calls[..|calls| - 1], calls[|calls| - 1].id;
      assert CallIds(calls) == CallIds(front) + [last];
      PendAt(pending, front, pos, i, id);
    }
  }

  /** Drops the calls whose last result precedes the cut. */
  method ResolvedBefore(pending: Positions, cut: nat) returns (out: Positions)
    ensures out == map id | id in pending && pending[id] >= cut :: pending[id]
  {
    out := pending;
    var todo := pending.Keys;
    while todo != {}
      invariant todo <= pending.Keys
      invariant out == map id | id in pending && (id in todo || pending[id] >= cut) :: pending[id]
      decreases |todo|
    {
      var id :| id in todo;
      todo := todo - {id};
      if pending[id] < cut { out := out - {id}; }
    }
  }

  lemma PendingStep(before: Positions, after: Positions, msgs: seq<Message>, pos: Positions, i: nat)
    requires i < |msgs| && before == PendingAt(msgs, i) && Indexes(pos, msgs, |msgs|)
    requires
      var added := if msgs[i].role == Assistant then Pend(before, Calls(msgs[i].parts), pos, i) else before;
      after == map id | id in added && added[id] >= i + 1 :: added[id]
    ensures after == PendingAt(msgs, i + 1)
  {
    forall id
      ensures id in after <==> Waits(msgs, i + 1, id)
      ensures id in after ==> after[id] == LastResult(msgs, |msgs|, id)
    {
      if msgs[i].role == Assistant { PendAt(before, Calls(msgs[i].parts), pos, i, id); }
    }
  }

  lemma PendingIsStraddled(msgs: seq<Message>, cut: nat)
    requires cut <= |msgs|
    ensures |PendingAt(msgs, cut)| > 0 <==> Straddled(msgs, cut)
  {
    var pending := PendingAt(msgs, cut);
    if |pending| > 0 {
      var id :| id in pending.Keys;
      assert Waits(msgs, cut, id);
    }
    if id :| Waits(msgs, cut, id) { assert id in pending; }
  }

  method PassMessage(before: Positions, msgs: seq<Message>, pos: Positions, i: nat) returns (pending: Positions)
    requires i < |msgs| && before == PendingAt(msgs, i) && Indexes(pos, msgs, |msgs|)
    ensures pending == PendingAt(msgs, i + 1)
  {
    pending := before;
    if msgs[i].role == Assistant {
      var calls := Calls(msgs[i].parts);
      for j := 0 to |calls|
        invariant pending == Pend(before, calls[..j], pos, i)
      {
        assert calls[..j + 1][..j] == calls[..j];
        if calls[j].id in pos && pos[calls[j].id] > i { pending := pending[calls[j].id := pos[calls[j].id]]; }
      }
      assert calls[..|calls|] == calls;
    }
    pending := ResolvedBefore(pending, i + 1);
    PendingStep(before, pending, msgs, pos, i);
  }

  /** The walk so far: `segs` are closed, and the rest of the segmentation is
      what the walk would do from here. */
  ghost predicate Walked(msgs: seq<Message>, threshold: nat, maxSteps: nat, segs: seq<Segment>, start: nat,
                         number: nat, cut: nat)
  {
    && start < cut <= |msgs|
    && SegmentsOf(msgs, threshold, maxSteps) == segs + SegmentsFrom(msgs, threshold, maxSteps, start, number, cut)
  }

  lemma WalkStep(msgs: seq<Message>, threshold: nat, maxSteps: nat, segs: seq<Segment>, start: nat, number: nat,
                 cut: nat)
    requires Walked(msgs, threshold, maxSteps, segs, start, number, cut) && cut < |msgs|
    ensures ClosesAt(msgs, threshold, maxSteps, start, cut) ==>
      Walked(msgs, threshold, maxSteps, segs + [Segment(TurnOf(msgs, start), number, start, cut, false)],
             cut, NextNumber(msgs, number, cut), cut + 1)
    ensures !ClosesAt(msgs, threshold, maxSteps, start, cut) ==>
      Walked(msgs, threshold, maxSteps, segs, start, number, cut + 1) && TurnOf(msgs, cut) == TurnOf(msgs, cut - 1)
  {
    var rest := SegmentsFrom(msgs, threshold, maxSteps, start, number, cut);
    if ClosesAt(msgs, threshold, maxSteps, start, cut) {
      var s := Segment(TurnOf(msgs, start), number, start, cut, false);
      assert rest == [s] + SegmentsFrom(msgs, threshold, maxSteps, cut, NextNumber(msgs, number, cut), cut + 1);
      assert segs + rest ==
        (segs + [s]) + SegmentsFrom(msgs, threshold, maxSteps, cut, NextNumber(msgs, number, cut), cut + 1);
    }
  }

  /** A user message is a hard boundary and wins over the pending guard. */
  method Closes(msgs: seq<Message>, threshold: nat, maxSteps: nat, ghost start: nat, cut: nat, acc: nat, steps: nat,
                pending: Positions)
    returns (closes: bool)
    requires start < cut < |msgs| && Counted(msgs, start, cut, acc, steps, pending)
    ensures closes <==> ClosesAt(msgs, threshold, maxSteps, start, cut)
  {
    PendingIsStraddled(msgs, cut);
    if msgs[cut].role == User { return true; }
    if |pending| > 0 { return false; }
    closes := acc >= threshold || steps >= maxSteps;
  }

  method TurnNumbers(msgs: seq<Message>) returns (turns: seq<nat>)
    ensures |turns| == |msgs| && forall i :: 0 <= i < |msgs| ==> turns[i] == TurnOf(msgs, i)
  {
    var numbered := MessageTurns(msgs);
    turns := numbered[..];
  }

  ghost predicate Counted(msgs: seq<Message>, start: nat, cut: nat, acc: nat, steps: nat, pending: Positions)
    requires start <= cut <= |msgs|
  {
    acc == Tokens(msgs, start, cut) && steps == Steps(msgs, start, cut) && pending == PendingAt(msgs, cut)
  }

  /** The counters of the open segment once message `i` is in it. */
  method TakeMessage(msgs: seq<Message>, pos: Positions, i: nat, acc: nat, steps: nat, pending: Positions,
                     ghost start: nat)
    returns (newAcc: nat, newSteps: nat, newPending: Positions)
    requires start <= i < |msgs| && Indexes(pos, msgs, |msgs|)
    requires Counted(msgs, start, i, acc, steps, pending)
    ensures Counted(msgs, start, i + 1, newAcc, newSteps, newPending)
  {
    newSteps := if msgs[i].role == Assistant then steps + 1 else steps;
    var tokens := EstimateSegmentTokens(msgs[i]);
    newAcc := acc + tokens;
    newPending := PassMessage(pending, msgs, pos, i);
  }

  method SegmentBoundaries(msgs: seq<Message>, threshold: nat, maxSteps: nat) returns (segs: seq<Segment>)
    ensures segs == SegmentsOf(msgs, threshold, maxSteps)
  {
    if msgs == [] { return []; }
    var pos := IndexResults(msgs);
    var turns := TurnNumbers(msgs);
    var pending: Positions := map[];
    segs := [];
    var start: nat, acc: nat, steps: nat, segNum: nat := 0, 0, 0, 0;
    var curTurn := turns[0];
    for i := 0 to |msgs| - 1
      invariant start <= i && Counted(msgs, start, i, acc, steps, pending)
      invariant curTurn == TurnOf(msgs, start) == TurnOf(msgs, i)
      invariant Walked(msgs, threshold, maxSteps, segs, start, segNum, i + 1)
    {
      var cut := i + 1;
      acc, steps, pending := TakeMessage(msgs, pos, i, acc, steps, pending, start);
      var closes := Closes(msgs, threshold, maxSteps, start, cut, acc, steps, pending);
      WalkStep(msgs, threshold, maxSteps, segs, start, segNum, cut);
      if closes {
        segs := segs + [Segment(curTurn, segNum, start, cut, false)];
        segNum := if msgs[cut].role == User then 0 else segNum + 1;
        start, acc, steps, curTurn := cut, 0, 0, turns[cut];
      }
    }
    segs := segs + [Segment(curTurn, segNum, start, |msgs|, true)];
  }
}
