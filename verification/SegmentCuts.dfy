/** Why each segment ends where it does, said of the messages alone: what a cut would
    split, how big a segment is, and how it is numbered. */
module SegmentCuts {
  import opened Transcript
  import opened Segments
  import opened SegmentProperties

  /** A cut here splits a call from one of its results. */
  ghost predicate Splits(msgs: seq<Message>, cut: nat) {
    exists i: nat, j: nat, id: string :: i < cut <= j && CallAt(msgs, i, id) && ResultAt(msgs, j, id)
  }

  lemma StraddledIff(msgs: seq<Message>, cut: nat)
    requires cut <= |msgs|
    ensures Straddled(msgs, cut) <==> Splits(msgs, cut)
  {
    if id :| Waits(msgs, cut, id) {
      CalledBeforeWitness(msgs, cut, id);
      var i: nat :| i < cut && CallAt(msgs, i, id);
      var j := LastResult(msgs, |msgs|, id);
      assert i < cut <= j && CallAt(msgs, i, id) && ResultAt(msgs, j, id);
    }
    if i: nat, j: nat, id: string :| i < cut <= j && CallAt(msgs, i, id) && ResultAt(msgs, j, id) {
      CalledBeforeWitness(msgs, cut, id);
      assert LastResult(msgs, |msgs|, id) >= j;
      assert Waits(msgs, cut, id);
    }
  }

  /** The steps of a segment: its assistant messages. */
  function AssistantsIn(msgs: seq<Message>, from: nat, until: nat): set<nat> {
    set i: nat | from <= i < until && i < |msgs| && msgs[i].role == Assistant
  }

  lemma {:induction false} StepsAreAssistants(msgs: seq<Message>, from: nat, until: nat)
    requires from <= until <= |msgs|
    ensures Steps(msgs, from, until) == |AssistantsIn(msgs, from, until)|
    decreases until
  {
    if from == until {
      assert AssistantsIn(msgs, from, until) == {};
    } else {
      var last := until - 1;
      StepsAreAssistants(msgs, from, last);
      assert AssistantsIn(msgs, from, until) ==
        AssistantsIn(msgs, from, last) + if msgs[last].role == Assistant then {last} else {};
    }
  }

  /** Everything a message stores as text: words, thinking, inputs and results. */
  function Written(parts: seq<Part>): string {
    if parts == [] then ""
    else
      var last := parts[|parts| - 1];
      var before := Written(parts[..|parts| - 1]);
      if last.Text? then before + last.text
      else if last.Reasoning? then before + last.thinking
      else if last.CallPart? then before + last.call.input
      else if last.ResultPart? then before + last.result.content
      else before
  }

  lemma {:induction false} CharsAreWritten(parts: seq<Part>)
    ensures Chars(parts) == |Written(parts)|
  {
    if parts != [] { CharsAreWritten(parts[..|parts| - 1]); }
  }

  /** The size of a segment, message by message and each rounded down. */
  function Size(msgs: seq<Message>, from: nat, until: nat): nat
    requires until <= |msgs|
    decreases until - from
  {
    if from >= until then 0 else |Written(msgs[from].parts)| / 4 + Size(msgs, from + 1, until)
  }

  lemma {:induction false} SizeSnoc(msgs: seq<Message>, from: nat, until: nat)
    requires from <= until < |msgs|
    ensures Size(msgs, from, until + 1) == Size(msgs, from, until) + |Written(msgs[until].parts)| / 4
    decreases until - from
  {
    if from < until { SizeSnoc(msgs, from + 1, until); }
  }

  lemma {:induction false} TokensAreSize(msgs: seq<Message>, from: nat, until: nat)
    requires from <= until <= |msgs|
    ensures Tokens(msgs, from, until) == Size(msgs, from, until)
    decreases until
  {
    if from < until {
      TokensAreSize(msgs, from, until - 1);
      SizeSnoc(msgs, from, until - 1);
      CharsAreWritten(msgs[until - 1].parts);
    }
  }

  /** A segment from `start` may end at `cut`: the user speaks there, or the cut splits no
      call from a result and the segment has the tokens or the steps. */
  ghost predicate MayEnd(msgs: seq<Message>, threshold: nat, maxSteps: nat, start: nat, cut: nat)
    requires start <= cut < |msgs|
  {
    || msgs[cut].role == User
    || (!Splits(msgs, cut) &&
          (Size(msgs, start, cut) >= threshold || |AssistantsIn(msgs, start, cut)| >= maxSteps))
  }

  /** Every closed segment ends where it may, and no segment, open or closed, holds an
      earlier place where it might have ended. */
  lemma EachCutHasItsReason(msgs: seq<Message>, threshold: nat, maxSteps: nat, k: nat)
    requires msgs != [] && k < |SegmentsOf(msgs, threshold, maxSteps)|
    ensures var s := SegmentsOf(msgs, threshold, maxSteps)[k];
      && s.start < s.end <= |msgs|
      && (!s.open ==> s.end < |msgs| && MayEnd(msgs, threshold, maxSteps, s.start, s.end))
      && forall c: nat :: s.start < c < s.end ==> !MayEnd(msgs, threshold, maxSteps, s.start, c)
  {
    var segs := SegmentsOf(msgs, threshold, maxSteps);
    Greedy(msgs, threshold, maxSteps);
    assert WellCut(msgs, threshold, maxSteps, segs, k);
    var s := segs[k];
    forall c: nat | s.start < c <= s.end && c < |msgs|
      ensures MayEnd(msgs, threshold, maxSteps, s.start, c) <==> ClosesAt(msgs, threshold, maxSteps, s.start, c)
    {
      StraddledIff(msgs, c);
      TokensAreSize(msgs, s.start, c);
      StepsAreAssistants(msgs, s.start, c);
    }
  }

  /** Segments count from 0 in each turn. */
  lemma NumbersCountPerTurn(msgs: seq<Message>, threshold: nat, maxSteps: nat, k: nat)
    requires msgs != [] && k < |SegmentsOf(msgs, threshold, maxSteps)|
    ensures var segs := SegmentsOf(msgs, threshold, maxSteps);
      segs[k].number == if k > 0 && segs[k].turn == segs[k - 1].turn then segs[k - 1].number + 1 else 0
  {
    var segs := SegmentsOf(msgs, threshold, maxSteps);
    Greedy(msgs, threshold, maxSteps);
    if k > 0 {
      var s := segs[k - 1];
      assert WellCut(msgs, threshold, maxSteps, segs, k - 1) && WellCut(msgs, threshold, maxSteps, segs, k);
      SegmentHasOneTurn(msgs, threshold, maxSteps, k - 1, s.end - 1);
      assert TurnOf(msgs, s.end) == TurnOf(msgs, s.end - 1) + if msgs[s.end].role == User then 1 else 0;
    }
  }
}
