/** What a collapsed, summarized or stubbed message shows, said of the stored parts
    themselves and independently of how the rewriting is put together. */
module PriorTurnsProperties {
  import opened Transcript
  import opened PriorTurns

  // --------------------------------------------------------- calls that stay

  /** A call part with this ID asks the user. */
  predicate AsksUser(parts: seq<Part>, id: string) {
    exists k :: 0 <= k < |parts| && parts[k].CallPart? && parts[k].call.id == id && parts[k].call.name == "question"
  }

  /** A call part with this ID asks the user or was run by the provider. */
  predicate StaysWhole(parts: seq<Part>, id: string) {
    exists k :: 0 <= k < |parts| && parts[k].CallPart? && parts[k].call.id == id &&
      (parts[k].call.name == "question" || parts[k].call.providerExecuted)
  }

  lemma StayingIds(parts: seq<Part>, id: string)
    ensures id in ExemptIds(parts) <==> StaysWhole(parts, id)
    ensures id in QuestionIds(parts) <==> AsksUser(parts, id)
  {
    forall c ensures c in Calls(parts) <==> CallPart(c) in parts { CallsMember(parts, c); }
    if StaysWhole(parts, id) {
      var k :| 0 <= k < |parts| && parts[k].CallPart? && parts[k].call.id == id &&
        (parts[k].call.name == "question" || parts[k].call.providerExecuted);
      assert parts[k].call in Calls(parts);
    }
    if AsksUser(parts, id) {
      var k :| 0 <= k < |parts| && parts[k].CallPart? && parts[k].call.id == id && parts[k].call.name == "question";
      assert parts[k].call in Calls(parts);
    }
  }

  // ----------------------------------------------------------- stub and digest

  /** What stub and digest leave of one part: a call that stays whole and the
      reasoning bound to it, unchanged; of other reasoning the field and the replay
      data; of another call everything but its input; of any other part all of it. */
  function Shrunk(parts: seq<Part>, k: nat, mode: Mode, turn: nat): Part
    requires k < |parts|
  {
    match parts[k]
    case Reasoning(_, _, _, toolId, data) =>
      if StaysWhole(parts, toolId) then parts[k] else Reasoning("", "", "", "", data)
    case CallPart(c) =>
      if StaysWhole(parts, c.id) then parts[k]
      else
        var write := c.name in {"edit", "write", "multiedit", "lsp_rename", "lsp_replace_symbol"};
        CallPart(Call(c.id, c.name, CollapsedCallInput(mode, turn, write), c.providerExecuted, c.finished))
    case _ => parts[k]
  }

  function ShrunkParts(parts: seq<Part>, mode: Mode, turn: nat): (out: seq<Part>)
    ensures |out| == |parts|
  {
    seq(|parts|, k requires 0 <= k < |parts| => Shrunk(parts, k, mode, turn))
  }

  /** A collapsed message shows, part by part, exactly that. */
  lemma CollapseShows(m: Message, turn: nat, mode: Mode)
    ensures CollapseAssistant(m, turn, mode) == m.(parts := ShrunkParts(m.parts, mode, turn))
  {
    forall id ensures id in ExemptIds(m.parts) <==> StaysWhole(m.parts, id) { StayingIds(m.parts, id); }
    var out, want := CollapseAssistant(m, turn, mode).parts, ShrunkParts(m.parts, mode, turn);
    forall k | 0 <= k < |m.parts| ensures out[k] == want[k] {
      assert out[k] == CollapsePart(m.parts[k], ExemptIds(m.parts), turn, mode);
    }
    assert out == want;
  }

  // ---------------------------------------------------------------- summarize

  /** Summarize keeps a part unless it is a call that does not ask the user, or
      reasoning in a message none of whose calls does. */
  predicate Lasts(parts: seq<Part>, k: nat)
    requires k < |parts|
  {
    match parts[k]
    case Reasoning(_, _, _, _, _) =>
      exists j :: 0 <= j < |parts| && parts[j].CallPart? && parts[j].call.name == "question"
    case CallPart(c) => AsksUser(parts, c.id)
    case _ => true
  }

  /** What it shows of a part it keeps: reasoning that is not bound to a question loses
      its thinking and its signatures. */
  function Bared(parts: seq<Part>, k: nat): Part
    requires k < |parts|
  {
    match parts[k]
    case Reasoning(_, _, _, toolId, data) =>
      if AsksUser(parts, toolId) then parts[k] else Reasoning("", "", "", "", data)
    case _ => parts[k]
  }

  function BaredParts(parts: seq<Part>, n: nat): seq<Part>
    requires n <= |parts|
  {
    if n == 0 then []
    else if Lasts(parts, n - 1) then BaredParts(parts, n - 1) + [Bared(parts, n - 1)]
    else BaredParts(parts, n - 1)
  }

  lemma QuestionsKept(parts: seq<Part>)
    ensures QuestionIds(parts) != {} <==>
      exists j :: 0 <= j < |parts| && parts[j].CallPart? && parts[j].call.name == "question"
  {
    if QuestionIds(parts) != {} {
      var id :| id in QuestionIds(parts);
      StayingIds(parts, id);
    }
    if j :| 0 <= j < |parts| && parts[j].CallPart? && parts[j].call.name == "question" {
      StayingIds(parts, parts[j].call.id);
    }
  }

  lemma {:induction false} SummarizeShowsUpTo(parts: seq<Part>, n: nat)
    requires n <= |parts|
    ensures SummarizeParts(parts[..n], QuestionIds(parts)) == BaredParts(parts, n)
  {
    if n > 0 {
      SummarizeShowsUpTo(parts, n - 1);
      assert parts[..n][..n - 1] == parts[..n - 1];
      QuestionsKept(parts);
      match parts[n - 1] {
        case Reasoning(_, _, _, toolId, _) => StayingIds(parts, toolId);
        case CallPart(c) => StayingIds(parts, c.id);
        case _ =>
      }
    }
  }

  /** A summarized message shows exactly that, in stored order. */
  lemma SummarizeShows(m: Message)
    ensures SummarizeAssistant(m) == m.(parts := BaredParts(m.parts, |m.parts|))
  {
    SummarizeShowsUpTo(m.parts, |m.parts|);
    assert m.parts[..|m.parts|] == m.parts;
  }

  /** In particular a summarized message replays no signature and no thinking but that
      of reasoning bound to a question it still carries. */
  lemma {:induction false} DroppedCallsLeaveNoSignature(parts: seq<Part>, n: nat, p: Part)
    requires n <= |parts| && p in BaredParts(parts, n) && p.Reasoning?
    ensures p.thinking != "" || p.signature != "" || p.thoughtSignature != "" ==>
      p in parts && AsksUser(parts, p.toolId)
  {
    if p in BaredParts(parts, n - 1) {
      DroppedCallsLeaveNoSignature(parts, n - 1, p);
    } else {
      assert p == Bared(parts, n - 1);
    }
  }

  // ------------------------------------------------------------- tool messages

  /** The text names the recall that returns the stored result. */
  ghost predicate PointsAt(text: string, id: string) {
    exists before: string, after: string :: text == before + Pointer(id) + after
  }

  lemma PointerPoints(mode: Mode, turn: nat, id: string, write: bool)
    ensures PointsAt(CollapsedResultText(mode, turn, id, write), id)
  {
    var text := CollapsedResultText(mode, turn, id, write);
    if write {
      assert text == "[prior turn, write args dropped; " + Pointer(id) + " holds the confirmation]";
    } else if mode == Digest {
      assert text == "[prior turn, in turn digest; " + Pointer(id) + "]";
    } else {
      assert text == "[prior turn; " + Pointer(id) + "]";
    }
  }

  /** A pointer instead of the stored result: under its own call ID and name, without
      payload and without its failure. */
  ghost predicate IsPointer(r: Result, out: Result) {
    && out.callId == r.callId && out.name == r.name && out.superseded == r.superseded
    && out.data == "" && out.mimeType == "" && !out.isError && PointsAt(out.content, r.callId)
  }

  /** Of a collapsed tool message each result shows as a pointer to it, unless its call
      stays whole, and then as stored; no result is lost, added or moved. */
  lemma {:induction false} CollapsedResultsPoint(parts: seq<Part>, turn: nat, mode: Mode, exempt: set<string>,
                                                 names: map<string, string>)
    ensures var stored, shown := Results(parts), Results(CollapseToolParts(parts, turn, mode, exempt, names));
      |shown| == |stored| && forall k :: 0 <= k < |stored| ==>
        if stored[k].callId in exempt then shown[k] == stored[k] else IsPointer(stored[k], shown[k])
  {
    if parts != [] {
      var front, last := parts[..|parts| - 1], parts[|parts| - 1];
      CollapsedResultsPoint(front, turn, mode, exempt, names);
      assert parts == front + [last];
      CollapseToolSnoc(front, last, turn, mode, exempt, names);
      ResultsSnoc(front, last);
      ResultsSnoc(CollapseToolParts(front, turn, mode, exempt, names),
                  CollapseToolPart(last, turn, mode, exempt, names));
      if last.ResultPart? {
        var id := last.result.callId;
        PointerPoints(mode, turn, id, id in names && names[id] in WRITE_TOOLS);
      }
    }
  }

  lemma ResultsSnoc(front: seq<Part>, last: Part)
    ensures Results(front + [last]) == Results(front) + if last.ResultPart? then [last.result] else []
  {
    assert (front + [last])[..|front|] == front;
  }

  /** Exactly a result that succeeded and whose mark was applied shows its stub text; a
      pending mark stays hidden. */
  predicate ShowsStub(r: Result, out: Result) {
    && out == r.(content := out.content)
    && match r.superseded
       case Some(Mark(true, text)) => if r.isError then out.content == r.content else out.content == text
       case _ => out.content == r.content
  }

  /** With stubs on, each stored result shows so, and none is lost, added or moved. */
  lemma {:induction false} StubsShow(parts: seq<Part>)
    ensures var stored, shown := Results(parts), Results(StubParts(parts));
      |shown| == |stored| && forall k :: 0 <= k < |stored| ==> ShowsStub(stored[k], shown[k])
  {
    if parts != [] {
      var front, last := parts[..|parts| - 1], parts[|parts| - 1];
      StubsShow(front);
      assert parts == front + [last];
      assert StubParts(parts) == StubParts(front) + [StubPart(last)];
      ResultsSnoc(front, last);
      ResultsSnoc(StubParts(front), StubPart(last));
    }
  }

  /** A summarized tool message keeps, in order, exactly the results of calls this
      render knows and does not drop. */
  function Answering(results: seq<Result>, names: map<string, string>, dropped: set<string>): seq<Result> {
    if results == [] then []
    else
      var front, last := results[..|results| - 1], results[|results| - 1];
      if last.callId !in names || last.callId in dropped then Answering(front, names, dropped)
      else Answering(front, names, dropped) + [last]
  }

  lemma {:induction false} SummarizedResultsAnswer(parts: seq<Part>, names: map<string, string>, dropped: set<string>)
    ensures Results(SummarizeToolParts(parts, names, dropped)) == Answering(Results(parts), names, dropped)
  {
    if parts != [] {
      var front, last := parts[..|parts| - 1], parts[|parts| - 1];
      SummarizedResultsAnswer(front, names, dropped);
      assert parts == front + [last];
      ResultsSnoc(front, last);
      var kept := SummarizeToolParts(front, names, dropped);
      ResultsSnoc(kept, last);
      assert kept + [] == kept;
      if last.ResultPart? {
        assert Results(parts)[..|Results(parts)| - 1] == Results(front);
      } else {
        assert Results(front) + [] == Results(front) && Results(kept) + [] == Results(kept);
      }
    }
  }
}
