/** Prior-turn collapse: how a message of a completed, covered turn is rewritten
    at render time. Stub and digest keep every call and result and replace only
    their content; summarize drops everything except the question pairs. */
module PriorTurns {
  import opened Transcript

  datatype Mode = Verbatim | Stub | Digest | Summarize

  const QUESTION_TOOL := "question"
  const WRITE_TOOLS := {"edit", "write", "multiedit", "lsp_rename", "lsp_replace_symbol"}

  /** The mode gates applied when the agent is built: stub and digest print
      recall pointers and need the recall tool, summarize needs the notebook. */
  function ResolvePriorTurns(mode: Mode, notebookOn: bool, recallOn: bool): (r: Mode)
    ensures mode in {Stub, Digest} ==> r == if notebookOn && recallOn then mode else Verbatim
    ensures mode == Summarize ==> (r == Summarize <==> notebookOn) && (r == Verbatim <==> !notebookOn)
    ensures mode == Verbatim ==> r == Verbatim
  {
    if notebookOn && (recallOn || mode == Summarize) then mode else Verbatim
  }

  predicate CallIsExempt(c: Call) {
    c.name == QUESTION_TOOL || c.providerExecuted
  }

  function ExemptIds(parts: seq<Part>): set<string> {
    set c | c in Calls(parts) && CallIsExempt(c) :: c.id
  }

  function QuestionIds(parts: seq<Part>): set<string> {
    set c | c in Calls(parts) && c.name == QUESTION_TOOL :: c.id
  }

  /** Only the shape of the replacement matters here: a JSON object for an
      input, a text that points at the stored result for a result. */
  function CollapsedCallInput(mode: Mode, turn: nat, write: bool): string {
    if write then "{\"_collapsed\":\"prior turn, write args dropped\"}"
    else if mode == Digest then "{\"_collapsed\":\"prior turn, in turn digest\"}"
    else "{\"_collapsed\":\"prior turn\"}"
  }

  /** The recall that returns a stored result. */
  function Pointer(callId: string): string { "recall(result:" + callId + ")" }

  function CollapsedResultText(mode: Mode, turn: nat, callId: string, write: bool): string {
    if write then "[prior turn, write args dropped; " + Pointer(callId) + " holds the confirmation]"
    else if mode == Digest then "[prior turn, in turn digest; " + Pointer(callId) + "]"
    else "[prior turn; " + Pointer(callId) + "]"
  }

  // --------------------------------------------- assistant messages, stub/digest

  function StripReasoning(p: Part): Part
    requires p.Reasoning?
  {
    p.(thinking := "", signature := "", thoughtSignature := "", toolId := "")
  }

  function CollapsePart(p: Part, exempt: set<string>, turn: nat, mode: Mode): Part {
    match p
    case Reasoning(_, _, _, toolId, _) => if toolId in exempt then p else StripReasoning(p)
    case CallPart(c) =>
      if c.id in exempt then p
      else CallPart(c.(input := CollapsedCallInput(mode, turn, c.name in WRITE_TOOLS)))
    case _ => p
  }

  function CollapseParts(parts: seq<Part>, exempt: set<string>, turn: nat, mode: Mode): (out: seq<Part>)
    ensures |out| == |parts|
    ensures forall k :: 0 <= k < |parts| ==> out[k] == CollapsePart(parts[k], exempt, turn, mode)
  {
    seq(|parts|, k requires 0 <= k < |parts| => CollapsePart(parts[k], exempt, turn, mode))
  }

  function CollapseAssistant(m: Message, turn: nat, mode: Mode): Message {
    m.(parts := CollapseParts(m.parts, ExemptIds(m.parts), turn, mode))
  }

  /** Reasoning or a call that collapse would have to rewrite. */
  predicate NeedsRewrite(parts: seq<Part>, keep: set<string>) {
    exists k :: 0 <= k < |parts| && PartNeedsRewrite(parts[k], keep)
  }

  predicate PartNeedsRewrite(p: Part, keep: set<string>) {
    || (p.Reasoning? && p.toolId !in keep)
    || (p.CallPart? && p.call.id !in keep)
  }

  function CountCallsOutside(parts: seq<Part>, keep: set<string>): nat {
    if parts == [] then 0
    else
      var last := parts[|parts| - 1];
      CountCallsOutside(parts[..|parts| - 1], keep) + if last.CallPart? && last.call.id !in keep then 1 else 0
  }

  lemma {:induction false} NoRewriteNoCalls(parts: seq<Part>, keep: set<string>)
    requires !NeedsRewrite(parts, keep)
    ensures CountCallsOutside(parts, keep) == 0
  {
    if parts != [] {
      var front := parts[..|parts| - 1];
      assert forall k :: 0 <= k < |front| ==> front[k] == parts[k];
      NoRewriteNoCalls(front, keep);
      assert !PartNeedsRewrite(parts[|parts| - 1], keep);
    }
  }

  /** The scan that decides whether a rewrite is needed at all. */
  method ScanNeeds(parts: seq<Part>, keep: set<string>) returns (needs: bool)
    ensures needs <==> NeedsRewrite(parts, keep)
  {
    needs := false;
    for i := 0 to |parts|
      invariant !needs
      invariant forall k :: 0 <= k < i ==> !PartNeedsRewrite(parts[k], keep)
    {
      match parts[i] {
        case Reasoning(_, _, _, toolId, _) => needs := needs || toolId !in keep;
        case CallPart(c) => needs := needs || c.id !in keep;
        case _ =>
      }
      if needs {
        assert PartNeedsRewrite(parts[i], keep);
        return;
      }
    }
  }

  /** The IDs of the calls that stay verbatim. */
  method CollectIds(parts: seq<Part>, questionsOnly: bool) returns (ids: set<string>)
    ensures ids == if questionsOnly then QuestionIds(parts) else ExemptIds(parts)
  {
    ids := {};
    for i := 0 to |parts|
      invariant ids == if questionsOnly then QuestionIds(parts[..i]) else ExemptIds(parts[..i])
    {
      assert parts[..i + 1][..i] == parts[..i];
      assert Calls(parts[..i + 1]) == Calls(parts[..i]) + if parts[i].CallPart? then [parts[i].call] else [];
      if parts[i].CallPart?
         && if questionsOnly then parts[i].call.name == QUESTION_TOOL else CallIsExempt(parts[i].call) {
        ids := ids + {parts[i].call.id};
      }
    }
    assert parts[..|parts|] == parts;
  }

  method CollapseAssistantForTurn(m: Message, turn: nat, mode: Mode) returns (out: Message, collapsed: nat)
    ensures out == CollapseAssistant(m, turn, mode)
    ensures collapsed == CountCallsOutside(m.parts, ExemptIds(m.parts))
  {
    var exempt := CollectIds(m.parts, false);
    var needs := ScanNeeds(m.parts, exempt);
    if !needs {
      CollapseFastPath(m.parts, exempt, turn, mode);
      NoRewriteNoCalls(m.parts, exempt);
      return m, 0;
    }
    var parts: seq<Part> := [];
    collapsed := 0;
    for i := 0 to |m.parts|
      invariant |parts| == i
      invariant forall k :: 0 <= k < i ==> parts[k] == CollapsePart(m.parts[k], exempt, turn, mode)
      invariant collapsed == CountCallsOutside(m.parts[..i], exempt)
    {
      assert m.parts[..i + 1][..i] == m.parts[..i];
      var part := m.parts[i];
      match part {
        case Reasoning(_, _, _, toolId, _) =>
          if toolId !in exempt { part := StripReasoning(part); }
        case CallPart(c) =>
          if c.id !in exempt {
            part := CallPart(c.(input := CollapsedCallInput(mode, turn, c.name in WRITE_TOOLS)));
            collapsed := collapsed + 1;
          }
        case _ =>
      }
      parts := parts + [part];
    }
    assert m.parts[..|m.parts|] == m.parts;
    assert parts == CollapseParts(m.parts, exempt, turn, mode);
    out := m.(parts := parts);
  }

  /** Returning the message untouched when nothing needs rewriting is only a
      shortcut: the rewrite would have produced the same parts. */
  lemma CollapseFastPath(parts: seq<Part>, exempt: set<string>, turn: nat, mode: Mode)
    ensures !NeedsRewrite(parts, exempt) ==> CollapseParts(parts, exempt, turn, mode) == parts
  {
    if !NeedsRewrite(parts, exempt) {
      forall k | 0 <= k < |parts| ensures CollapsePart(parts[k], exempt, turn, mode) == parts[k] {
        assert !PartNeedsRewrite(parts[k], exempt);
      }
    }
  }

  /** Every call survives stub and digest collapse under its own ID and name and
      in its own place; a call that is exempt by ID is untouched. */
  lemma {:induction false} CollapseKeepsCalls(parts: seq<Part>, exempt: set<string>, turn: nat, mode: Mode)
    ensures |Calls(CollapseParts(parts, exempt, turn, mode))| == |Calls(parts)|
    ensures forall k :: 0 <= k < |Calls(parts)| ==>
      var before, after := Calls(parts)[k], Calls(CollapseParts(parts, exempt, turn, mode))[k];
      && after == before.(input := after.input)
      && (before.id in exempt ==> after == before)
    ensures CallIds(Calls(CollapseParts(parts, exempt, turn, mode))) == CallIds(Calls(parts))
  {
    if parts != [] {
      var front := parts[..|parts| - 1];
      CollapseKeepsCalls(front, exempt, turn, mode);
      assert CollapseParts(parts, exempt, turn, mode)[..|parts| - 1] == CollapseParts(front, exempt, turn, mode);
    }
  }

  /** What strict providers require of a replayed tool-call turn: reasoning that
      was there is still there, and whatever still carries a signature or text is
      exactly the stored part, bound to a call that is replayed unchanged. */
  lemma CollapseReplaysReasoningHonestly(m: Message, turn: nat, mode: Mode, k: nat)
    requires k < |m.parts| && m.parts[k].Reasoning?
    ensures var out := CollapseAssistant(m, turn, mode).parts;
      && out[k].Reasoning?
      && out[k].responsesData == m.parts[k].responsesData
      && ((out[k].thinking != "" || out[k].signature != "" || out[k].thoughtSignature != "") ==>
            && out[k] == m.parts[k]
            && exists c :: c in Calls(m.parts) && c.id == out[k].toolId && CallPart(c) in out)
  {
    var out := CollapseAssistant(m, turn, mode).parts;
    var exempt := ExemptIds(m.parts);
    if m.parts[k].toolId in exempt {
      var c :| c in Calls(m.parts) && CallIsExempt(c) && c.id == m.parts[k].toolId;
      CallsMember(m.parts, c);
      var j :| 0 <= j < |m.parts| && m.parts[j] == CallPart(c);
      assert out[j] == CallPart(c);
    }
  }

  // ------------------------------------------------- tool messages, stub/digest

  function CollapseResult(r: Result, turn: nat, mode: Mode, exempt: set<string>, names: map<string, string>): Result {
    if r.callId in exempt then r
    else
      var write := r.callId in names && names[r.callId] in WRITE_TOOLS;
      r.(content := CollapsedResultText(mode, turn, r.callId, write), data := "", mimeType := "", isError := false)
  }

  function CollapseToolPart(p: Part, turn: nat, mode: Mode, exempt: set<string>, names: map<string, string>): Part {
    if p.ResultPart? then ResultPart(CollapseResult(p.result, turn, mode, exempt, names)) else p
  }

  function CollapseToolParts(parts: seq<Part>, turn: nat, mode: Mode, exempt: set<string>,
                             names: map<string, string>): (out: seq<Part>)
    ensures |out| == |parts|
    ensures forall k :: 0 <= k < |parts| ==> out[k] == CollapseToolPart(parts[k], turn, mode, exempt, names)
  {
    seq(|parts|, k requires 0 <= k < |parts| => CollapseToolPart(parts[k], turn, mode, exempt, names))
  }

  function CountResultsOutside(parts: seq<Part>, exempt: set<string>): nat {
    if parts == [] then 0
    else
      var last := parts[|parts| - 1];
      CountResultsOutside(parts[..|parts| - 1], exempt)
      + if last.ResultPart? && last.result.callId !in exempt then 1 else 0
  }

  /** Copies the parts only once the first result has to change. */
  method CollapseToolMessageForTurn(m: Message, turn: nat, mode: Mode, exempt: set<string>, names: map<string, string>)
    returns (out: Message, count: nat)
    ensures out == m.(parts := CollapseToolParts(m.parts, turn, mode, exempt, names))
    ensures count == CountResultsOutside(m.parts, exempt)
  {
    var parts: Option<seq<Part>> := None;
    count := 0;
    for i := 0 to |m.parts|
      invariant (if parts.Some? then parts.value else m.parts[..i]) ==
        CollapseToolParts(m.parts[..i], turn, mode, exempt, names)
      invariant count == CountResultsOutside(m.parts[..i], exempt)
    {
      assert m.parts[..i + 1] == m.parts[..i] + [m.parts[i]];
      CollapseToolSnoc(m.parts[..i], m.parts[i], turn, mode, exempt, names);
      var part := m.parts[i];
      if !part.ResultPart? || part.result.callId in exempt {
        if parts.Some? { parts := Some(parts.value + [part]); }
      } else {
        if parts.None? { parts := Some(m.parts[..i]); }
        parts := Some(parts.value + [ResultPart(CollapseResult(part.result, turn, mode, exempt, names))]);
        count := count + 1;
      }
    }
    assert m.parts[..|m.parts|] == m.parts;
    out := if parts.None? then m else m.(parts := parts.value);
  }

  lemma CollapseToolSnoc(front: seq<Part>, p: Part, turn: nat, mode: Mode, exempt: set<string>,
                         names: map<string, string>)
    ensures CollapseToolParts(front + [p], turn, mode, exempt, names) ==
      CollapseToolParts(front, turn, mode, exempt, names) + [CollapseToolPart(p, turn, mode, exempt, names)]
    ensures CountResultsOutside(front + [p], exempt) ==
      CountResultsOutside(front, exempt) + if p.ResultPart? && p.result.callId !in exempt then 1 else 0
  {
    assert (front + [p])[..|front + [p]| - 1] == front;
  }

  // ---------------------------------------------------- superseded-result stubs

  function StubResult(r: Result): Result {
    if r.superseded.Some? && r.superseded.value.applied && !r.isError
    then r.(content := r.superseded.value.stubText)
    else r
  }

  function StubPart(p: Part): Part {
    if p.ResultPart? then ResultPart(StubResult(p.result)) else p
  }

  function StubParts(parts: seq<Part>): (out: seq<Part>)
    ensures |out| == |parts|
    ensures forall k :: 0 <= k < |parts| ==> out[k] == StubPart(parts[k])
  {
    seq(|parts|, k requires 0 <= k < |parts| => StubPart(parts[k]))
  }

  /** Replaces applied superseded results in a copy of the message. */
  method ApplySupersededStubs(m: Message) returns (stubbed: Message)
    ensures stubbed == m.(parts := StubParts(m.parts))
  {
    stubbed := m;
    for i := 0 to |m.parts|
      invariant |stubbed.parts| == |m.parts|
      invariant stubbed == m.(parts := stubbed.parts)
      invariant forall k :: 0 <= k < i ==> stubbed.parts[k] == StubPart(m.parts[k])
      invariant forall k :: i <= k < |m.parts| ==> stubbed.parts[k] == m.parts[k]
    {
      var part := m.parts[i];
      if part.ResultPart? && part.result.superseded.Some? && part.result.superseded.value.applied &&
        !part.result.isError {
        var stub := part.result.(content := part.result.superseded.value.stubText);
        stubbed := stubbed.(parts := stubbed.parts[i := ResultPart(stub)]);
      }
    }
    assert stubbed.parts == StubParts(m.parts);
  }

  // ------------------------------------------------------------------ summarize

  function SummarizePart(p: Part, keep: set<string>): seq<Part> {
    match p
    case Reasoning(_, _, _, toolId, _) =>
      if toolId in keep then [p] else if keep != {} then [StripReasoning(p)] else []
    case CallPart(c) => if c.id in keep then [p] else []
    case _ => [p]
  }

  function SummarizeParts(parts: seq<Part>, keep: set<string>): seq<Part> {
    if parts == [] then []
    else SummarizeParts(parts[..|parts| - 1], keep) + SummarizePart(parts[|parts| - 1], keep)
  }

  function SummarizeAssistant(m: Message): Message {
    m.(parts := SummarizeParts(m.parts, QuestionIds(m.parts)))
  }

  method SummarizeAssistantForTurn(m: Message) returns (out: Message, dropped: nat)
    ensures out == SummarizeAssistant(m)
    ensures dropped == CountCallsOutside(m.parts, QuestionIds(m.parts))
  {
    var keep := CollectIds(m.parts, true);
    var needs := ScanNeeds(m.parts, keep);
    if !needs {
      SummarizeFastPath(m.parts, keep);
      NoRewriteNoCalls(m.parts, keep);
      return m, 0;
    }
    var parts: seq<Part> := [];
    dropped := 0;
    for i := 0 to |m.parts|
      invariant parts == SummarizeParts(m.parts[..i], keep)
      invariant dropped == CountCallsOutside(m.parts[..i], keep)
    {
      assert m.parts[..i + 1][..i] == m.parts[..i];
      var part := m.parts[i];
      match part
      case Reasoning(_, _, _, toolId, _) =>
        if toolId in keep {
          parts := parts + [part];
        } else if keep != {} {
          parts := parts + [StripReasoning(part)];
        }
      case CallPart(c) =>
        if c.id in keep { parts := parts + [part]; } else { dropped := dropped + 1; }
      case _ =>
        parts := parts + [part];
    }
    assert m.parts[..|m.parts|] == m.parts;
    out := m.(parts := parts);
  }

  lemma {:induction false} SummarizeFastPath(parts: seq<Part>, keep: set<string>)
    ensures !NeedsRewrite(parts, keep) ==> SummarizeParts(parts, keep) == parts
  {
    if parts != [] && !NeedsRewrite(parts, keep) {
      var front, last := parts[..|parts| - 1], parts[|parts| - 1];
      assert parts == front + [last];
      assert forall k :: 0 <= k < |front| ==> front[k] == parts[k];
      SummarizeFastPath(front, keep);
      assert !PartNeedsRewrite(last, keep);
    }
  }

  function KeepCalls(calls: seq<Call>, keep: set<string>): seq<Call> {
    if calls == [] then []
    else
      var last := calls[|calls| - 1];
      KeepCalls(calls[..|calls| - 1], keep) + if last.id in keep then [last] else []
  }

  lemma KeepCallsSnoc(calls: seq<Call>, c: Call, keep: set<string>)
    ensures KeepCalls(calls + [c], keep) == KeepCalls(calls, keep) + if c.id in keep then [c] else []
  {
    assert (calls + [c])[..|calls + [c]| - 1] == calls;
  }

  lemma SummarizePartCalls(p: Part, keep: set<string>)
    ensures Calls(SummarizePart(p, keep)) == if p.CallPart? && p.call.id in keep then [p.call] else []
  {
    var out := SummarizePart(p, keep);
    if out != [] { CallsSingle(out[0]); }
  }

  /** Summarize drops calls but never changes one: what is left is exactly the
      stored calls whose ID is kept, in their stored order. */
  lemma {:induction false} SummarizeKeepsCallsUnmutated(parts: seq<Part>, keep: set<string>)
    ensures Calls(SummarizeParts(parts, keep)) == KeepCalls(Calls(parts), keep)
  {
    if parts != [] {
      var front, last := parts[..|parts| - 1], parts[|parts| - 1];
      SummarizeKeepsCallsUnmutated(front, keep);
      CallsConcat(SummarizeParts(front, keep), SummarizePart(last, keep));
      SummarizePartCalls(last, keep);
      if last.CallPart? {
        KeepCallsSnoc(Calls(front), last.call, keep);
      } else {
        assert Calls(parts) == Calls(front);
      }
    }
  }

  lemma {:induction false} KeepCallsMember(calls: seq<Call>, keep: set<string>, c: Call)
    ensures c in KeepCalls(calls, keep) <==> c in calls && c.id in keep
  {
    if calls != [] {
      var front, last := calls[..|calls| - 1], calls[|calls| - 1];
      assert calls == front + [last];
      KeepCallsMember(front, keep, c);
    }
  }

  lemma {:induction false} SummarizeReasoning(parts: seq<Part>, keep: set<string>)
    ensures HasReasoning(SummarizeParts(parts, keep)) ==> HasReasoning(parts)
    ensures keep != {} ==> (HasReasoning(parts) ==> HasReasoning(SummarizeParts(parts, keep)))
    ensures keep == {} ==> !HasReasoning(SummarizeParts(parts, keep))
  {
    if parts != [] {
      var front, last := parts[..|parts| - 1], parts[|parts| - 1];
      assert parts == front + [last];
      SummarizeReasoning(front, keep);
      var before, tail := SummarizeParts(front, keep), SummarizePart(last, keep);
      assert SummarizeParts(parts, keep) == before + tail;
      if HasReasoning(front) {
        var k :| 0 <= k < |front| && front[k].Reasoning?;
        assert parts[k].Reasoning?;
      }
      if HasReasoning(before) {
        var k :| 0 <= k < |before| && before[k].Reasoning?;
        assert (before + tail)[k].Reasoning?;
      }
      if last.Reasoning? {
        assert parts[|parts| - 1].Reasoning?;
        if keep != {} { assert (before + tail)[|before|].Reasoning?; }
      }
      if HasReasoning(parts) && !last.Reasoning? {
        var k :| 0 <= k < |parts| && parts[k].Reasoning?;
        assert front[k].Reasoning?;
      }
    }
  }

  /** A summarized message keeps its reasoning field exactly when it still
      carries a call that a provider would want the field for. */
  lemma SummarizeKeepsReasoningWithCalls(m: Message)
    requires HasReasoning(m.parts)
    ensures HasReasoning(SummarizeAssistant(m).parts) <==> Calls(SummarizeAssistant(m).parts) != []
  {
    var keep := QuestionIds(m.parts);
    SummarizeReasoning(m.parts, keep);
    SummarizeKeepsCallsUnmutated(m.parts, keep);
    if keep != {} {
      var id :| id in keep;
      var c :| c in Calls(m.parts) && c.name == QUESTION_TOOL && c.id == id;
      KeepCallsMember(Calls(m.parts), keep, c);
    } else if KeepCalls(Calls(m.parts), keep) != [] {
      KeepCallsMember(Calls(m.parts), keep, KeepCalls(Calls(m.parts), keep)[0]);
    }
  }

  /** Whether a result stays in a summarized tool message. */
  predicate KeepsResult(p: Part, names: map<string, string>, dropped: set<string>) {
    !p.ResultPart? || (p.result.callId in names && p.result.callId !in dropped)
  }

  function SummarizeToolParts(parts: seq<Part>, names: map<string, string>, dropped: set<string>): seq<Part> {
    if parts == [] then []
    else
      var last := parts[|parts| - 1];
      SummarizeToolParts(parts[..|parts| - 1], names, dropped)
      + if KeepsResult(last, names, dropped) then [last] else []
  }

  method SummarizeToolMessageForTurn(m: Message, names: map<string, string>, dropped: set<string>)
    returns (out: Message, count: nat)
    ensures out == m.(parts := SummarizeToolParts(m.parts, names, dropped))
    ensures count == |m.parts| - |out.parts|
  {
    var parts: Option<seq<Part>> := None;
    count := 0;
    for i := 0 to |m.parts|
      invariant parts.None? ==> m.parts[..i] == SummarizeToolParts(m.parts[..i], names, dropped)
      invariant parts.Some? ==> parts.value == SummarizeToolParts(m.parts[..i], names, dropped)
      invariant count == i - |SummarizeToolParts(m.parts[..i], names, dropped)|
    {
      assert m.parts[..i + 1][..i] == m.parts[..i];
      var part := m.parts[i];
      if KeepsResult(part, names, dropped) {
        if parts.Some? {
          parts := Some(parts.value + [part]);
        } else {
          assert m.parts[..i + 1] == m.parts[..i] + [part];
        }
      } else {
        count := count + 1;
        if parts.None? { parts := Some(m.parts[..i]); }
      }
    }
    assert m.parts[..|m.parts|] == m.parts;
    out := if parts.None? then m else m.(parts := parts.value);
  }
}
