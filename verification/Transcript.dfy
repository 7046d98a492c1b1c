/** The stored transcript: messages, their content parts, and the positional
    turn numbering every other module reads.

    Byte strings are modelled as `string`, so `|s|` stands for the byte length.
    Sequence functions recurse on the last element, which is the order in which
    the loops of the source grow their results. */
module Transcript {
  datatype Option<+T> = None | Some(value: T)

  datatype Role = User | Assistant | System | Tool

  datatype FinishReason = EndTurn | MaxTokens | ToolUse | Canceled | Error | ContentFilter | Unknown

  datatype Call = Call(id: string, name: string, input: string, providerExecuted: bool, finished: bool)

  /** Why a stored result may render as a stub, and the text of that stub. */
  datatype Mark = Mark(applied: bool, stubText: string)

  datatype Result = Result(callId: string, name: string, content: string, data: string, mimeType: string,
                           isError: bool, superseded: Option<Mark>)

  datatype Part =
    | Text(text: string)
    | Reasoning(thinking: string, signature: string, thoughtSignature: string, toolId: string, responsesData: string)
    | CallPart(call: Call)
    | ResultPart(result: Result)
    | FinishPart(reason: FinishReason, note: string)
    | OtherPart(payload: string)

  datatype Message = Message(role: Role, parts: seq<Part>, isSummary: bool)

  // ------------------------------------------------------------------ parts

  function Calls(parts: seq<Part>): (calls: seq<Call>)
  {
    if parts == [] then []
    else
      var last := parts[|parts| - 1];
      Calls(parts[..|parts| - 1]) + if last.CallPart? then [last.call] else []
  }

  function Results(parts: seq<Part>): (results: seq<Result>)
  {
    if parts == [] then []
    else
      var last := parts[|parts| - 1];
      Results(parts[..|parts| - 1]) + if last.ResultPart? then [last.result] else []
  }

  function CallIds(calls: seq<Call>): (ids: seq<string>)
    ensures |ids| == |calls|
    ensures forall k :: 0 <= k < |calls| ==> ids[k] == calls[k].id
  {
    seq(|calls|, k requires 0 <= k < |calls| => calls[k].id)
  }

  /** The first text part of a message, empty when there is none. */
  function FirstText(parts: seq<Part>): string
  {
    if parts == [] then "" else if parts[0].Text? then parts[0].text else FirstText(parts[1..])
  }

  /** The thinking of the first reasoning part, empty when there is none. */
  function FirstThinking(parts: seq<Part>): string
  {
    if parts == [] then "" else if parts[0].Reasoning? then parts[0].thinking else FirstThinking(parts[1..])
  }

  predicate HasReasoning(parts: seq<Part>) {
    exists k :: 0 <= k < |parts| && parts[k].Reasoning?
  }

  lemma CallsMember(parts: seq<Part>, c: Call)
    ensures c in Calls(parts) <==> CallPart(c) in parts
  {
    if parts != [] {
      var front, last := parts[..|parts| - 1], parts[|parts| - 1];
      assert parts == front + [last];
      CallsMember(front, c);
    }
  }

  lemma ResultsMember(parts: seq<Part>, r: Result)
    ensures r in Results(parts) <==> ResultPart(r) in parts
  {
    if parts != [] {
      var front, last := parts[..|parts| - 1], parts[|parts| - 1];
      assert parts == front + [last];
      ResultsMember(front, r);
    }
  }

  lemma {:induction false} CallsConcat(a: seq<Part>, b: seq<Part>)
    ensures Calls(a + b) == Calls(a) + Calls(b)
    ensures Results(a + b) == Results(a) + Results(b)
  {
    if b == [] {
      assert a + b == a;
    } else {
      var front, last := b[..|b| - 1], b[|b| - 1];
      CallsConcat(a, front);
      assert (a + b)[..|a + b| - 1] == a + front;
      assert (a + b)[|a + b| - 1] == last;
    }
  }

  lemma CallsSingle(p: Part)
    ensures Calls([p]) == if p.CallPart? then [p.call] else []
    ensures Results([p]) == if p.ResultPart? then [p.result] else []
  {
    assert [p][..0] == [];
  }

  /** The first text part has words. */
  predicate Speaks(parts: seq<Part>) {
    exists k :: 0 <= k < |parts| && parts[k].Text? && parts[k].text != "" && forall j :: 0 <= j < k ==> !parts[j].Text?
  }

  /** The first reasoning part has thinking. */
  predicate Thinks(parts: seq<Part>) {
    exists k :: 0 <= k < |parts| && parts[k].Reasoning? && parts[k].thinking != "" &&
      forall j :: 0 <= j < k ==> !parts[j].Reasoning?
  }

  /** Some part is a call. */
  predicate Asks(parts: seq<Part>) { exists k :: 0 <= k < |parts| && parts[k].CallPart? }

  lemma {:induction false} SpeaksIff(parts: seq<Part>)
    ensures FirstText(parts) != "" <==> Speaks(parts)
  {
    if parts != [] && !parts[0].Text? {
      var rest := parts[1..];
      SpeaksIff(rest);
      if Speaks(rest) {
        var k :| 0 <= k < |rest| && rest[k].Text? && rest[k].text != "" && forall j :: 0 <= j < k ==> !rest[j].Text?;
        assert parts[k + 1] == rest[k];
      }
      if Speaks(parts) {
        var k :| 0 <= k < |parts| && parts[k].Text? && parts[k].text != "" &&
          forall j :: 0 <= j < k ==> !parts[j].Text?;
        assert rest[k - 1] == parts[k];
      }
    }
  }

  lemma {:induction false} ThinksIff(parts: seq<Part>)
    ensures FirstThinking(parts) != "" <==> Thinks(parts)
  {
    if parts != [] && !parts[0].Reasoning? {
      var rest := parts[1..];
      ThinksIff(rest);
      if Thinks(rest) {
        var k :| 0 <= k < |rest| && rest[k].Reasoning? && rest[k].thinking != "" &&
          forall j :: 0 <= j < k ==> !rest[j].Reasoning?;
        assert parts[k + 1] == rest[k];
      }
      if Thinks(parts) {
        var k :| 0 <= k < |parts| && parts[k].Reasoning? && parts[k].thinking != "" &&
          forall j :: 0 <= j < k ==> !parts[j].Reasoning?;
        assert rest[k - 1] == parts[k];
      }
    }
  }

  lemma AsksIff(parts: seq<Part>)
    ensures Calls(parts) != [] <==> Asks(parts)
  {
    if Calls(parts) != [] { CallsMember(parts, Calls(parts)[0]); }
    if k :| 0 <= k < |parts| && parts[k].CallPart? { CallsMember(parts, parts[k].call); }
  }

  // ------------------------------------------------------------------ turns

  /** The turn of message `i`: how many user messages come after the first
      message and up to `i`. A user message at index 0 opens turn 0. */
  function TurnOf(msgs: seq<Message>, i: nat): (turn: nat)
    requires i < |msgs|
  {
    if i == 0 then 0 else TurnOf(msgs, i - 1) + if msgs[i].role == User then 1 else 0
  }

  method MessageTurns(msgs: seq<Message>) returns (turns: array<nat>)
    ensures fresh(turns)
    ensures turns.Length == |msgs|
    ensures forall i :: 0 <= i < |msgs| ==> turns[i] == TurnOf(msgs, i)
  {
    turns := new nat[|msgs|];
    var turn := 0;
    for i := 0 to |msgs|
      invariant i == 0 ==> turn == 0
      invariant i > 0 ==> turn == TurnOf(msgs, i - 1)
      invariant forall k :: 0 <= k < i ==> turns[k] == TurnOf(msgs, k)
    {
      if i > 0 && msgs[i].role == User {
        turn := turn + 1;
      }
      assert turn == TurnOf(msgs, i);
      turns[i] := turn;
    }
  }

  /** The user messages behind the first message and up to `i`. */
  function PromptsUpTo(msgs: seq<Message>, i: nat): set<nat> {
    set k: nat | 0 < k <= i && k < |msgs| && msgs[k].role == User
  }

  /** The turn of a message is how many prompts opened one. */
  lemma {:induction false} TurnCountsPrompts(msgs: seq<Message>, i: nat)
    requires i < |msgs|
    ensures TurnOf(msgs, i) == |PromptsUpTo(msgs, i)|
  {
    if i == 0 {
      assert PromptsUpTo(msgs, 0) == {};
    } else {
      TurnCountsPrompts(msgs, i - 1);
      assert PromptsUpTo(msgs, i) == PromptsUpTo(msgs, i - 1) + if msgs[i].role == User then {i} else {};
    }
  }

  lemma {:induction false} TurnMonotone(msgs: seq<Message>, i: nat, j: nat)
    requires i <= j < |msgs|
    ensures TurnOf(msgs, i) <= TurnOf(msgs, j)
    decreases j
  {
    if i < j { TurnMonotone(msgs, i, j - 1); }
  }

  /** Appending messages never renumbers a message already stored. */
  lemma {:induction false} TurnStable(msgs: seq<Message>, ext: seq<Message>, i: nat)
    requires i < |msgs|
    ensures TurnOf(msgs + ext, i) == TurnOf(msgs, i)
  {
    if i > 0 { TurnStable(msgs, ext, i - 1); }
  }

  // ------------------------------------------- what a transcript promises

  /** Message `i` is an assistant message that carries a call with this ID. */
  predicate CallAt(msgs: seq<Message>, i: nat, id: string) {
    i < |msgs| && msgs[i].role == Assistant && id in CallIds(Calls(msgs[i].parts))
  }

  /** Message `i` is a tool message that carries a result for this ID. */
  predicate ResultAt(msgs: seq<Message>, i: nat, id: string) {
    i < |msgs| && msgs[i].role == Tool && exists r :: r in Results(msgs[i].parts) && r.callId == id
  }

  predicate Distinct(ids: seq<string>) {
    forall j, k :: 0 <= j < k < |ids| ==> ids[j] != ids[k]
  }

  predicate DistinctAt(msgs: seq<Message>, i: nat) {
    i < |msgs| && msgs[i].role == Assistant ==> Distinct(CallIds(Calls(msgs[i].parts)))
  }

  /** No call ID occurs twice among the assistant messages. */
  ghost predicate UniqueCallIds(msgs: seq<Message>) {
    && (forall i: nat :: DistinctAt(msgs, i))
    && (forall i: nat, j: nat, id: string :: CallAt(msgs, i, id) && CallAt(msgs, j, id) ==> i == j)
  }

  /** A result never precedes the call it answers. */
  ghost predicate ResultsFollowCalls(msgs: seq<Message>) {
    forall i: nat, j: nat, id: string :: CallAt(msgs, i, id) && ResultAt(msgs, j, id) ==> i < j
  }

  predicate PlainAt(msgs: seq<Message>, i: nat) {
    i < |msgs| && msgs[i].role != Tool ==> Results(msgs[i].parts) == []
  }

  /** Only tool messages carry results. */
  ghost predicate ResultsOnlyInToolMessages(msgs: seq<Message>) {
    forall i: nat :: PlainAt(msgs, i)
  }

  /** Every call has a result in some tool message. */
  ghost predicate EveryCallAnswered(msgs: seq<Message>) {
    forall i: nat, id: string :: CallAt(msgs, i, id) ==> exists j: nat :: ResultAt(msgs, j, id)
  }
}
