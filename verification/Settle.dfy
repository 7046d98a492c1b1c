/** Settling: every tool call ends up with a reply, either the one stored for it
    or one the harness writes because nothing ever will answer it. */
module Settle {
  import opened Transcript

  const CANCELED_REPLY := "Error: user cancelled assistant tool calling"
  const FAILED_REPLY := "There was an error while executing the tool"
  const TRUNCATED_REPLY := "the model ran out of output tokens before it finished writing this tool call"
  const REFUSED_REPLY := "the provider's safety classifier stopped this response before the tool call was finished"
  const ABANDONED_REPLY := "the turn ended before the model finished writing this tool call"
  const INTERRUPTED_REPLY := "tool call was interrupted and did not produce a result"
  const INTERRUPTED_TURN := "Interrupted"

  // ------------------------------------------------ the tool message of a render

  /** One result part of a provider tool message. */
  datatype Reply = Stored(result: Result) | Synthetic(callId: string) {
    function Id(): string { if Stored? then result.callId else callId }
  }

  type Pool = map<string, seq<Result>>

  function AsReplies(results: seq<Result>): (replies: seq<Reply>)
    ensures |replies| == |results|
    ensures forall k :: 0 <= k < |results| ==> replies[k] == Stored(results[k])
  {
    seq(|results|, k requires 0 <= k < |results| => Stored(results[k]))
  }

  function IdSet(calls: seq<Call>): set<string> {
    set c | c in calls :: c.id
  }

  /** What one call is answered with, given the IDs already answered. */
  function Group(id: string, pool: Pool, used: set<string>): (group: seq<Reply>)
    ensures group != []
  {
    if id in pool && id !in used && pool[id] != [] then AsReplies(pool[id]) else [Synthetic(id)]
  }

  function Replies(calls: seq<Call>, pool: Pool, used: set<string>): seq<Reply> {
    if calls == [] then []
    else
      var front := calls[..|calls| - 1];
      Replies(front, pool, used) + Group(calls[|calls| - 1].id, pool, used + IdSet(front))
  }

  method ToolResultsForCalls(calls: seq<Call>, byCall: Pool) returns (content: seq<Reply>, rest: Pool)
    ensures content == Replies(calls, byCall, {})
    ensures rest == byCall - IdSet(calls)
  {
    content, rest := [], byCall;
    for i := 0 to |calls|
      invariant content == Replies(calls[..i], byCall, {})
      invariant rest == byCall - IdSet(calls[..i])
    {
      var id := calls[i].id;
      RepliesSnoc(calls, i, byCall);
      var parts := if id in rest then rest[id] else [];
      rest := rest - {id};
      if |parts| > 0 {
        content := content + AsReplies(parts);
      } else {
        content := content + [Synthetic(id)];
      }
    }
    assert calls[..|calls|] == calls;
  }

  lemma RepliesSnoc(calls: seq<Call>, i: nat, pool: Pool)
    requires i < |calls|
    ensures Replies(calls[..i + 1], pool, {}) ==
      Replies(calls[..i], pool, {}) + Group(calls[i].id, pool, IdSet(calls[..i]))
    ensures pool - IdSet(calls[..i + 1]) == pool - IdSet(calls[..i]) - {calls[i].id}
  {
    assert calls[..i + 1][..i] == calls[..i];
    assert calls[..i + 1] == calls[..i] + [calls[i]];
    assert {} + IdSet(calls[..i]) == IdSet(calls[..i]);
    assert IdSet(calls[..i + 1]) == IdSet(calls[..i]) + {calls[i].id};
  }

  /** Consuming the pool as it is read is the same as remembering what was read. */
  lemma {:induction false} RepliesFromRest(calls: seq<Call>, pool: Pool, used: set<string>, more: set<string>)
    ensures Replies(calls, pool - used, more) == Replies(calls, pool, used + more)
  {
    if calls != [] {
      var front := calls[..|calls| - 1];
      RepliesFromRest(front, pool, used, more);
      assert used + more + IdSet(front) == used + (more + IdSet(front));
    }
  }

  /** The replies come in call order, in one non-empty run per call, and every
      reply of a run names that call: at least one result for each call and none
      for any other. */
  ghost predicate AnswersInOrder(calls: seq<Call>, replies: seq<Reply>)
    decreases |calls|
  {
    if calls == [] then replies == []
    else
      var front, id := calls[..|calls| - 1], calls[|calls| - 1].id;
      exists n: nat :: EndsInRun(replies, n, id) && AnswersInOrder(front, replies[..|replies| - n])
  }

  /** The last `n` replies, at least one, all name this call. */
  ghost predicate EndsInRun(replies: seq<Reply>, n: nat, id: string) {
    && 0 < n <= |replies|
    && forall k :: |replies| - n <= k < |replies| ==> replies[k].Id() == id
  }

  predicate Keyed(pool: Pool) {
    forall id, k :: id in pool && 0 <= k < |pool[id]| ==> pool[id][k].callId == id
  }

  lemma {:induction false} RepliesAnswer(calls: seq<Call>, pool: Pool, used: set<string>)
    requires Keyed(pool)
    ensures AnswersInOrder(calls, Replies(calls, pool, used))
  {
    if calls != [] {
      var front, id := calls[..|calls| - 1], calls[|calls| - 1].id;
      RepliesAnswer(front, pool, used);
      var replies, group := Replies(calls, pool, used), Group(id, pool, used + IdSet(front));
      RunAtEnd(Replies(front, pool, used), group, id);
      assert EndsInRun(replies, |group|, id);
    }
  }

  lemma RunAtEnd(before: seq<Reply>, group: seq<Reply>, id: string)
    requires group != [] && forall k :: 0 <= k < |group| ==> group[k].Id() == id
    ensures EndsInRun(before + group, |group|, id)
    ensures (before + group)[..|before + group| - |group|] == before
  {
  }

  lemma {:induction false} EachCallAnswered(calls: seq<Call>, replies: seq<Reply>, c: Call)
    requires AnswersInOrder(calls, replies) && c in calls
    ensures exists k :: 0 <= k < |replies| && replies[k].Id() == c.id
  {
    var front, last := calls[..|calls| - 1], calls[|calls| - 1];
    assert calls == front + [last];
    var n: nat :| EndsInRun(replies, n, last.id) && AnswersInOrder(front, replies[..|replies| - n]);
    if c in front {
      EachCallAnswered(front, replies[..|replies| - n], c);
      var k :| 0 <= k < |replies| - n && replies[..|replies| - n][k].Id() == c.id;
      assert replies[k].Id() == c.id;
    } else {
      assert replies[|replies| - 1].Id() == c.id;
    }
  }

  lemma {:induction false} EachReplyAsked(calls: seq<Call>, replies: seq<Reply>, k: nat)
    requires AnswersInOrder(calls, replies) && k < |replies|
    ensures exists c :: c in calls && c.id == replies[k].Id()
  {
    var front, last := calls[..|calls| - 1], calls[|calls| - 1];
    assert calls == front + [last];
    var n: nat :| EndsInRun(replies, n, last.id) && AnswersInOrder(front, replies[..|replies| - n]);
    if k < |replies| - n {
      EachReplyAsked(front, replies[..|replies| - n], k);
      var c :| c in front && c.id == replies[k].Id();
      assert c in calls;
    } else {
      assert last in calls;
    }
  }

  // ------------------------------------------------------------ ending a turn

  datatype RunError = NoError | CanceledError | OtherError

  function FindFinish(parts: seq<Part>): Option<FinishReason> {
    if parts == [] then None else if parts[0].FinishPart? then Some(parts[0].reason) else FindFinish(parts[1..])
  }

  /** The first finish part of a message gives this reason. */
  predicate EndsWith(parts: seq<Part>, reason: FinishReason) {
    exists k :: 0 <= k < |parts| && parts[k].FinishPart? && parts[k].reason == reason &&
      forall j :: 0 <= j < k ==> !parts[j].FinishPart?
  }

  lemma {:induction false} FindFinishIff(parts: seq<Part>, reason: FinishReason)
    ensures FindFinish(parts) == Some(reason) <==> EndsWith(parts, reason)
  {
    if parts != [] && !parts[0].FinishPart? {
      var rest := parts[1..];
      FindFinishIff(rest, reason);
      if EndsWith(rest, reason) {
        var k :| 0 <= k < |rest| && rest[k].FinishPart? && rest[k].reason == reason &&
          forall j :: 0 <= j < k ==> !rest[j].FinishPart?;
        assert parts[k + 1] == rest[k];
      }
      if EndsWith(parts, reason) {
        var k :| 0 <= k < |parts| && parts[k].FinishPart? && parts[k].reason == reason &&
          forall j :: 0 <= j < k ==> !parts[j].FinishPart?;
        assert rest[k - 1] == parts[k];
      }
    }
  }

  function TurnEndReason(assistant: Message, err: RunError): string {
    match err
    case CanceledError => CANCELED_REPLY
    case OtherError => FAILED_REPLY
    case NoError =>
      match FindFinish(assistant.parts)
      case Some(MaxTokens) => TRUNCATED_REPLY
      case Some(ContentFilter) => REFUSED_REPLY
      case _ => ABANDONED_REPLY
  }

  /** Replaces the first call part with this ID, or appends the call. */
  function AddToolCall(parts: seq<Part>, c: Call): seq<Part> {
    if parts == [] then [CallPart(c)]
    else if parts[0].CallPart? && parts[0].call.id == c.id then [CallPart(c)] + parts[1..]
    else [parts[0]] + AddToolCall(parts[1..], c)
  }

  function MarkFinished(parts: seq<Part>, calls: seq<Call>): seq<Part> {
    if calls == [] then parts
    else
      var before, last := MarkFinished(parts, calls[..|calls| - 1]), calls[|calls| - 1];
      if last.finished then before else AddToolCall(before, last.(finished := true))
  }

  function SettledReply(c: Call, reason: string): Message {
    Message(Tool, [ResultPart(Result(c.id, c.name, reason, "", "", true, None))], false)
  }

  function SettledReplies(calls: seq<Call>, reason: string): (replies: seq<Message>)
    ensures |replies| == |calls|
    ensures forall k :: 0 <= k < |calls| ==> replies[k] == SettledReply(calls[k], reason)
  {
    seq(|calls|, k requires 0 <= k < |calls| => SettledReply(calls[k], reason))
  }

  /** Store writes one settling needs: the assistant update and one reply a call. */
  function WritesFor(calls: seq<Call>): nat {
    if calls == [] then 0 else 1 + |calls|
  }

  /** `writes` is how many store writes succeed before the store fails. */
  method SettleToolCalls(assistant: Message, calls: seq<Call>, reason: string, writes: nat)
    returns (updated: Message, settled: Option<seq<Message>>, left: nat)
    ensures updated == assistant.(parts := MarkFinished(assistant.parts, calls))
    ensures settled.Some? <==> writes >= WritesFor(calls)
    ensures settled.Some? ==> settled.value == SettledReplies(calls, reason) && left == writes - WritesFor(calls)
  {
    updated, left := assistant, writes;
    if calls == [] { return updated, Some([]), left; }
    for i := 0 to |calls|
      invariant updated == assistant.(parts := MarkFinished(assistant.parts, calls[..i]))
    {
      assert calls[..i + 1][..i] == calls[..i];
      if !calls[i].finished {
        updated := updated.(parts := AddToolCall(updated.parts, calls[i].(finished := true)));
      }
    }
    assert calls[..|calls|] == calls;
    if left == 0 { return updated, None, 0; }
    left := left - 1;
    var created: seq<Message> := [];
    for i := 0 to |calls|
      invariant created == SettledReplies(calls, reason)[..i]
      invariant left == writes - 1 - i
    {
      if left == 0 { return updated, None, 0; }
      left := left - 1;
      created := created + [SettledReply(calls[i], reason)];
    }
    settled := Some(created);
  }

  function Unanswered(calls: seq<Call>, answered: set<string>): seq<Call> {
    if calls == [] then []
    else
      var last := calls[|calls| - 1];
      Unanswered(calls[..|calls| - 1], answered) + if last.id in answered then [] else [last]
  }

  lemma {:induction false} UnansweredMember(calls: seq<Call>, answered: set<string>, c: Call)
    ensures c in Unanswered(calls, answered) <==> c in calls && c.id !in answered
  {
    if calls != [] {
      var front, last := calls[..|calls| - 1], calls[|calls| - 1];
      assert calls == front + [last];
      UnansweredMember(front, answered, c);
    }
  }

  method CollectUnanswered(calls: seq<Call>, answered: set<string>) returns (open: seq<Call>)
    ensures open == Unanswered(calls, answered)
  {
    open := [];
    for i := 0 to |calls|
      invariant open == Unanswered(calls[..i], answered)
    {
      assert calls[..i + 1][..i] == calls[..i];
      if calls[i].id !in answered { open := open + [calls[i]]; }
    }
    assert calls[..|calls|] == calls;
  }

  /** After a turn ends no call of its last assistant message is left without a
      reply, whatever ended the turn, unless the store refuses the writes. */
  method SettleTurn(assistant: Message, answered: set<string>, err: RunError, writes: nat)
    returns (updated: Message, settled: Option<seq<Message>>)
    ensures var open := Unanswered(Calls(assistant.parts), answered);
      && updated == assistant.(parts := MarkFinished(assistant.parts, open))
      && (settled.Some? <==> writes >= WritesFor(open))
      && (settled.Some? ==> settled.value == SettledReplies(open, TurnEndReason(assistant, err)))
    ensures settled.Some? ==>
      forall c :: c in Calls(assistant.parts) ==>
        c.id in answered || SettledReply(c, TurnEndReason(assistant, err)) in settled.value
    ensures settled.Some? ==>
      forall m :: m in settled.value ==>
        exists c :: c in Calls(assistant.parts) && c.id !in answered &&
          m == SettledReply(c, TurnEndReason(assistant, err))
  {
    var calls := Calls(assistant.parts);
    var open := CollectUnanswered(calls, answered);
    var left;
    updated, settled, left := SettleToolCalls(assistant, open, TurnEndReason(assistant, err), writes);
    UnansweredAreSettled(calls, answered, TurnEndReason(assistant, err));
  }

  lemma SettledMember(calls: seq<Call>, reason: string, c: Call)
    requires c in calls
    ensures SettledReply(c, reason) in SettledReplies(calls, reason)
  {
    var j :| 0 <= j < |calls| && calls[j] == c;
    assert SettledReplies(calls, reason)[j] == SettledReply(c, reason);
  }

  lemma UnansweredAreSettled(calls: seq<Call>, answered: set<string>, reason: string)
    ensures var replies := SettledReplies(Unanswered(calls, answered), reason);
      && (forall c :: c in calls ==> c.id in answered || SettledReply(c, reason) in replies)
      && (forall m :: m in replies ==> exists c :: c in calls && c.id !in answered && m == SettledReply(c, reason))
  {
    var open := Unanswered(calls, answered);
    forall c ensures c in open <==> c in calls && c.id !in answered { UnansweredMember(calls, answered, c); }
    forall c | c in calls && c.id !in answered ensures SettledReply(c, reason) in SettledReplies(open, reason) {
      SettledMember(open, reason, c);
    }
  }

  // ---------------------------------------------------------------- the repair

  function ResolvedIds(msgs: seq<Message>): set<string> {
    set i, r | 0 <= i < |msgs| && r in Results(msgs[i].parts) :: r.callId
  }

  function WithoutFirstFinish(parts: seq<Part>): seq<Part> {
    if parts == [] then []
    else if parts[0].FinishPart? then parts[1..]
    else [parts[0]] + WithoutFirstFinish(parts[1..])
  }

  function AddFinish(parts: seq<Part>, reason: FinishReason, note: string): seq<Part> {
    WithoutFirstFinish(parts) + [FinishPart(reason, note)]
  }

  function Orphans(m: Message, resolved: set<string>): seq<Call> {
    if m.role == Assistant then Unanswered(Calls(m.parts), resolved) else []
  }

  function RepairMessage(m: Message, resolved: set<string>): Message {
    var orphans := Orphans(m, resolved);
    if orphans == [] then m
    else
      var parts := if FindFinish(m.parts).Some? then m.parts
                   else AddFinish(m.parts, FinishReason.Error, INTERRUPTED_TURN);
      m.(parts := MarkFinished(parts, orphans))
  }

  function RepairedPrefix(msgs: seq<Message>, resolved: set<string>): (out: seq<Message>)
    ensures |out| == |msgs|
    ensures forall i :: 0 <= i < |msgs| ==> out[i] == RepairMessage(msgs[i], resolved)
  {
    seq(|msgs|, i requires 0 <= i < |msgs| => RepairMessage(msgs[i], resolved))
  }

  function RepairReplies(msgs: seq<Message>, resolved: set<string>): seq<Message> {
    if msgs == [] then []
    else
      RepairReplies(msgs[..|msgs| - 1], resolved)
      + SettledReplies(Orphans(msgs[|msgs| - 1], resolved), INTERRUPTED_REPLY)
  }

  function RepairWrites(msgs: seq<Message>, resolved: set<string>): nat {
    if msgs == [] then 0
    else RepairWrites(msgs[..|msgs| - 1], resolved) + WritesFor(Orphans(msgs[|msgs| - 1], resolved))
  }

  function Repair(msgs: seq<Message>): seq<Message> {
    RepairedPrefix(msgs, ResolvedIds(msgs)) + RepairReplies(msgs, ResolvedIds(msgs))
  }

  method CollectResolved(msgs: seq<Message>) returns (resolved: set<string>)
    ensures resolved == ResolvedIds(msgs)
  {
    resolved := {};
    for i := 0 to |msgs|
      invariant resolved == ResolvedIds(msgs[..i])
    {
      var results := Results(msgs[i].parts);
      ResolvedIdsSnoc(msgs, i);
      resolved := resolved + set r | r in results :: r.callId;
    }
    assert msgs[..|msgs|] == msgs;
  }

  method RepairOne(msg: Message, resolved: set<string>, writes: nat)
    returns (updated: Message, settled: Option<seq<Message>>, left: nat)
    ensures settled.Some? <==> writes >= WritesFor(Orphans(msg, resolved))
    ensures settled.Some? ==>
      && updated == RepairMessage(msg, resolved)
      && settled.value == SettledReplies(Orphans(msg, resolved), INTERRUPTED_REPLY)
      && left == writes - WritesFor(Orphans(msg, resolved))
  {
    if msg.role != Assistant { return msg, Some([]), writes; }
    var orphans := CollectUnanswered(Calls(msg.parts), resolved);
    if orphans == [] { return msg, Some([]), writes; }
    updated := msg;
    if FindFinish(msg.parts).None? {
      updated := msg.(parts := AddFinish(msg.parts, FinishReason.Error, INTERRUPTED_TURN));
    }
    updated, settled, left := SettleToolCalls(updated, orphans, INTERRUPTED_REPLY, writes);
  }

  /** Settles the calls a dead process left without a reply, in place, and
      returns the transcript with the replies appended. */
  method RepairInterruptedToolCalls(msgs: array<Message>, writes: nat) returns (repaired: Option<seq<Message>>)
    modifies msgs
    ensures repaired.Some? <==> writes >= RepairWrites(old(msgs[..]), ResolvedIds(old(msgs[..])))
    ensures repaired.Some? ==> repaired.value == Repair(old(msgs[..]))
  {
    ghost var was := msgs[..];
    var resolved := CollectResolved(msgs[..]);
    var replies: seq<Message> := [];
    var left: nat := writes;
    ghost var done: seq<Message> := [];
    for i := 0 to msgs.Length
      invariant forall k :: i <= k < msgs.Length ==> msgs[k] == was[k]
      invariant |done| == i && msgs[..i] == done
      invariant left <= writes && RepairedSoFar(was, resolved, done, replies, writes - left)
    {
      SoFarWrites(was, resolved, i);
      var updated, settled, rest := RepairOne(msgs[i], resolved, left);
      msgs[i] := updated;
      if settled.None? { return None; }
      SoFarStep(was, resolved, done, replies, writes - left);
      done := done + [updated];
      assert msgs[..i + 1] == msgs[..i] + [updated];
      left := rest;
      replies := replies + settled.value;
    }
    assert was[..msgs.Length] == was && msgs[..msgs.Length] == msgs[..];
    repaired := Some(msgs[..] + replies);
  }

  /** What a repair has done once the messages in `done` are behind it. */
  predicate RepairedSoFar(was: seq<Message>, resolved: set<string>, done: seq<Message>, replies: seq<Message>,
                          spent: nat)
  {
    && |done| <= |was|
    && done == RepairedPrefix(was[..|done|], resolved)
    && replies == RepairReplies(was[..|done|], resolved)
    && spent == RepairWrites(was[..|done|], resolved)
  }

  lemma SoFarStep(was: seq<Message>, resolved: set<string>, done: seq<Message>, replies: seq<Message>, spent: nat)
    requires RepairedSoFar(was, resolved, done, replies, spent) && |done| < |was|
    ensures var m := was[|done|];
      RepairedSoFar(was, resolved, done + [RepairMessage(m, resolved)],
                    replies + SettledReplies(Orphans(m, resolved), INTERRUPTED_REPLY),
                    spent + WritesFor(Orphans(m, resolved)))
  {
    var i := |done|;
    var next := done + [RepairMessage(was[i], resolved)];
    assert |next| == i + 1;
    RepairSnoc(was, i, resolved);
    assert next == RepairedPrefix(was[..i + 1], resolved);
  }

  /** The writes of one more message are within the writes of all. */
  lemma SoFarWrites(was: seq<Message>, resolved: set<string>, i: nat)
    requires i < |was|
    ensures RepairWrites(was[..i], resolved) + WritesFor(Orphans(was[i], resolved)) <= RepairWrites(was, resolved)
  {
    RepairSnoc(was, i, resolved);
    RepairWritesMonotone(was, i + 1, resolved);
  }

  lemma RepairSnoc(msgs: seq<Message>, i: nat, resolved: set<string>)
    requires i < |msgs|
    ensures RepairedPrefix(msgs[..i + 1], resolved) ==
      RepairedPrefix(msgs[..i], resolved) + [RepairMessage(msgs[i], resolved)]
    ensures RepairReplies(msgs[..i + 1], resolved) ==
      RepairReplies(msgs[..i], resolved) + SettledReplies(Orphans(msgs[i], resolved), INTERRUPTED_REPLY)
    ensures RepairWrites(msgs[..i + 1], resolved) ==
      RepairWrites(msgs[..i], resolved) + WritesFor(Orphans(msgs[i], resolved))
  {
    assert msgs[..i + 1][..i] == msgs[..i];
  }

  lemma ResolvedIdsSnoc(msgs: seq<Message>, i: nat)
    requires i < |msgs|
    ensures ResolvedIds(msgs[..i + 1]) == ResolvedIds(msgs[..i]) + set r | r in Results(msgs[i].parts) :: r.callId
  {
    assert msgs[..i + 1] == msgs[..i] + [msgs[i]];
  }

  lemma {:induction false} RepairWritesMonotone(msgs: seq<Message>, n: nat, resolved: set<string>)
    requires n <= |msgs|
    ensures RepairWrites(msgs[..n], resolved) <= RepairWrites(msgs, resolved)
    decreases |msgs| - n
  {
    if n < |msgs| {
      RepairWritesMonotone(msgs, n + 1, resolved);
      assert msgs[..n + 1][..n] == msgs[..n];
    } else {
      assert msgs[..n] == msgs;
    }
  }

  // ------------------------------------------------------ what repair promises

  /** Part `k` is the first call part under its ID. */
  predicate FirstUnderId(parts: seq<Part>, k: nat) {
    && k < |parts| && parts[k].CallPart?
    && forall j :: 0 <= j < k && parts[j].CallPart? ==> parts[j].call.id != parts[k].call.id
  }

  /** When the call is there, adding it overwrites the first part with its ID. */
  lemma {:induction false} AddToolCallOverwrites(parts: seq<Part>, c: Call) returns (i: nat)
    requires exists k :: 0 <= k < |parts| && parts[k].CallPart? && parts[k].call.id == c.id
    ensures FirstUnderId(parts, i) && parts[i].call.id == c.id
    ensures AddToolCall(parts, c) == parts[i := CallPart(c)]
  {
    if parts[0].CallPart? && parts[0].call.id == c.id {
      i := 0;
    } else {
      var k :| 0 <= k < |parts| && parts[k].CallPart? && parts[k].call.id == c.id;
      assert parts[1..][k - 1] == parts[k];
      var j := AddToolCallOverwrites(parts[1..], c);
      i := j + 1;
    }
  }

  lemma AddToolCallIds(parts: seq<Part>, c: Call)
    requires c.id in CallIds(Calls(parts))
    ensures CallIds(Calls(AddToolCall(parts, c))) == CallIds(Calls(parts))
    ensures Results(AddToolCall(parts, c)) == Results(parts)
  {
    var k :| 0 <= k < |Calls(parts)| && CallIds(Calls(parts))[k] == c.id;
    CallsMember(parts, Calls(parts)[k]);
    var i := AddToolCallOverwrites(parts, c);
    OverwriteKeepsIds(parts, i, c);
  }

  lemma OverwriteKeepsIds(parts: seq<Part>, i: nat, c: Call)
    requires i < |parts| && parts[i].CallPart? && parts[i].call.id == c.id
    ensures CallIds(Calls(parts[i := CallPart(c)])) == CallIds(Calls(parts))
    ensures Results(parts[i := CallPart(c)]) == Results(parts)
  {
    var out := parts[i := CallPart(c)];
    SplitAt(parts, i);
    SplitAt(out, i);
    assert out[..i] == parts[..i] && out[i + 1..] == parts[i + 1..];
    var a, b := Calls(parts[..i]), Calls(parts[i + 1..]);
    assert Calls(out) == a + [c] + b && Calls(parts) == a + [parts[i].call] + b;
  }

  lemma SplitAt(parts: seq<Part>, i: nat)
    requires i < |parts|
    ensures Calls(parts) ==
      Calls(parts[..i]) + (if parts[i].CallPart? then [parts[i].call] else []) + Calls(parts[i + 1..])
    ensures Results(parts) ==
      Results(parts[..i]) + (if parts[i].ResultPart? then [parts[i].result] else []) + Results(parts[i + 1..])
  {
    SplitSeq(parts, i);
    SplitAround(parts, parts[..i], parts[i], parts[i + 1..]);
  }

  lemma SplitSeq<T>(s: seq<T>, i: nat)
    requires i < |s|
    ensures s == s[..i] + [s[i]] + s[i + 1..]
  {
  }

  lemma SplitAround(whole: seq<Part>, a: seq<Part>, p: Part, b: seq<Part>)
    requires whole == a + [p] + b
    ensures Calls(whole) == Calls(a) + (if p.CallPart? then [p.call] else []) + Calls(b)
    ensures Results(whole) == Results(a) + (if p.ResultPart? then [p.result] else []) + Results(b)
  {
    CallsConcat(a + [p], b);
    CallsConcat(a, [p]);
    CallsSingle(p);
  }

  lemma {:induction false} MarkFinishedIds(parts: seq<Part>, calls: seq<Call>)
    requires forall c :: c in calls ==> c.id in CallIds(Calls(parts))
    ensures CallIds(Calls(MarkFinished(parts, calls))) == CallIds(Calls(parts))
    ensures Results(MarkFinished(parts, calls)) == Results(parts)
  {
    if calls != [] {
      var front, last := calls[..|calls| - 1], calls[|calls| - 1];
      MarkFinishedIds(parts, front);
      var before := MarkFinished(parts, front);
      assert last.id in CallIds(Calls(before));
      var k :| 0 <= k < |Calls(before)| && CallIds(Calls(before))[k] == last.id;
      assert Calls(before)[k] in Calls(before);
      AddToolCallIds(before, last.(finished := true));
    }
  }

  lemma {:induction false} WithoutFinishKeeps(parts: seq<Part>)
    ensures Calls(WithoutFirstFinish(parts)) == Calls(parts)
    ensures Results(WithoutFirstFinish(parts)) == Results(parts)
  {
    if parts != [] {
      assert parts == [parts[0]] + parts[1..];
      CallsConcat([parts[0]], parts[1..]);
      CallsSingle(parts[0]);
      if !parts[0].FinishPart? {
        WithoutFinishKeeps(parts[1..]);
        CallsConcat([parts[0]], WithoutFirstFinish(parts[1..]));
      }
    }
  }

  lemma AddFinishKeeps(parts: seq<Part>, reason: FinishReason, note: string)
    ensures Calls(AddFinish(parts, reason, note)) == Calls(parts)
    ensures Results(AddFinish(parts, reason, note)) == Results(parts)
  {
    WithoutFinishKeeps(parts);
    CallsConcat(WithoutFirstFinish(parts), [FinishPart(reason, note)]);
    CallsSingle(FinishPart(reason, note));
  }

  /** Repairing a message renames, adds or drops no call and touches no result. */
  lemma RepairMessageKeeps(m: Message, resolved: set<string>)
    ensures RepairMessage(m, resolved).role == m.role
    ensures CallIds(Calls(RepairMessage(m, resolved).parts)) == CallIds(Calls(m.parts))
    ensures Results(RepairMessage(m, resolved).parts) == Results(m.parts)
  {
    var orphans := Orphans(m, resolved);
    if orphans != [] {
      AddFinishKeeps(m.parts, FinishReason.Error, INTERRUPTED_TURN);
      forall c | c in orphans ensures c.id in CallIds(Calls(m.parts)) {
        UnansweredMember(Calls(m.parts), resolved, c);
        var k :| 0 <= k < |Calls(m.parts)| && Calls(m.parts)[k] == c;
        assert CallIds(Calls(m.parts))[k] == c.id;
      }
      var parts := if FindFinish(m.parts).Some? then m.parts
                   else AddFinish(m.parts, FinishReason.Error, INTERRUPTED_TURN);
      assert Calls(parts) == Calls(m.parts);
      MarkFinishedIds(parts, orphans);
    }
  }

  /** Message `i` left a call without a reply, and this is the one it gets. */
  ghost predicate Owes(msgs: seq<Message>, resolved: set<string>, i: nat, c: Call) {
    i < |msgs| && c in Orphans(msgs[i], resolved)
  }

  lemma InEither(x: Message, a: seq<Message>, b: seq<Message>)
    requires x in a || x in b
    ensures x in a + b
  {
  }

  lemma {:induction false} OwedReplyUpTo(msgs: seq<Message>, n: nat, resolved: set<string>, i: nat, x: Message)
    requires i < n <= |msgs| && x in SettledReplies(Orphans(msgs[i], resolved), INTERRUPTED_REPLY)
    ensures x in RepairReplies(msgs[..n], resolved)
  {
    var before, group := RepairReplies(msgs[..n - 1], resolved),
      SettledReplies(Orphans(msgs[n - 1], resolved), INTERRUPTED_REPLY);
    if i < n - 1 { OwedReplyUpTo(msgs, n - 1, resolved, i, x); }
    InEither(x, before, group);
    RepairSnoc(msgs, n - 1, resolved);
  }

  /** Each owed reply is appended, and nothing else is. */
  lemma OwedReplyIsAppended(msgs: seq<Message>, resolved: set<string>, i: nat, c: Call)
    requires Owes(msgs, resolved, i, c)
    ensures SettledReply(c, INTERRUPTED_REPLY) in RepairReplies(msgs, resolved)
  {
    SettledMember(Orphans(msgs[i], resolved), INTERRUPTED_REPLY, c);
    OwedReplyUpTo(msgs, |msgs|, resolved, i, SettledReply(c, INTERRUPTED_REPLY));
    assert msgs[..|msgs|] == msgs;
  }

  lemma {:induction false} AppendedReplyIsOwed(msgs: seq<Message>, resolved: set<string>, k: nat)
    returns (i: nat, c: Call)
    requires k < |RepairReplies(msgs, resolved)|
    ensures Owes(msgs, resolved, i, c) && RepairReplies(msgs, resolved)[k] == SettledReply(c, INTERRUPTED_REPLY)
  {
    var n := |msgs| - 1;
    var before := RepairReplies(msgs[..n], resolved);
    if k < |before| {
      i, c := AppendedReplyIsOwed(msgs[..n], resolved, k);
    } else {
      i, c := n, Orphans(msgs[n], resolved)[k - |before|];
      assert RepairReplies(msgs, resolved)[k] ==
        SettledReplies(Orphans(msgs[n], resolved), INTERRUPTED_REPLY)[k - |before|];
    }
  }

  lemma RepairResolved(msgs: seq<Message>, i: nat, c: Call)
    requires i < |msgs| && msgs[i].role == Assistant && c in Calls(msgs[i].parts) && c.id !in ResolvedIds(msgs)
    ensures exists j: nat :: |msgs| <= j < |Repair(msgs)| && Repair(msgs)[j] == SettledReply(c, INTERRUPTED_REPLY)
  {
    var resolved := ResolvedIds(msgs);
    UnansweredMember(Calls(msgs[i].parts), resolved, c);
    assert Owes(msgs, resolved, i, c);
    OwedReplyIsAppended(msgs, resolved, i, c);
    var replies := RepairReplies(msgs, resolved);
    var k :| 0 <= k < |replies| && replies[k] == SettledReply(c, INTERRUPTED_REPLY);
    RepairTail(msgs, k);
    assert Repair(msgs)[|msgs| + k] == SettledReply(c, INTERRUPTED_REPLY);
  }

  lemma RepairTail(msgs: seq<Message>, k: nat)
    requires k < |RepairReplies(msgs, ResolvedIds(msgs))|
    ensures |msgs| + k < |Repair(msgs)| && Repair(msgs)[|msgs| + k] == RepairReplies(msgs, ResolvedIds(msgs))[k]
  {
  }

  /** What a message of the repaired transcript is: a stored message with the
      same role, call IDs and results, or one appended interrupted reply. */
  lemma RepairAt(msgs: seq<Message>, j: nat)
    requires j < |Repair(msgs)|
    ensures j < |msgs| ==>
      && Repair(msgs)[j].role == msgs[j].role
      && CallIds(Calls(Repair(msgs)[j].parts)) == CallIds(Calls(msgs[j].parts))
      && Results(Repair(msgs)[j].parts) == Results(msgs[j].parts)
    ensures j >= |msgs| ==>
      exists i: nat, c ::
        && i < |msgs| && msgs[i].role == Assistant && c in Calls(msgs[i].parts) && c.id !in ResolvedIds(msgs)
        && Repair(msgs)[j] == SettledReply(c, INTERRUPTED_REPLY)
  {
    var resolved := ResolvedIds(msgs);
    if j < |msgs| {
      RepairMessageKeeps(msgs[j], resolved);
    } else {
      var i, c := AppendedReplyIsOwed(msgs, resolved, j - |msgs|);
      UnansweredMember(Calls(msgs[i].parts), resolved, c);
    }
  }

  lemma SettledReplyShape(c: Call, reason: string)
    ensures Calls(SettledReply(c, reason).parts) == []
    ensures Results(SettledReply(c, reason).parts) == [Result(c.id, c.name, reason, "", "", true, None)]
  {
    CallsSingle(SettledReply(c, reason).parts[0]);
  }

  /** Every call of the repaired transcript has a reply. */
  lemma RepairAnswersEveryCall(msgs: seq<Message>, i: nat, c: Call)
    requires i < |Repair(msgs)| && Repair(msgs)[i].role == Assistant && c in Calls(Repair(msgs)[i].parts)
    ensures c.id in ResolvedIds(Repair(msgs))
  {
    var out := Repair(msgs);
    RepairAt(msgs, i);
    if i >= |msgs| { assert false; }
    var k :| 0 <= k < |Calls(out[i].parts)| && Calls(out[i].parts)[k] == c;
    assert CallIds(Calls(msgs[i].parts))[k] == c.id;
    var stored := Calls(msgs[i].parts)[k];
    if c.id in ResolvedIds(msgs) {
      var j, r :| 0 <= j < |msgs| && r in Results(msgs[j].parts) && r.callId == c.id;
      RepairAt(msgs, j);
      assert r in Results(out[j].parts);
    } else {
      RepairResolved(msgs, i, stored);
      var j: nat :| |msgs| <= j < |out| && out[j] == SettledReply(stored, INTERRUPTED_REPLY);
      SettledReplyShape(stored, INTERRUPTED_REPLY);
      assert Results(out[j].parts)[0].callId == c.id;
    }
  }

  lemma {:induction false} NoOrphansNoRepair(msgs: seq<Message>, resolved: set<string>)
    requires forall i :: 0 <= i < |msgs| ==> Orphans(msgs[i], resolved) == []
    ensures RepairReplies(msgs, resolved) == []
    ensures RepairedPrefix(msgs, resolved) == msgs
  {
    if msgs != [] { NoOrphansNoRepair(msgs[..|msgs| - 1], resolved); }
  }

  /** A second repair finds nothing to do, and needs no store write. */
  lemma RepairIdempotent(msgs: seq<Message>)
    ensures Repair(Repair(msgs)) == Repair(msgs)
    ensures RepairWrites(Repair(msgs), ResolvedIds(Repair(msgs))) == 0
  {
    var out := Repair(msgs);
    var resolved := ResolvedIds(out);
    forall i | 0 <= i < |out| ensures Orphans(out[i], resolved) == [] {
      if Orphans(out[i], resolved) != [] {
        var c := Orphans(out[i], resolved)[0];
        UnansweredMember(Calls(out[i].parts), resolved, c);
        RepairAnswersEveryCall(msgs, i, c);
        assert false;
      }
    }
    NoOrphansNoRepair(out, resolved);
    NoWrites(out, resolved);
  }

  lemma {:induction false} NoWrites(msgs: seq<Message>, resolved: set<string>)
    requires forall i :: 0 <= i < |msgs| ==> Orphans(msgs[i], resolved) == []
    ensures RepairWrites(msgs, resolved) == 0
  {
    if msgs != [] { NoWrites(msgs[..|msgs| - 1], resolved); }
  }

  lemma RepairedCallAt(msgs: seq<Message>, i: nat, id: string)
    requires CallAt(Repair(msgs), i, id)
    ensures CallAt(msgs, i, id)
  {
    RepairAt(msgs, i);
  }

  lemma RepairKeepsUnique(msgs: seq<Message>)
    requires UniqueCallIds(msgs)
    ensures UniqueCallIds(Repair(msgs))
  {
    var out := Repair(msgs);
    forall i: nat ensures DistinctAt(out, i) {
      if i < |out| {
        RepairAt(msgs, i);
        assert DistinctAt(msgs, i);
      }
    }
    forall i: nat, j: nat, id: string | CallAt(out, i, id) && CallAt(out, j, id) ensures i == j {
      RepairedCallAt(msgs, i, id);
      RepairedCallAt(msgs, j, id);
    }
  }

  lemma RepairKeepsOrder(msgs: seq<Message>)
    requires ResultsFollowCalls(msgs)
    ensures ResultsFollowCalls(Repair(msgs))
  {
    var out := Repair(msgs);
    forall i: nat, j: nat, id: string | CallAt(out, i, id) && ResultAt(out, j, id) ensures i < j {
      RepairedCallAt(msgs, i, id);
      if j < |msgs| {
        RepairAt(msgs, j);
        assert ResultAt(msgs, j, id);
      }
    }
  }

  /** Repair keeps unique call IDs, keeps results behind their calls, and puts no
      result anywhere but in a tool message. */
  lemma RepairKeepsShape(msgs: seq<Message>)
    requires UniqueCallIds(msgs) && ResultsFollowCalls(msgs)
    ensures UniqueCallIds(Repair(msgs)) && ResultsFollowCalls(Repair(msgs))
    ensures ResultsOnlyInToolMessages(msgs) ==> ResultsOnlyInToolMessages(Repair(msgs))
  {
    RepairKeepsUnique(msgs);
    RepairKeepsOrder(msgs);
    if ResultsOnlyInToolMessages(msgs) {
      forall i: nat ensures PlainAt(Repair(msgs), i) { RepairedPlainAt(msgs, i); }
    }
  }

  lemma RepairedPlainAt(msgs: seq<Message>, i: nat)
    requires PlainAt(msgs, i)
    ensures PlainAt(Repair(msgs), i)
  {
    if i < |Repair(msgs)| { RepairAt(msgs, i); }
  }

  /** A call that has a result anywhere has one in a tool message. */
  ghost predicate AnsweredWhereRead(msgs: seq<Message>) {
    forall i: nat, id: string :: CallAt(msgs, i, id) && id in ResolvedIds(msgs) ==>
      exists j: nat :: ResultAt(msgs, j, id)
  }

  /** Repair leaves every call answered in a place the renderer looks exactly when no
      call's only results sit outside tool messages. */
  lemma RepairAnswersInToolMessagesIff(msgs: seq<Message>)
    ensures EveryCallAnswered(Repair(msgs)) <==> AnsweredWhereRead(msgs)
  {
    if EveryCallAnswered(Repair(msgs)) {
      forall i: nat, id: string | CallAt(msgs, i, id) && id in ResolvedIds(msgs)
        ensures exists j: nat :: ResultAt(msgs, j, id)
      {
        StoredCallAt(msgs, i, id);
        var j: nat :| ResultAt(Repair(msgs), j, id);
        ReadResultIsStored(msgs, j, id);
      }
    }
    if AnsweredWhereRead(msgs) {
      forall i: nat, id: string | CallAt(Repair(msgs), i, id) ensures exists j: nat :: ResultAt(Repair(msgs), j, id) {
        RepairedCallAt(msgs, i, id);
        RepairedAnswer(msgs, i, id);
      }
    }
  }

  lemma StoredCallAt(msgs: seq<Message>, i: nat, id: string)
    requires CallAt(msgs, i, id)
    ensures CallAt(Repair(msgs), i, id)
  {
    RepairAt(msgs, i);
  }

  lemma StoredResultAt(msgs: seq<Message>, j: nat, id: string)
    requires ResultAt(msgs, j, id)
    ensures ResultAt(Repair(msgs), j, id)
  {
    RepairAt(msgs, j);
  }

  /** A result the renderer finds for a call that was resolved before repair was
      there before repair. */
  lemma ReadResultIsStored(msgs: seq<Message>, j: nat, id: string)
    requires ResultAt(Repair(msgs), j, id) && id in ResolvedIds(msgs)
    ensures ResultAt(msgs, j, id)
  {
    RepairAt(msgs, j);
    if j >= |msgs| {
      var i: nat, c: Call :| i < |msgs| && c.id !in ResolvedIds(msgs) &&
        Repair(msgs)[j] == SettledReply(c, INTERRUPTED_REPLY);
      SettledReplyShape(c, INTERRUPTED_REPLY);
      assert false;
    }
  }

  /** One call: its stored tool result, or the reply repair appends for it. */
  lemma RepairedAnswer(msgs: seq<Message>, i: nat, id: string)
    requires CallAt(msgs, i, id) && (id in ResolvedIds(msgs) ==> exists j: nat :: ResultAt(msgs, j, id))
    ensures exists j: nat :: ResultAt(Repair(msgs), j, id)
  {
    if id in ResolvedIds(msgs) {
      var j: nat :| ResultAt(msgs, j, id);
      StoredResultAt(msgs, j, id);
    } else {
      var k :| 0 <= k < |Calls(msgs[i].parts)| && CallIds(Calls(msgs[i].parts))[k] == id;
      var c := Calls(msgs[i].parts)[k];
      RepairResolved(msgs, i, c);
      var j: nat :| |msgs| <= j < |Repair(msgs)| && Repair(msgs)[j] == SettledReply(c, INTERRUPTED_REPLY);
      SettledReplyShape(c, INTERRUPTED_REPLY);
      assert Results(Repair(msgs)[j].parts)[0].callId == id;
      assert ResultAt(Repair(msgs), j, id);
    }
  }

  /** In particular when results sit only in tool messages, as every writer of a
      result stores them. */
  lemma ToolRoleMeansAnswered(msgs: seq<Message>)
    requires ResultsOnlyInToolMessages(msgs)
    ensures AnsweredWhereRead(msgs)
  {
    forall i: nat, id: string | CallAt(msgs, i, id) && id in ResolvedIds(msgs)
      ensures exists j: nat :: ResultAt(msgs, j, id)
    {
      var j, r :| 0 <= j < |msgs| && r in Results(msgs[j].parts) && r.callId == id;
      assert PlainAt(msgs, j);
      assert ResultAt(msgs, j, id);
    }
  }

  // ------------------------------------- what repair leaves alone, and when

  function Finished(p: Part, calls: seq<Call>): Part {
    if p.CallPart? && p.call in calls then CallPart(p.call.(finished := true)) else p
  }

  /** No unfinished call to settle stands behind another call part with its ID. */
  predicate SettlesFirsts(parts: seq<Part>, calls: seq<Call>) {
    forall k :: 0 <= k < |parts| && parts[k].CallPart? && parts[k].call in calls && !parts[k].call.finished ==>
      FirstUnderId(parts, k)
  }

  /** The part settling leaves at `k`: the last unfinished settled call under the ID
      of a first part is written there, and no other part is ever touched. */
  function SettledPart(parts: seq<Part>, calls: seq<Call>, k: nat): Part
    requires k < |parts|
  {
    if calls == [] then parts[k]
    else
      var last := calls[|calls| - 1];
      if FirstUnderId(parts, k) && parts[k].call.id == last.id && !last.finished then CallPart(last.(finished := true))
      else SettledPart(parts, calls[..|calls| - 1], k)
  }

  lemma SettledPartKeepsId(parts: seq<Part>, calls: seq<Call>, k: nat)
    requires k < |parts|
    ensures SettledPart(parts, calls, k).CallPart? == parts[k].CallPart?
    ensures parts[k].CallPart? ==> SettledPart(parts, calls, k).call.id == parts[k].call.id
  {
  }

  lemma {:induction false} MarkFinishedParts(parts: seq<Part>, calls: seq<Call>)
    requires forall c :: c in calls ==> c in Calls(parts)
    ensures |MarkFinished(parts, calls)| == |parts|
    ensures forall k :: 0 <= k < |parts| ==> MarkFinished(parts, calls)[k] == SettledPart(parts, calls, k)
  {
    if calls != [] {
      var front, last := calls[..|calls| - 1], calls[|calls| - 1];
      assert calls == front + [last];
      MarkFinishedParts(parts, front);
      var before := MarkFinished(parts, front);
      forall k | 0 <= k < |parts|
        ensures
          && before[k].CallPart? == parts[k].CallPart?
          && (parts[k].CallPart? ==> before[k].call.id == parts[k].call.id)
      {
        SettledPartKeepsId(parts, front, k);
      }
      if !last.finished {
        CallsMember(parts, last);
        var at :| 0 <= at < |parts| && parts[at] == CallPart(last);
        assert before[at].CallPart? && before[at].call.id == last.id;
        var i := AddToolCallOverwrites(before, last.(finished := true));
        assert FirstUnderId(parts, i);
      }
    }
  }

  lemma {:induction false} SettledIsFinished(parts: seq<Part>, calls: seq<Call>, k: nat)
    requires k < |parts| && SettlesFirsts(parts, calls)
    requires forall c :: c in calls ==> c in Calls(parts)
    ensures SettledPart(parts, calls, k) == Finished(parts[k], calls)
  {
    if calls != [] {
      var front, last := calls[..|calls| - 1], calls[|calls| - 1];
      assert calls == front + [last];
      SettledIsFinished(parts, front, k);
      if !last.finished {
        CallsMember(parts, last);
        var at :| 0 <= at < |parts| && parts[at] == CallPart(last);
        assert FirstUnderId(parts, at);
        if FirstUnderId(parts, k) && parts[k].call.id == last.id { assert k == at; }
      }
    }
  }

  lemma {:induction false} LaterPartIsLeft(parts: seq<Part>, calls: seq<Call>, k: nat)
    requires k < |parts| && !FirstUnderId(parts, k)
    ensures SettledPart(parts, calls, k) == parts[k]
  {
    if calls != [] { LaterPartIsLeft(parts, calls[..|calls| - 1], k); }
  }

  /** Settling sets the finished flag of the settled calls and changes no other part
      exactly when none of the unfinished ones stands behind another call part with
      its ID. */
  lemma MarkFinishedExactIff(parts: seq<Part>, calls: seq<Call>)
    requires forall c :: c in calls ==> c in Calls(parts)
    ensures |MarkFinished(parts, calls)| == |parts|
    ensures (forall k :: 0 <= k < |parts| ==> MarkFinished(parts, calls)[k] == Finished(parts[k], calls)) <==>
      SettlesFirsts(parts, calls)
  {
    MarkFinishedParts(parts, calls);
    if SettlesFirsts(parts, calls) {
      forall k | 0 <= k < |parts| ensures MarkFinished(parts, calls)[k] == Finished(parts[k], calls) {
        SettledIsFinished(parts, calls, k);
      }
    } else {
      var k :| 0 <= k < |parts| && parts[k].CallPart? && parts[k].call in calls && !parts[k].call.finished &&
        !FirstUnderId(parts, k);
      LaterPartIsLeft(parts, calls, k);
      assert MarkFinished(parts, calls)[k] != Finished(parts[k], calls);
    }
  }

  predicate EachFirst(parts: seq<Part>) {
    forall k :: 0 <= k < |parts| && parts[k].CallPart? ==> FirstUnderId(parts, k)
  }

  /** Adding a call by ID never makes a second part under one ID, so the parts of a
      message that grows this way meet the condition, whatever is settled. */
  lemma {:induction false} AddedCallsAreFirst(parts: seq<Part>, c: Call, calls: seq<Call>)
    requires EachFirst(parts)
    ensures EachFirst(AddToolCall(parts, c)) && SettlesFirsts(AddToolCall(parts, c), calls)
  {
    var out := AddToolCall(parts, c);
    if k :| 0 <= k < |parts| && parts[k].CallPart? && parts[k].call.id == c.id {
      var i := AddToolCallOverwrites(parts, c);
      forall k | 0 <= k < |out| && out[k].CallPart? ensures FirstUnderId(out, k) { assert FirstUnderId(parts, k); }
    } else {
      AddToolCallAppends(parts, c);
      forall k | 0 <= k < |out| && out[k].CallPart? ensures FirstUnderId(out, k) {
        if k < |parts| { assert FirstUnderId(parts, k); }
      }
    }
  }

  lemma {:induction false} AddToolCallAppends(parts: seq<Part>, c: Call)
    requires forall k :: 0 <= k < |parts| && parts[k].CallPart? ==> parts[k].call.id != c.id
    ensures AddToolCall(parts, c) == parts + [CallPart(c)]
  {
    if parts != [] {
      assert forall k :: 0 <= k < |parts[1..]| ==> parts[1..][k] == parts[k + 1];
      AddToolCallAppends(parts[1..], c);
      assert parts == [parts[0]] + parts[1..];
    }
  }
}
