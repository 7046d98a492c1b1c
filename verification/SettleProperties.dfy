/** What settling and repair write, said of the parts and the calls themselves. */
module SettleProperties {
  import opened Transcript
  import opened Settle

  /** The reply to an unanswered call gives the reason its turn ended: a cancelled or
      failed run first, then what the message's first finish says, and otherwise that the
      turn was abandoned. */
  lemma ReplyGivesTheReason(m: Message)
    ensures TurnEndReason(m, CanceledError) == CANCELED_REPLY && TurnEndReason(m, OtherError) == FAILED_REPLY
    ensures EndsWith(m.parts, MaxTokens) ==> TurnEndReason(m, NoError) == TRUNCATED_REPLY
    ensures EndsWith(m.parts, ContentFilter) ==> TurnEndReason(m, NoError) == REFUSED_REPLY
    ensures !EndsWith(m.parts, MaxTokens) && !EndsWith(m.parts, ContentFilter) ==>
      TurnEndReason(m, NoError) == ABANDONED_REPLY
  {
    FindFinishIff(m.parts, MaxTokens);
    FindFinishIff(m.parts, ContentFilter);
  }

  predicate HasFinish(parts: seq<Part>) { exists k :: 0 <= k < |parts| && parts[k].FinishPart? }

  lemma {:induction false} NoFinish(parts: seq<Part>)
    ensures FindFinish(parts).None? <==> !HasFinish(parts)
    ensures !HasFinish(parts) ==> WithoutFirstFinish(parts) == parts
  {
    if parts != [] {
      assert forall k :: 0 < k < |parts| ==> parts[k] == parts[1..][k - 1];
      NoFinish(parts[1..]);
      if HasFinish(parts[1..]) {
        var k :| 0 <= k < |parts[1..]| && parts[1..][k].FinishPart?;
        assert parts[k + 1].FinishPart?;
      }
      if HasFinish(parts) && !parts[0].FinishPart? {
        var k :| 0 <= k < |parts| && parts[k].FinishPart?;
        assert parts[1..][k - 1].FinishPart?;
      }
    }
  }

  /** The message made a call that nothing answers. */
  predicate LeftACall(m: Message, resolved: set<string>) {
    m.role == Assistant && exists k :: 0 <= k < |m.parts| && m.parts[k].CallPart? && m.parts[k].call.id !in resolved
  }

  lemma OrphansIff(m: Message, resolved: set<string>)
    ensures Orphans(m, resolved) != [] <==> LeftACall(m, resolved)
  {
    if Orphans(m, resolved) != [] {
      var c := Orphans(m, resolved)[0];
      UnansweredMember(Calls(m.parts), resolved, c);
      CallsMember(m.parts, c);
    }
    if LeftACall(m, resolved) {
      var k :| 0 <= k < |m.parts| && m.parts[k].CallPart? && m.parts[k].call.id !in resolved;
      CallsMember(m.parts, m.parts[k].call);
      UnansweredMember(Calls(m.parts), resolved, m.parts[k].call);
    }
  }

  /** Repair rewrites exactly the messages that left a call. Such a message keeps every
      part in place, changed at most in a call, and has a finish: its own, or an error
      finish behind everything else that says it was interrupted. */
  lemma RepairFinishesTheMessage(m: Message, resolved: set<string>)
    ensures var out := RepairMessage(m, resolved);
      && (!LeftACall(m, resolved) ==> out == m)
      && (LeftACall(m, resolved) ==>
            && |out.parts| == |m.parts| + (if HasFinish(m.parts) then 0 else 1)
            && (forall k :: 0 <= k < |m.parts| ==>
                 if m.parts[k].CallPart? then out.parts[k].CallPart? && out.parts[k].call.id == m.parts[k].call.id
                 else out.parts[k] == m.parts[k])
            && (!HasFinish(m.parts) ==> out.parts[|m.parts|] == FinishPart(FinishReason.Error, "Interrupted")))
  {
    var orphans := Orphans(m, resolved);
    OrphansIff(m, resolved);
    NoFinish(m.parts);
    if orphans != [] {
      var parts := if HasFinish(m.parts) then m.parts else m.parts + [FinishPart(FinishReason.Error, "Interrupted")];
      AddFinishKeeps(m.parts, FinishReason.Error, INTERRUPTED_TURN);
      forall c | c in orphans ensures c in Calls(parts) { UnansweredMember(Calls(m.parts), resolved, c); }
      MarkFinishedParts(parts, orphans);
      forall k | 0 <= k < |parts| && !parts[k].CallPart? ensures SettledPart(parts, orphans, k) == parts[k] {
        LaterPartIsLeft(parts, orphans, k);
      }
      forall k | 0 <= k < |parts| ensures parts[k].CallPart? ==>
          SettledPart(parts, orphans, k).CallPart? && SettledPart(parts, orphans, k).call.id == parts[k].call.id
      {
        SettledPartKeepsId(parts, orphans, k);
      }
    }
  }

  function Rewritten(msgs: seq<Message>, resolved: set<string>): set<nat> {
    set i: nat | i < |msgs| && LeftACall(msgs[i], resolved)
  }

  lemma RewrittenSnoc(msgs: seq<Message>, resolved: set<string>)
    requires msgs != []
    ensures var n := |msgs| - 1;
      |Rewritten(msgs, resolved)| == |Rewritten(msgs[..n], resolved)| + if LeftACall(msgs[n], resolved) then 1 else 0
  {
    var n := |msgs| - 1;
    var before := Rewritten(msgs[..n], resolved);
    assert n !in before;
    assert Rewritten(msgs, resolved) == if LeftACall(msgs[n], resolved) then before + {n} else before;
  }

  /** Repair needs one store write for each message it rewrites and one for each reply it
      appends. */
  lemma {:induction false} RepairWritesEachOnce(msgs: seq<Message>, resolved: set<string>)
    ensures RepairWrites(msgs, resolved) == |Rewritten(msgs, resolved)| + |RepairReplies(msgs, resolved)|
  {
    if msgs == [] {
      assert Rewritten(msgs, resolved) == {};
    } else {
      var n := |msgs| - 1;
      RepairWritesEachOnce(msgs[..n], resolved);
      OrphansIff(msgs[n], resolved);
      RewrittenSnoc(msgs, resolved);
    }
  }
}
