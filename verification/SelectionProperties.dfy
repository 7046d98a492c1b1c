/** What a selection of notes promises. */
module SelectionProperties {
  import opened Selection

  // ------------------------------------------------------------ the token cap

  /** What a note takes of the cap: its counted tokens, or, uncounted, a token for each
      four characters begun; and one for the separator. */
  function Price(e: Note): nat {
    1 + if e.tokenCount > 0 then e.tokenCount else if e.textLength % 4 == 0 then e.textLength / 4
        else e.textLength / 4 + 1
  }

  lemma PriceIsTokens(e: Note)
    ensures Price(e) == Tokens(e) + 1
  {
  }

  function Cost(notes: seq<Note>): nat {
    if notes == [] then 0 else Cost(notes[..|notes| - 1]) + Price(notes[|notes| - 1])
  }

  predicate DistinctIds(notes: seq<Note>) {
    forall j, k :: 0 <= j < k < |notes| ==> notes[j].id != notes[k].id
  }

  /** The bookkeeping of a selection matches what it has chosen. */
  ghost predicate Sound(p: Picked) {
    && p.used == Cost(p.chosen) <= MAX_TOKENS
    && DistinctIds(p.chosen)
    && (forall id :: id in p.seen <==> exists k :: 0 <= k < |p.chosen| && p.chosen[k].id == id)
  }

  lemma TryKeepsSound(p: Picked, e: Note)
    requires Sound(p)
    ensures Sound(Try(p, e))
  {
    var q := Try(p, e);
    if q != p {
      assert q.chosen[..|q.chosen| - 1] == p.chosen;
      forall id ensures id in q.seen <==> exists k :: 0 <= k < |q.chosen| && q.chosen[k].id == id {
        if id in p.seen {
          var k :| 0 <= k < |p.chosen| && p.chosen[k].id == id;
          assert q.chosen[k].id == id;
        }
        if id == e.id { assert q.chosen[|p.chosen|].id == id; }
      }
    }
  }

  lemma {:induction false} TryAllSound(p: Picked, visits: seq<Note>)
    requires Sound(p)
    ensures Sound(TryAll(p, visits))
  {
    if visits != [] {
      TryAllSound(p, visits[..|visits| - 1]);
      TryKeepsSound(TryAll(p, visits[..|visits| - 1]), visits[|visits| - 1]);
    }
  }

  lemma {:induction false} TryAllGrows(p: Picked, visits: seq<Note>)
    ensures p.seen <= TryAll(p, visits).seen && p.used <= TryAll(p, visits).used
  {
    if visits != [] { TryAllGrows(p, visits[..|visits| - 1]); }
  }

  /** A visited note is in, or an equal ID is, or it does not fit even at the end. */
  lemma {:induction false} VisitedIsTried(p: Picked, visits: seq<Note>, e: Note)
    requires e in visits
    ensures e.id in TryAll(p, visits).seen || !Fits(TryAll(p, visits), e)
  {
    var front, last := visits[..|visits| - 1], visits[|visits| - 1];
    assert visits == front + [last];
    if e in front { VisitedIsTried(p, front, e); }
  }

  lemma {:induction false} NewestFirstMember(p: Pass, notes: seq<Note>, floors: Floors, e: Note)
    ensures e in NewestFirst(p, notes, floors) <==> e in notes && Takes(p, e, floors)
  {
    if notes != [] {
      assert notes == [notes[0]] + notes[1..];
      NewestFirstMember(p, notes[1..], floors, e);
    }
  }

  /** The fill passes between them visit every note. */
  lemma EveryNoteIsVisited(notes: seq<Note>, floors: Floors, e: Note)
    requires e in notes
    ensures e in Visits(notes, floors)
  {
    NewestFirstMember(BandLive, notes, floors, e);
    NewestFirstMember(OldLive, notes, floors, e);
    NewestFirstMember(BandDead, notes, floors, e);
    NewestFirstMember(OldDead, notes, floors, e);
    SortCounts(ByRank, NewestFirst(OldLive, notes, floors), e);
    SortCounts(ByRank, NewestFirst(OldDead, notes, floors), e);
    assert e in Fill(notes, floors);
  }

  /** Before demotion the selection fits the cap, repeats no ID, and is maximal: a
      note whose ID is missing would not fit any more. */
  lemma SelectionFillsTheBudget(notes: seq<Note>, floors: Floors)
    ensures var p := Chosen(notes, floors);
      && Cost(p.chosen) <= 12000
      && DistinctIds(p.chosen)
      && forall e :: e in notes ==>
           (exists k :: 0 <= k < |p.chosen| && p.chosen[k].id == e.id) || Cost(p.chosen) + Price(e) > 12000
  {
    var p := Chosen(notes, floors);
    TryAllSound(Picked({}, 0, []), Visits(notes, floors));
    forall e | e in notes
      ensures (exists k :: 0 <= k < |p.chosen| && p.chosen[k].id == e.id) || Cost(p.chosen) + Price(e) > 12000
    {
      EveryNoteIsVisited(notes, floors, e);
      VisitedIsTried(Picked({}, 0, []), Visits(notes, floors), e);
    }
  }

  /** Priority: a note is left out only if everything chosen in front of its first
      visit, and nothing visited later, already filled the budget. */
  lemma EarlierVisitsWin(notes: seq<Note>, floors: Floors, k: nat)
    requires k < |Visits(notes, floors)|
    ensures var visits := Visits(notes, floors);
      var before, e := TryAll(Picked({}, 0, []), visits[..k]), visits[k];
      e.id !in Chosen(notes, floors).seen ==> Cost(before.chosen) + Price(e) > MAX_TOKENS
  {
    TryAllSound(Picked({}, 0, []), Visits(notes, floors)[..k]);
    VisitDecides(Picked({}, 0, []), Visits(notes, floors), k);
  }

  /** A visit takes its note unless the budget is short right then. */
  lemma VisitDecides(p: Picked, visits: seq<Note>, k: nat)
    requires k < |visits|
    ensures visits[k].id in TryAll(p, visits).seen || !Fits(TryAll(p, visits[..k]), visits[k])
  {
    var upTo, rest := visits[..k + 1], visits[k + 1..];
    assert upTo[..k] == visits[..k] && upTo[k] == visits[k];
    TryConcat(p, upTo, rest);
    assert upTo + rest == visits;
    TryAllGrows(TryAll(p, upTo), rest);
  }

  // ------------------------------------------------------------------ demotion

  lemma {:induction false} DigestedMember(notes: seq<Note>, eligible: set<int>, turn: int)
    ensures turn in Digested(notes, eligible) <==> exists e :: e in notes && e.turn == turn && IsDigest(e, eligible)
  {
    if notes != [] {
      var front, last := notes[..|notes| - 1], notes[|notes| - 1];
      assert notes == front + [last];
      DigestedMember(front, eligible, turn);
    }
  }

  lemma {:induction false} UndemotedMember(notes: seq<Note>, digested: set<int>, e: Note)
    ensures e in Undemoted(notes, digested) <==> e in notes && !Demoted(e, digested)
  {
    if notes != [] {
      assert notes == notes[..|notes| - 1] + [notes[|notes| - 1]];
      UndemotedMember(notes[..|notes| - 1], digested, e);
    }
  }

  lemma {:induction false} KeptMember(notes: seq<Note>, newest: map<string, Stamp>, e: Note)
    ensures e in Kept(notes, newest) <==> e in notes && !Drops(newest, e)
  {
    if notes != [] {
      assert notes == notes[..|notes| - 1] + [notes[|notes| - 1]];
      KeptMember(notes[..|notes| - 1], newest, e);
    }
  }

  /** What is carried is what was chosen, less the demoted and the superseded, in
      chronological order. */
  lemma SelectedIsChosen(notes: seq<Note>, floors: Floors, eligible: set<int>, e: Note)
    ensures var chosen := Chosen(notes, floors).chosen;
      var left := Undemoted(chosen, Digested(chosen, eligible));
      e in Selected(notes, floors, eligible) <==>
        e in chosen && !Demoted(e, Digested(chosen, eligible)) && !Drops(NewestFor(left), e)
    ensures var selected := Selected(notes, floors, eligible);
      forall j, k :: 0 <= j < k < |selected| ==>
        selected[j].turn < selected[k].turn ||
        (selected[j].turn == selected[k].turn && selected[j].event <= selected[k].event)
  {
    var chosen := Chosen(notes, floors).chosen;
    var left := Undemoted(chosen, Digested(chosen, eligible));
    UndemotedMember(chosen, Digested(chosen, eligible), e);
    KeptMember(left, NewestFor(left), e);
    SortCounts(ByTime, WithoutSuperseded(left), e);
    SortIsInOrder(ByTime, WithoutSuperseded(left));
    var selected := Selected(notes, floors, eligible);
    forall j, k | 0 <= j < k < |selected|
      ensures selected[j].turn < selected[k].turn ||
        (selected[j].turn == selected[k].turn && selected[j].event <= selected[k].event)
    {
      assert !Precedes(ByTime, selected[k], selected[j]);
    }
  }

  /** A turn digest of this turn that is eligible and has content. */
  predicate StandsInFor(d: Note, turn: int, eligible: set<int>) {
    d.turn == turn && turn in eligible && d.eventType == Checkpoint && d.turnGrain && !d.tagsOnly
  }

  /** A chosen note is demoted exactly if it is no checkpoint and a chosen turn digest of
      its turn, eligible and with content, stands in for it. */
  lemma DemotedIff(notes: seq<Note>, floors: Floors, eligible: set<int>, e: Note)
    ensures var chosen := Chosen(notes, floors).chosen;
      e in Undemoted(chosen, Digested(chosen, eligible)) <==>
        e in chosen && (e.eventType == Checkpoint || forall d :: d in chosen ==> !StandsInFor(d, e.turn, eligible))
  {
    var chosen := Chosen(notes, floors).chosen;
    UndemotedMember(chosen, Digested(chosen, eligible), e);
    DigestedMember(chosen, eligible, e.turn);
    forall d ensures StandsInFor(d, e.turn, eligible) <==> d.turn == e.turn && IsDigest(d, eligible) {}
  }

  /** A note is demoted only behind a digest of its own turn that has content and is
      itself carried. */
  lemma DemotedBehindACarriedDigest(notes: seq<Note>, floors: Floors, eligible: set<int>, e: Note)
    returns (digest: Note)
    requires var chosen := Chosen(notes, floors).chosen; e in chosen && Demoted(e, Digested(chosen, eligible))
    ensures digest in Selected(notes, floors, eligible)
    ensures digest.turn == e.turn && IsDigest(digest, eligible)
  {
    var chosen := Chosen(notes, floors).chosen;
    DigestedMember(chosen, eligible, e.turn);
    digest :| digest in chosen && digest.turn == e.turn && IsDigest(digest, eligible);
    SelectedIsChosen(notes, floors, eligible, digest);
  }

  // ---------------------------------------------------------- superseded reads

  /** A newer successful note that is no checkpoint shares a file tag with `e`. */
  ghost predicate HasSuperseder(notes: seq<Note>, e: Note, tag: string) {
    exists s :: s in notes && s.succeeded && s.eventType != Checkpoint && tag in s.files &&
      (s.turn > e.turn || (s.turn == e.turn && s.event > e.event))
  }

  /** No successful note that is no checkpoint carries the tag. */
  predicate Unseen(notes: seq<Note>, tag: string) {
    forall k :: 0 <= k < |notes| && notes[k].succeeded && notes[k].eventType != Checkpoint ==> tag !in notes[k].files
  }

  lemma {:induction false} AddTagsMember(newest: map<string, Stamp>, files: seq<string>, at: Stamp, tag: string)
    ensures tag in AddTags(newest, files, at) <==> tag in newest || tag in files
    ensures tag in AddTags(newest, files, at) ==>
      AddTags(newest, files, at)[tag] ==
        if tag in newest && (tag !in files || !Newer(at, newest[tag])) then newest[tag] else at
  {
    if files != [] {
      assert files == files[..|files| - 1] + [files[|files| - 1]];
      AddTagsMember(newest, files[..|files| - 1], at, tag);
    }
  }

  /** The newest stamp of a tag is one of a note that carries it, and none is newer. */
  lemma {:induction false} NewestIsMaximal(notes: seq<Note>, tag: string)
    ensures tag in NewestFor(notes) <==> !Unseen(notes, tag)
    ensures tag in NewestFor(notes) ==>
      && (exists s :: s in notes && Supersedes(s) && tag in s.files && At(s) == NewestFor(notes)[tag])
      && (forall s :: s in notes && Supersedes(s) && tag in s.files ==> !Newer(At(s), NewestFor(notes)[tag]))
  {
    if notes != [] {
      var front, last := notes[..|notes| - 1], notes[|notes| - 1];
      assert notes == front + [last];
      NewestIsMaximal(front, tag);
      UnseenSnoc(front, last, tag);
      if Supersedes(last) { AddTagsMember(NewestFor(front), last.files, At(last), tag); }
    }
  }

  lemma UnseenSnoc(front: seq<Note>, last: Note, tag: string)
    ensures Unseen(front + [last], tag) <==> Unseen(front, tag) && !(Supersedes(last) && tag in last.files)
  {
    var all := front + [last];
    if Unseen(all, tag) {
      forall k | 0 <= k < |front| && Supersedes(front[k]) ensures tag !in front[k].files { assert all[k] == front[k]; }
      assert all[|front|] == last;
    }
  }

  lemma LookupIsNewer(notes: seq<Note>, e: Note, tag: string)
    ensures Newer(Lookup(NewestFor(notes), tag), At(e)) <==>
      HasSuperseder(notes, e, tag) || (Unseen(notes, tag) && Newer(Stamp(0, 0), At(e)))
  {
    NewestIsMaximal(notes, tag);
    if HasSuperseder(notes, e, tag) {
      var s :| s in notes && Supersedes(s) && tag in s.files && Newer(At(s), At(e));
      var k :| 0 <= k < |notes| && notes[k] == s;
      assert !Unseen(notes, tag);
    }
  }

  ghost predicate Superseded(notes: seq<Note>, e: Note) {
    exists k :: 0 <= k < |e.files| && HasSuperseder(notes, e, e.files[k])
  }

  /** A read older than every turn with a tag nothing successful carries. */
  predicate Stranded(notes: seq<Note>, e: Note) {
    (e.turn < 0 || (e.turn == 0 && e.event < 0)) && exists k :: 0 <= k < |e.files| && Unseen(notes, e.files[k])
  }

  lemma DropsExactly(notes: seq<Note>, e: Note)
    ensures Drops(NewestFor(notes), e) <==> e.eventType == FileRead && (Superseded(notes, e) || Stranded(notes, e))
  {
    forall k | 0 <= k < |e.files|
      ensures Newer(Lookup(NewestFor(notes), e.files[k]), At(e)) <==>
        HasSuperseder(notes, e, e.files[k]) || (Unseen(notes, e.files[k]) && Newer(Stamp(0, 0), At(e)))
    {
      LookupIsNewer(notes, e, e.files[k]);
    }
  }

  /** The filter keeps its promise, to drop a read exactly when a newer successful
      note that is no checkpoint shares one of its file tags, for every note that is
      not a superseder-less read stamped before turn 0. */
  lemma DropsPromisedIff(notes: seq<Note>, e: Note)
    requires e in notes
    ensures (e in WithoutSuperseded(notes) <==> !(e.eventType == FileRead && Superseded(notes, e))) <==>
            !(e.eventType == FileRead && Stranded(notes, e) && !Superseded(notes, e))
  {
    KeptMember(notes, NewestFor(notes), e);
    DropsExactly(notes, e);
  }

  /** Only a read that failed can be stranded. */
  lemma StrandedReadsFailed(notes: seq<Note>, e: Note)
    requires e in notes && e.eventType == FileRead && Stranded(notes, e)
    ensures !e.succeeded && (e.turn < 0 || (e.turn == 0 && e.event < 0))
  {
    var k :| 0 <= k < |e.files| && Unseen(notes, e.files[k]);
    UnseenMember(notes, e.files[k]);
    assert e.files[k] in e.files;
  }

  function Read(turn: int, event: int, files: seq<string>, succeeded: bool): Note {
    Note("r", turn, 0, event, FileRead, false, false, files, 1, 0, succeeded, false, false, false, false, false, false)
  }

  /** The exception is not idle: a failed read of turn -1, which no run stores, goes
      although nothing supersedes it. */
  lemma StrandedReadIsDropped()
    ensures var e := Read(-1, 0, ["file:a"], false); WithoutSuperseded([e]) == [] && !Superseded([e], e)
  {
    var e := Read(-1, 0, ["file:a"], false);
    assert [e][..0] == [];
    assert NewestFor([e]) == map[];
    assert e.files[0] == "file:a";
    assert Newer(Lookup(map[], e.files[0]), At(e));
  }

  /** Notes as they are stored: event numbers count from 0, and the only notes below
      turn 0 are hydrated seeds, which are stored as succeeded. */
  predicate AsStored(notes: seq<Note>) {
    forall k :: 0 <= k < |notes| ==> notes[k].event >= 0 && (notes[k].turn < 0 ==> notes[k].succeeded)
  }

  /** Of stored notes the filter drops exactly the reads with a newer successful note
      that is no checkpoint and shares a file tag. */
  lemma StoredReadsDropAsPromised(notes: seq<Note>, e: Note)
    requires AsStored(notes) && e in notes
    ensures e in WithoutSuperseded(notes) <==> !(e.eventType == FileRead && Superseded(notes, e))
  {
    DropsPromisedIff(notes, e);
    if e.eventType == FileRead && Stranded(notes, e) { StrandedReadsFailed(notes, e); }
  }

  lemma {:induction false} KeptCounts(notes: seq<Note>, newest: map<string, Stamp>, e: Note)
    ensures Count(Kept(notes, newest), e) == if Drops(newest, e) then 0 else Count(notes, e)
  {
    if notes != [] {
      var front, last := notes[..|notes| - 1], notes[|notes| - 1];
      KeptCounts(front, newest, e);
      CountSnoc(Kept(front, newest), last, e);
    }
  }

  /** What is dropped does not depend on the order of the list. */
  lemma DropsIgnoreOrder(a: seq<Note>, b: seq<Note>, e: Note)
    requires forall x :: Count(a, x) == Count(b, x)
    ensures Count(WithoutSuperseded(a), e) == Count(WithoutSuperseded(b), e)
  {
    KeptCounts(a, NewestFor(a), e);
    KeptCounts(b, NewestFor(b), e);
    forall x ensures x in a <==> x in b { CountMember(a, x); CountMember(b, x); }
    DropsExactly(a, e);
    DropsExactly(b, e);
    SameMembersSameDrops(a, b, e);
  }

  lemma SameMembersSameDrops(a: seq<Note>, b: seq<Note>, e: Note)
    requires forall x :: x in a <==> x in b
    ensures Superseded(a, e) <==> Superseded(b, e)
    ensures Stranded(a, e) <==> Stranded(b, e)
  {
    forall k | 0 <= k < |e.files|
      ensures HasSuperseder(a, e, e.files[k]) <==> HasSuperseder(b, e, e.files[k])
      ensures Unseen(a, e.files[k]) <==> Unseen(b, e.files[k])
    {
      UnseenMember(a, e.files[k]);
      UnseenMember(b, e.files[k]);
    }
  }

  lemma UnseenMember(notes: seq<Note>, tag: string)
    ensures Unseen(notes, tag) <==> forall s :: s in notes && Supersedes(s) ==> tag !in s.files
  {
  }

  lemma {:induction false} KeepsAll(notes: seq<Note>, newest: map<string, Stamp>)
    ensures Kept(notes, newest) == notes <==> forall e :: e in notes ==> !Drops(newest, e)
    ensures |Kept(notes, newest)| <= |notes|
  {
    if notes != [] {
      var front, last := notes[..|notes| - 1], notes[|notes| - 1];
      assert notes == front + [last];
      KeepsAll(front, newest);
      if Kept(notes, newest) == notes && !Drops(newest, last) {
        assert Kept(front, newest) + [last] == front + [last];
        assert Kept(front, newest) == (front + [last])[..|front|];
      }
    }
  }

  /** Kept now, stranded next: a failed read stamped before turn 0 that keeps its
      place only through a tag whose successful carriers are all reads that go. */
  ghost predicate LosesItsCarriers(notes: seq<Note>, e: Note) {
    && e in notes && e.eventType == FileRead && !e.succeeded && Newer(Stamp(0, 0), At(e))
    && !Superseded(notes, e) && !Stranded(notes, e)
    && exists k :: 0 <= k < |e.files| && CarriersGo(notes, e.files[k])
  }

  /** Every successful note that is no checkpoint and carries the tag is a superseded
      read. */
  ghost predicate CarriersGo(notes: seq<Note>, tag: string) {
    forall s :: s in notes && Supersedes(s) && tag in s.files ==> s.eventType == FileRead && Superseded(notes, s)
  }

  /** A successful note is never stranded, so it goes only if superseded. */
  lemma CarrierGoesIff(notes: seq<Note>, s: Note)
    requires s in notes && Supersedes(s)
    ensures s !in WithoutSuperseded(notes) <==> s.eventType == FileRead && Superseded(notes, s)
  {
    KeptMember(notes, NewestFor(notes), s);
    DropsExactly(notes, s);
    if s.eventType == FileRead && Stranded(notes, s) { StrandedReadsFailed(notes, s); }
  }

  lemma UnseenAfterIff(notes: seq<Note>, tag: string)
    ensures Unseen(WithoutSuperseded(notes), tag) <==> CarriersGo(notes, tag)
  {
    var once := WithoutSuperseded(notes);
    UnseenMember(once, tag);
    forall s ensures s in once ==> s in notes { KeptMember(notes, NewestFor(notes), s); }
    forall s | s in notes && Supersedes(s) ensures s !in once <==> s.eventType == FileRead && Superseded(notes, s) {
      CarrierGoesIff(notes, s);
    }
  }

  /** Nothing that survives is superseded among the survivors. */
  lemma SurvivorsStand(notes: seq<Note>, e: Note)
    requires e in WithoutSuperseded(notes) && e.eventType == FileRead
    ensures e in notes && !Superseded(notes, e) && !Stranded(notes, e) && !Superseded(WithoutSuperseded(notes), e)
  {
    var once := WithoutSuperseded(notes);
    KeptMember(notes, NewestFor(notes), e);
    DropsExactly(notes, e);
    if Superseded(once, e) {
      var k :| 0 <= k < |e.files| && HasSuperseder(once, e, e.files[k]);
      var s :| s in once && s.succeeded && s.eventType != Checkpoint && e.files[k] in s.files &&
        (s.turn > e.turn || (s.turn == e.turn && s.event > e.event));
      KeptMember(notes, NewestFor(notes), s);
      assert HasSuperseder(notes, e, e.files[k]);
    }
  }

  lemma DroppedNextIff(notes: seq<Note>, e: Note)
    ensures var once := WithoutSuperseded(notes);
      e in once && Drops(NewestFor(once), e) <==> LosesItsCarriers(notes, e)
  {
    var once := WithoutSuperseded(notes);
    DropsExactly(once, e);
    KeptMember(notes, NewestFor(notes), e);
    DropsExactly(notes, e);
    forall k | 0 <= k < |e.files|
      ensures Unseen(once, e.files[k]) <==> CarriersGo(notes, e.files[k])
    {
      UnseenAfterIff(notes, e.files[k]);
    }
    if e in once && e.eventType == FileRead {
      SurvivorsStand(notes, e);
      if Stranded(once, e) { StrandedReadsFailed(once, e); }
    }
  }

  /** Filtering twice equals filtering once, although a dropped read may itself have
      been a superseder, exactly when no failed read stamped before turn 0 keeps its
      place only through reads that go. */
  lemma FilteringTwice(notes: seq<Note>)
    ensures var once := WithoutSuperseded(notes);
      WithoutSuperseded(once) == once <==> forall e :: !LosesItsCarriers(notes, e)
  {
    var once := WithoutSuperseded(notes);
    KeepsAll(once, NewestFor(once));
    forall e
      ensures e in once && Drops(NewestFor(once), e) <==> LosesItsCarriers(notes, e)
    {
      DroppedNextIff(notes, e);
    }
  }

  /** On every list of stored notes filtering twice equals filtering once. */
  lemma FilteringTwiceIsOnce(notes: seq<Note>)
    requires AsStored(notes)
    ensures WithoutSuperseded(WithoutSuperseded(notes)) == WithoutSuperseded(notes)
  {
    FilteringTwice(notes);
  }

  /** The condition is not idle: on notes no run stores, the first pass drops the
      successful read that stood for tag `t`, and the second then drops the failed read
      that only it kept in place. */
  lemma FilteringTwiceCanDropMore()
    ensures var failed, read, edit := Read(-1, 1, ["file:t"], false), Read(-1, 0, ["file:t", "file:u"], true),
              Read(0, 0, ["file:u"], true).(eventType := FileEdit);
      LosesItsCarriers([failed, read, edit], failed)
  {
    var failed, read, edit := Read(-1, 1, ["file:t"], false), Read(-1, 0, ["file:t", "file:u"], true),
      Read(0, 0, ["file:u"], true).(eventType := FileEdit);
    var notes := [failed, read, edit];
    assert failed.files[0] == "file:t" && |failed.files| == 1;
    assert "file:t" in read.files && read.files[1] == "file:u" && "file:u" in edit.files;
    assert !Unseen(notes, "file:t") by { assert notes[1] == read; }
    assert !HasSuperseder(notes, failed, "file:t");
    assert HasSuperseder(notes, read, read.files[1]) by { assert edit in notes; }
    assert CarriersGo(notes, failed.files[0]);
  }
}
