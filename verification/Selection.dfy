/** Choosing which notes a request carries: passes in priority order over one token
    budget, then demotion behind turn digests, then superseded reads, then order.
    Whether a note is pinned, named by the prompt, tagged to the working set or
    tagged only to deleted files is an input of the note. */
module Selection {
  import opened Segments

  datatype EventType = FileEdit | Command | Decision | Plan | FileRead | Exploration | Checkpoint | General

  /** `turnGrain` marks a checkpoint that digests one turn; `isLatest`, the newest
      checkpoint of its granularity. `files` are its file tags. */
  datatype Note = Note(id: string, turn: int, segment: int, event: int, eventType: EventType, turnGrain: bool,
                       isLatest: bool,
                       files: seq<string>, tokenCount: int, textLength: nat, succeeded: bool, tagsOnly: bool,
                       pinned: bool, named: bool, confident: bool, ambiguous: bool, dead: bool)

  const MAX_TOKENS := 12000

  function ApproxTokens(length: nat): nat { (length + 3) / 4 }

  function Tokens(e: Note): nat {
    if e.tokenCount <= 0 then ApproxTokens(e.textLength) else e.tokenCount
  }

  // ------------------------------------------------------------------ ordering

  function Rank(e: Note): int {
    match e.eventType
    case Checkpoint => if e.isLatest then 6 else if e.turnGrain then 3 else -1
    case FileEdit => 5
    case Command => 4
    case Decision => 3
    case Plan => 3
    case FileRead => 2
    case Exploration => 1
    case General => 0
  }

  /** Beyond the band: higher rank first, then newer first. */
  predicate Before(a: Note, b: Note) {
    if Rank(a) != Rank(b) then Rank(a) > Rank(b)
    else if a.turn != b.turn then a.turn > b.turn
    else if a.segment != b.segment then a.segment > b.segment
    else a.event > b.event
  }

  predicate Earlier(a: Note, b: Note) {
    if a.turn != b.turn then a.turn < b.turn else a.event < b.event
  }

  datatype Order = ByRank | ByTime

  predicate Precedes(order: Order, a: Note, b: Note) {
    match order
    case ByRank => Before(a, b)
    case ByTime => Earlier(a, b)
  }

  /** Puts `x` behind everything it does not precede, which keeps the sort stable. */
  function Insert(order: Order, sorted: seq<Note>, x: Note): seq<Note> {
    if sorted == [] then [x]
    else
      var last := sorted[|sorted| - 1];
      if Precedes(order, x, last) then Insert(order, sorted[..|sorted| - 1], x) + [last] else sorted + [x]
  }

  function StableSort(order: Order, notes: seq<Note>): seq<Note> {
    if notes == [] then [] else Insert(order, StableSort(order, notes[..|notes| - 1]), notes[|notes| - 1])
  }

  predicate InOrder(order: Order, notes: seq<Note>) {
    forall j, k :: 0 <= j < k < |notes| ==> !Precedes(order, notes[k], notes[j])
  }

  function Count(notes: seq<Note>, e: Note): nat {
    if notes == [] then 0 else Count(notes[..|notes| - 1], e) + if notes[|notes| - 1] == e then 1 else 0
  }

  lemma CountSnoc(front: seq<Note>, last: Note, e: Note)
    ensures Count(front + [last], e) == Count(front, e) + if last == e then 1 else 0
  {
    assert (front + [last])[..|front + [last]| - 1] == front;
  }

  lemma {:induction false} CountMember(notes: seq<Note>, e: Note)
    ensures e in notes <==> Count(notes, e) > 0
  {
    if notes != [] {
      assert notes == notes[..|notes| - 1] + [notes[|notes| - 1]];
      CountMember(notes[..|notes| - 1], e);
    }
  }

  lemma {:induction false} InsertCounts(order: Order, sorted: seq<Note>, x: Note, e: Note)
    ensures Count(Insert(order, sorted, x), e) == Count(sorted, e) + if x == e then 1 else 0
  {
    if sorted == [] {
      CountSnoc([], x, e);
      assert [] + [x] == [x];
    } else {
      var front, last := sorted[..|sorted| - 1], sorted[|sorted| - 1];
      if Precedes(order, x, last) {
        InsertCounts(order, front, x, e);
        CountSnoc(Insert(order, front, x), last, e);
      } else {
        CountSnoc(sorted, x, e);
      }
    }
  }

  lemma {:induction false} SortCounts(order: Order, notes: seq<Note>, e: Note)
    ensures Count(StableSort(order, notes), e) == Count(notes, e)
    ensures e in StableSort(order, notes) <==> e in notes
  {
    if notes != [] {
      SortCounts(order, notes[..|notes| - 1], e);
      InsertCounts(order, StableSort(order, notes[..|notes| - 1]), notes[|notes| - 1], e);
    }
    CountMember(notes, e);
    CountMember(StableSort(order, notes), e);
  }

  /** The comparison is a strict weak order, so what it calls equal is transitive. */
  lemma PrecedesIsOrder(order: Order, a: Note, b: Note, c: Note)
    ensures !(Precedes(order, a, b) && Precedes(order, b, a))
    ensures !Precedes(order, b, a) && !Precedes(order, c, b) ==> !Precedes(order, c, a)
  {
  }

  lemma {:induction false} InsertKeepsOrder(order: Order, sorted: seq<Note>, x: Note)
    requires InOrder(order, sorted)
    ensures InOrder(order, Insert(order, sorted, x))
  {
    if sorted != [] {
      var front, last := sorted[..|sorted| - 1], sorted[|sorted| - 1];
      if Precedes(order, x, last) {
        InsertKeepsOrder(order, front, x);
        var inserted := Insert(order, front, x);
        forall k | 0 <= k < |inserted| ensures !Precedes(order, last, inserted[k]) {
          InsertCounts(order, front, x, inserted[k]);
          CountMember(inserted, inserted[k]);
          CountMember(front, inserted[k]);
          PrecedesIsOrder(order, x, last, x);
        }
      } else {
        forall k | 0 <= k < |sorted| ensures !Precedes(order, x, sorted[k]) {
          PrecedesIsOrder(order, sorted[k], last, x);
        }
      }
    }
  }

  lemma {:induction false} SortIsInOrder(order: Order, notes: seq<Note>)
    ensures InOrder(order, StableSort(order, notes))
  {
    if notes != [] {
      SortIsInOrder(order, notes[..|notes| - 1]);
      InsertKeepsOrder(order, StableSort(order, notes[..|notes| - 1]), notes[|notes| - 1]);
    }
  }

  // -------------------------------------------------------------------- passes

  datatype Floors = Floors(recent: Key, band: Key)

  predicate AtOrAfter(e: Note, key: Key) {
    e.turn > key.turn || (e.turn == key.turn && e.segment >= key.number)
  }

  datatype Pass = Recent | Pinned | Named | Confident | Ambiguous | BandLive | OldLive | BandDead | OldDead

  predicate Takes(p: Pass, e: Note, floors: Floors) {
    match p
    case Recent => AtOrAfter(e, floors.recent)
    case Pinned => e.eventType != Checkpoint && e.pinned
    case Named => e.eventType != Checkpoint && e.named
    case Confident => e.eventType != Checkpoint && e.confident && !e.dead
    case Ambiguous => e.eventType != Checkpoint && !e.confident && e.ambiguous && !e.dead
    case BandLive => AtOrAfter(e, floors.band) && !e.dead
    case OldLive => !AtOrAfter(e, floors.band) && !e.dead
    case BandDead => AtOrAfter(e, floors.band) && e.dead
    case OldDead => !AtOrAfter(e, floors.band) && e.dead
  }

  /** The notes a pass visits oldest first. */
  function OldestFirst(p: Pass, notes: seq<Note>, floors: Floors): seq<Note> {
    if notes == [] then []
    else
      var before, last := OldestFirst(p, notes[..|notes| - 1], floors), notes[|notes| - 1];
      if Takes(p, last, floors) then before + [last] else before
  }

  /** The notes a pass visits newest first. */
  function NewestFirst(p: Pass, notes: seq<Note>, floors: Floors): seq<Note> {
    if notes == [] then []
    else
      var before := NewestFirst(p, notes[1..], floors);
      if Takes(p, notes[0], floors) then before + [notes[0]] else before
  }

  /** The state of a selection in progress. */
  datatype Picked = Picked(seen: set<string>, used: nat, chosen: seq<Note>)

  predicate Fits(p: Picked, e: Note) { p.used + Tokens(e) + 1 <= MAX_TOKENS }

  function Try(p: Picked, e: Note): Picked {
    if e.id in p.seen || !Fits(p, e) then p
    else Picked(p.seen + {e.id}, p.used + Tokens(e) + 1, p.chosen + [e])
  }

  function TryAll(p: Picked, visits: seq<Note>): Picked {
    if visits == [] then p else Try(TryAll(p, visits[..|visits| - 1]), visits[|visits| - 1])
  }

  /** Every visit of a selection, in order. The last four passes visit every note. */
  function Visits(notes: seq<Note>, floors: Floors): seq<Note> {
    OldestFirst(Recent, notes, floors) + OldestFirst(Pinned, notes, floors) + OldestFirst(Named, notes, floors)
    + NewestFirst(Confident, notes, floors) + NewestFirst(Ambiguous, notes, floors) + Fill(notes, floors)
  }

  function Fill(notes: seq<Note>, floors: Floors): seq<Note> {
    NewestFirst(BandLive, notes, floors) + StableSort(ByRank, NewestFirst(OldLive, notes, floors))
    + NewestFirst(BandDead, notes, floors) + StableSort(ByRank, NewestFirst(OldDead, notes, floors))
  }

  function Chosen(notes: seq<Note>, floors: Floors): Picked { TryAll(Picked({}, 0, []), Visits(notes, floors)) }

  // ------------------------------------------------------------------ demotion

  predicate IsDigest(e: Note, eligible: set<int>) {
    e.turn in eligible && e.eventType == Checkpoint && e.turnGrain && !e.tagsOnly
  }

  function Digested(notes: seq<Note>, eligible: set<int>): set<int> {
    if notes == [] then {}
    else
      var before, last := Digested(notes[..|notes| - 1], eligible), notes[|notes| - 1];
      before + if IsDigest(last, eligible) then {last.turn} else {}
  }

  predicate Demoted(e: Note, digested: set<int>) { e.turn in digested && e.eventType != Checkpoint }

  function Undemoted(notes: seq<Note>, digested: set<int>): seq<Note> {
    if notes == [] then []
    else
      var before, last := Undemoted(notes[..|notes| - 1], digested), notes[|notes| - 1];
      if Demoted(last, digested) then before else before + [last]
  }

  // ---------------------------------------------------------- superseded reads

  datatype Stamp = Stamp(turn: int, event: int)

  predicate Newer(a: Stamp, b: Stamp) { a.turn > b.turn || (a.turn == b.turn && a.event > b.event) }

  function At(e: Note): Stamp { Stamp(e.turn, e.event) }

  /** Notes that show a newer state of the files they are tagged with. */
  predicate Supersedes(e: Note) { e.succeeded && e.eventType != Checkpoint }

  function AddTags(newest: map<string, Stamp>, files: seq<string>, at: Stamp): map<string, Stamp> {
    if files == [] then newest
    else
      var before, tag := AddTags(newest, files[..|files| - 1], at), files[|files| - 1];
      if tag !in before || Newer(at, before[tag]) then before[tag := at] else before
  }

  function NewestFor(notes: seq<Note>): map<string, Stamp> {
    if notes == [] then map[]
    else
      var before, last := NewestFor(notes[..|notes| - 1]), notes[|notes| - 1];
      if Supersedes(last) then AddTags(before, last.files, At(last)) else before
  }

  /** A missing tag reads as the zero stamp. */
  function Lookup(newest: map<string, Stamp>, tag: string): Stamp {
    if tag in newest then newest[tag] else Stamp(0, 0)
  }

  predicate Drops(newest: map<string, Stamp>, e: Note) {
    e.eventType == FileRead && exists k :: 0 <= k < |e.files| && Newer(Lookup(newest, e.files[k]), At(e))
  }

  function Kept(notes: seq<Note>, newest: map<string, Stamp>): seq<Note> {
    if notes == [] then []
    else
      var before, last := Kept(notes[..|notes| - 1], newest), notes[|notes| - 1];
      if Drops(newest, last) then before else before + [last]
  }

  function WithoutSuperseded(notes: seq<Note>): seq<Note> { Kept(notes, NewestFor(notes)) }

  /** The notes a request carries. */
  function Selected(notes: seq<Note>, floors: Floors, eligible: set<int>): seq<Note> {
    var chosen := Chosen(notes, floors).chosen;
    StableSort(ByTime, WithoutSuperseded(Undemoted(chosen, Digested(chosen, eligible))))
  }

  // ------------------------------------------------------------------- methods

  class Selector {
    var seen: set<string>
    var used: nat
    var chosen: seq<Note>

    constructor ()
      ensures View() == Picked({}, 0, [])
    {
      seen, used, chosen := {}, 0, [];
    }

    ghost function View(): Picked
      reads this
    {
      Picked(seen, used, chosen)
    }

    method TrySelect(e: Note)
      modifies this
      ensures View() == Try(old(View()), e)
    {
      if e.id in seen { return; }
      var tokens := if e.tokenCount <= 0 then ApproxTokens(e.textLength) else e.tokenCount;
      if used + tokens + 1 > MAX_TOKENS { return; }
      seen, used, chosen := seen + {e.id}, used + tokens + 1, chosen + [e];
    }

    method RunOldestFirst(p: Pass, notes: seq<Note>, floors: Floors)
      modifies this
      ensures View() == TryAll(old(View()), OldestFirst(p, notes, floors))
    {
      for i := 0 to |notes|
        invariant View() == TryAll(old(View()), OldestFirst(p, notes[..i], floors))
      {
        assert notes[..i + 1][..i] == notes[..i];
        if Takes(p, notes[i], floors) {
          TrySnoc(old(View()), OldestFirst(p, notes[..i], floors), notes[i]);
          TrySelect(notes[i]);
        }
      }
      assert notes[..|notes|] == notes;
    }

    method RunNewestFirst(p: Pass, notes: seq<Note>, floors: Floors)
      modifies this
      ensures View() == TryAll(old(View()), NewestFirst(p, notes, floors))
    {
      for i := |notes| downto 0
        invariant View() == TryAll(old(View()), NewestFirst(p, notes[i..], floors))
      {
        assert notes[i..][1..] == notes[i + 1..];
        if Takes(p, notes[i], floors) {
          TrySnoc(old(View()), NewestFirst(p, notes[i + 1..], floors), notes[i]);
          TrySelect(notes[i]);
        }
      }
      assert notes[0..] == notes;
    }

    method RunFill(notes: seq<Note>, floors: Floors)
      modifies this
      ensures View() == TryAll(old(View()), Fill(notes, floors))
    {
      var bandLive, oldLive, bandDead, oldDead := Buckets(notes, floors);
      var all := bandLive + StableSort(ByRank, oldLive) + bandDead + StableSort(ByRank, oldDead);
      for i := 0 to |all|
        invariant View() == TryAll(old(View()), all[..i])
      {
        assert all[..i + 1] == all[..i] + [all[i]];
        TrySnoc(old(View()), all[..i], all[i]);
        TrySelect(all[i]);
      }
      assert all[..|all|] == all;
    }
  }

  lemma TrySnoc(p: Picked, visits: seq<Note>, e: Note)
    ensures TryAll(p, visits + [e]) == Try(TryAll(p, visits), e)
  {
    assert (visits + [e])[..|visits + [e]| - 1] == visits;
  }

  lemma {:induction false} TryConcat(p: Picked, a: seq<Note>, b: seq<Note>)
    ensures TryAll(p, a + b) == TryAll(TryAll(p, a), b)
  {
    if b == [] {
      assert a + b == a;
    } else {
      TryConcat(p, a, b[..|b| - 1]);
      assert (a + b)[..|a + b| - 1] == a + b[..|b| - 1];
    }
  }

  method Buckets(notes: seq<Note>, floors: Floors)
    returns (bandLive: seq<Note>, oldLive: seq<Note>, bandDead: seq<Note>, oldDead: seq<Note>)
    ensures bandLive == NewestFirst(BandLive, notes, floors) && oldLive == NewestFirst(OldLive, notes, floors)
    ensures bandDead == NewestFirst(BandDead, notes, floors) && oldDead == NewestFirst(OldDead, notes, floors)
  {
    bandLive, oldLive, bandDead, oldDead := [], [], [], [];
    for i := |notes| downto 0
      invariant
        && bandLive == NewestFirst(BandLive, notes[i..], floors)
        && oldLive == NewestFirst(OldLive, notes[i..], floors)
      invariant
        && bandDead == NewestFirst(BandDead, notes[i..], floors)
        && oldDead == NewestFirst(OldDead, notes[i..], floors)
    {
      assert notes[i..][1..] == notes[i + 1..];
      var e := notes[i];
      if AtOrAfter(e, floors.band) && !e.dead {
        bandLive := bandLive + [e];
      } else if AtOrAfter(e, floors.band) {
        bandDead := bandDead + [e];
      } else if !e.dead {
        oldLive := oldLive + [e];
      } else {
        oldDead := oldDead + [e];
      }
    }
    assert notes[0..] == notes;
  }

  method RunPasses(notes: seq<Note>, floors: Floors) returns (chosen: seq<Note>)
    ensures chosen == Chosen(notes, floors).chosen
  {
    var s := new Selector();
    var p0 := Picked({}, 0, []);
    s.RunOldestFirst(Recent, notes, floors);
    s.RunOldestFirst(Pinned, notes, floors);
    s.RunOldestFirst(Named, notes, floors);
    s.RunNewestFirst(Confident, notes, floors);
    s.RunNewestFirst(Ambiguous, notes, floors);
    s.RunFill(notes, floors);
    PassesAreVisits(notes, floors);
    chosen := s.chosen;
  }

  lemma PassesAreVisits(notes: seq<Note>, floors: Floors)
    ensures var p1 := TryAll(Picked({}, 0, []), OldestFirst(Recent, notes, floors));
      var p2 := TryAll(p1, OldestFirst(Pinned, notes, floors));
      var p3 := TryAll(p2, OldestFirst(Named, notes, floors));
      var p4 := TryAll(p3, NewestFirst(Confident, notes, floors));
      var p5 := TryAll(p4, NewestFirst(Ambiguous, notes, floors));
      TryAll(p5, Fill(notes, floors)) == Chosen(notes, floors)
  {
    var p0 := Picked({}, 0, []);
    var a, b, c := OldestFirst(Recent, notes, floors), OldestFirst(Pinned, notes, floors),
      OldestFirst(Named, notes, floors);
    var d, e, f := NewestFirst(Confident, notes, floors), NewestFirst(Ambiguous, notes, floors), Fill(notes, floors);
    TryConcat(p0, a, b);
    TryConcat(p0, a + b, c);
    TryConcat(p0, a + b + c, d);
    TryConcat(p0, a + b + c + d, e);
    TryConcat(p0, a + b + c + d + e, f);
  }

  method RenderedDigests(notes: seq<Note>, eligible: set<int>) returns (turns: set<int>)
    ensures turns == Digested(notes, eligible)
  {
    turns := {};
    for i := 0 to |notes|
      invariant turns == Digested(notes[..i], eligible)
    {
      assert notes[..i + 1][..i] == notes[..i];
      var e := notes[i];
      if e.turn in eligible && e.eventType == Checkpoint && e.turnGrain && !e.tagsOnly { turns := turns + {e.turn}; }
    }
    assert notes[..|notes|] == notes;
  }

  method Demote(notes: seq<Note>, digested: set<int>) returns (left: seq<Note>)
    ensures left == Undemoted(notes, digested)
  {
    left := [];
    for i := 0 to |notes|
      invariant left == Undemoted(notes[..i], digested)
    {
      assert notes[..i + 1][..i] == notes[..i];
      if !(notes[i].turn in digested && notes[i].eventType != Checkpoint) { left := left + [notes[i]]; }
    }
    assert notes[..|notes|] == notes;
  }

  method CollectNewest(notes: seq<Note>) returns (newest: map<string, Stamp>)
    ensures newest == NewestFor(notes)
  {
    newest := map[];
    for i := 0 to |notes|
      invariant newest == NewestFor(notes[..i])
    {
      assert notes[..i + 1][..i] == notes[..i];
      var e := notes[i];
      if Supersedes(e) {
        ghost var before := newest;
        for j := 0 to |e.files|
          invariant newest == AddTags(before, e.files[..j], At(e))
        {
          assert e.files[..j + 1][..j] == e.files[..j];
          var tag := e.files[j];
          if tag !in newest || Newer(At(e), newest[tag]) { newest := newest[tag := At(e)]; }
        }
        assert e.files[..|e.files|] == e.files;
      }
    }
    assert notes[..|notes|] == notes;
  }

  /** Filters the array in place: the first `n` elements are what is left. */
  method DropSupersededReads(a: array<Note>) returns (n: nat)
    modifies a
    ensures n <= a.Length && a[..n] == WithoutSuperseded(old(a[..]))
  {
    ghost var was := a[..];
    var newest := CollectNewest(a[..]);
    n := 0;
    for i := 0 to a.Length
      invariant n <= i
      invariant a[..n] == Kept(was[..i], newest)
      invariant a[i..] == was[i..]
    {
      assert was[..i + 1][..i] == was[..i];
      var e := a[i];
      assert e == a[i..][0] == was[i];
      var drop := ShouldDrop(newest, e);
      if !drop {
        ghost var rest := a[i + 1..];
        assert rest == a[i..][1..];
        a[n] := e;
        n := n + 1;
        assert a[..n] == Kept(was[..i], newest) + [e];
        assert a[i + 1..] == rest;
      }
      assert a[i + 1..] == was[i..][1..] == was[i + 1..];
    }
    assert was[..a.Length] == was;
  }

  method ShouldDrop(newest: map<string, Stamp>, e: Note) returns (drop: bool)
    ensures drop <==> Drops(newest, e)
  {
    drop := false;
    if e.eventType == FileRead {
      for i := 0 to |e.files|
        invariant drop <==> exists k :: 0 <= k < i && Newer(Lookup(newest, e.files[k]), At(e))
      {
        if Newer(Lookup(newest, e.files[i]), At(e)) { drop := true; }
      }
    }
  }

  method SelectNotebookEntries(notes: seq<Note>, floors: Floors, eligible: set<int>) returns (selected: seq<Note>)
    ensures selected == Selected(notes, floors, eligible)
  {
    var chosen := RunPasses(notes, floors);
    var digested := RenderedDigests(chosen, eligible);
    var left := Demote(chosen, digested);
    var buffer := new Note[|left|](i requires 0 <= i < |left| => left[i]);
    assert buffer[..] == left;
    var n := DropSupersededReads(buffer);
    selected := StableSort(ByTime, buffer[..n]);
  }
}
