/** In which order notes compete for the cap, said of the notes' own fields. */
module SelectionPriority {
  import opened Segments
  import opened Selection
  import opened SelectionProperties

  // ------------------------------------------------------------- priority by field

  predicate IsRecent(e: Note, floors: Floors) {
    e.turn > floors.recent.turn || (e.turn == floors.recent.turn && e.segment >= floors.recent.number)
  }

  predicate InBand(e: Note, floors: Floors) {
    e.turn > floors.band.turn || (e.turn == floors.band.turn && e.segment >= floors.band.number)
  }

  /** How urgent a note is, 0 first: recent, pinned, named by the prompt, tagged to the
      working set for sure or perhaps; then live in the band, live behind it, dead in the
      band, dead behind it. Checkpoints are never promoted and the dead never tagged. */
  function Grade(e: Note, floors: Floors): (grade: nat)
    ensures grade < 9
  {
    var work := e.eventType != Checkpoint;
    if IsRecent(e, floors) then 0
    else if work && e.pinned then 1
    else if work && e.named then 2
    else if work && !e.dead && e.confident then 3
    else if work && !e.dead && e.ambiguous then 4
    else if !e.dead then (if InBand(e, floors) then 5 else 6)
    else if InBand(e, floors) then 7 else 8
  }

  /** Where a note's kind stands among the others, lowest first: older checkpoints,
      general notes, explorations, reads, then decisions, plans and turn digests alike,
      commands, edits, and on top the newest checkpoint. */
  function Standing(e: Note): nat {
    match e.eventType
    case General => 1
    case Exploration => 2
    case FileRead => 3
    case Decision => 4
    case Plan => 4
    case Command => 5
    case FileEdit => 6
    case Checkpoint => if e.isLatest then 7 else if e.turnGrain then 4 else 0
  }

  /** Higher kind first, then the newer turn, segment and event first. */
  predicate Outranks(a: Note, b: Note) {
    || Standing(a) > Standing(b)
    || (Standing(a) == Standing(b) &&
          (|| a.turn > b.turn
           || (a.turn == b.turn && (a.segment > b.segment || (a.segment == b.segment && a.event > b.event)))))
  }

  lemma OutranksIs(a: Note, b: Note)
    ensures Outranks(a, b) <==> Before(a, b)
  {
  }

  predicate StandsBefore(notes: seq<Note>, f: Note, i: nat) { exists j :: 0 <= j < i && j < |notes| && notes[j] == f }

  predicate StandsBehind(notes: seq<Note>, f: Note, i: nat) { exists j :: i < j < |notes| && notes[j] == f }

  /** Among notes of one grade: the first three grades are tried oldest first, the notes
      behind the band by kind, all others newest first. */
  predicate TriedBefore(notes: seq<Note>, f: Note, i: nat, grade: nat)
    requires i < |notes|
  {
    if grade <= 2 then StandsBefore(notes, f, i)
    else if grade == 6 || grade == 8 then !Outranks(notes[i], f)
    else StandsBehind(notes, f, i)
  }

  // ------------------------------------------------------- the passes, by grade

  /** The visits of the passes, one by one. */
  function PassLists(notes: seq<Note>, floors: Floors): (lists: seq<seq<Note>>)
    ensures |lists| == 9
  {
    [OldestFirst(Recent, notes, floors), OldestFirst(Pinned, notes, floors), OldestFirst(Named, notes, floors),
     NewestFirst(Confident, notes, floors), NewestFirst(Ambiguous, notes, floors),
     NewestFirst(BandLive, notes, floors), StableSort(ByRank, NewestFirst(OldLive, notes, floors)),
     NewestFirst(BandDead, notes, floors), StableSort(ByRank, NewestFirst(OldDead, notes, floors))]
  }

  function PassOf(grade: nat): Pass {
    match grade
    case 0 => Recent
    case 1 => Pinned
    case 2 => Named
    case 3 => Confident
    case 4 => Ambiguous
    case 5 => BandLive
    case 6 => OldLive
    case 7 => BandDead
    case _ => OldDead
  }

  /** The first lists, one behind the other. */
  function Flat(lists: seq<seq<Note>>, n: nat): seq<Note>
    requires n <= |lists|
  {
    if n == 0 then [] else Flat(lists, n - 1) + lists[n - 1]
  }

  lemma FlatStep(lists: seq<seq<Note>>, n: nat, before: seq<Note>)
    requires n < |lists| && Flat(lists, n) == before
    ensures Flat(lists, n + 1) == before + lists[n]
  {
  }

  lemma FlatOfNine(lists: seq<seq<Note>>)
    requires |lists| == 9
    ensures Flat(lists, 9) ==
      lists[0] + lists[1] + lists[2] + lists[3] + lists[4] + (lists[5] + lists[6] + lists[7] + lists[8])
  {
    assert Flat(lists, 1) == lists[0];
    var a := lists[0] + lists[1];
    FlatStep(lists, 1, lists[0]);
    FlatStep(lists, 2, a);
    FlatStep(lists, 3, a + lists[2]);
    FlatStep(lists, 4, a + lists[2] + lists[3]);
    var b := a + lists[2] + lists[3] + lists[4];
    FlatStep(lists, 5, b);
    FlatStep(lists, 6, b + lists[5]);
    FlatStep(lists, 7, b + lists[5] + lists[6]);
    FlatStep(lists, 8, b + lists[5] + lists[6] + lists[7]);
    RegroupFour(b, lists[5], lists[6], lists[7], lists[8]);
  }

  lemma RegroupFour(a: seq<Note>, b: seq<Note>, c: seq<Note>, d: seq<Note>, e: seq<Note>)
    ensures a + b + c + d + e == a + (b + c + d + e)
  {
  }

  lemma VisitsAreThePasses(notes: seq<Note>, floors: Floors)
    ensures Visits(notes, floors) == Flat(PassLists(notes, floors), 9)
  {
    FlatOfNine(PassLists(notes, floors));
  }

  /** A note's grade is the first pass that takes it. */
  lemma GradeIsFirstPass(e: Note, floors: Floors, grade: nat)
    requires grade < 9
    ensures Takes(PassOf(Grade(e, floors)), e, floors)
    ensures Takes(PassOf(grade), e, floors) ==> Grade(e, floors) <= grade
  {
  }

  lemma {:induction false} OldestFirstMember(p: Pass, notes: seq<Note>, floors: Floors, e: Note)
    ensures e in OldestFirst(p, notes, floors) <==> e in notes && Takes(p, e, floors)
  {
    if notes != [] {
      assert notes == notes[..|notes| - 1] + [notes[|notes| - 1]];
      OldestFirstMember(p, notes[..|notes| - 1], floors, e);
    }
  }

  lemma PassMember(notes: seq<Note>, floors: Floors, grade: nat, e: Note)
    requires grade < 9
    ensures e in PassLists(notes, floors)[grade] <==> e in notes && Takes(PassOf(grade), e, floors)
  {
    OldestFirstMember(PassOf(grade), notes, floors, e);
    NewestFirstMember(PassOf(grade), notes, floors, e);
    SortCounts(ByRank, NewestFirst(PassOf(grade), notes, floors), e);
  }

  lemma {:induction false} EarlierPassMember(notes: seq<Note>, floors: Floors, n: nat, e: Note)
    requires n <= 9
    ensures e in Flat(PassLists(notes, floors), n) <==> e in notes && Grade(e, floors) < n
  {
    if n > 0 {
      EarlierPassMember(notes, floors, n - 1, e);
      PassMember(notes, floors, n - 1, e);
      GradeIsFirstPass(e, floors, n - 1);
    }
  }

  // ------------------------------------------------------ the place in one pass

  lemma {:induction false} OldestFirstPlace(p: Pass, notes: seq<Note>, floors: Floors, i: nat) returns (q: nat)
    requires i < |notes| && Takes(p, notes[i], floors)
    ensures q < |OldestFirst(p, notes, floors)| && OldestFirst(p, notes, floors)[q] == notes[i]
    ensures forall f :: f in OldestFirst(p, notes, floors)[..q] ==> StandsBefore(notes, f, i)
  {
    var n := |notes| - 1;
    var front := notes[..n];
    if i < n {
      q := OldestFirstPlace(p, front, floors, i);
      assert OldestFirst(p, notes, floors)[..q] == OldestFirst(p, front, floors)[..q];
      forall f | f in OldestFirst(p, front, floors)[..q] ensures StandsBefore(notes, f, i) {
        var j :| 0 <= j < i && j < |front| && front[j] == f;
        assert notes[j] == f;
      }
    } else {
      q := |OldestFirst(p, front, floors)|;
      assert OldestFirst(p, notes, floors)[..q] == OldestFirst(p, front, floors);
      forall f | f in OldestFirst(p, front, floors) ensures StandsBefore(notes, f, i) {
        OldestFirstMember(p, front, floors, f);
        var j :| 0 <= j < |front| && front[j] == f;
        assert notes[j] == f;
      }
    }
  }

  lemma {:induction false} NewestFirstPlace(p: Pass, notes: seq<Note>, floors: Floors, i: nat) returns (q: nat)
    requires i < |notes| && Takes(p, notes[i], floors)
    ensures q < |NewestFirst(p, notes, floors)| && NewestFirst(p, notes, floors)[q] == notes[i]
    ensures forall f :: f in NewestFirst(p, notes, floors)[..q] ==> StandsBehind(notes, f, i)
  {
    var rest := notes[1..];
    if i > 0 {
      q := NewestFirstPlace(p, rest, floors, i - 1);
      assert NewestFirst(p, notes, floors)[..q] == NewestFirst(p, rest, floors)[..q];
      forall f | f in NewestFirst(p, rest, floors)[..q] ensures StandsBehind(notes, f, i) {
        var j :| i - 1 < j < |rest| && rest[j] == f;
        assert notes[j + 1] == f;
      }
    } else {
      q := |NewestFirst(p, rest, floors)|;
      assert NewestFirst(p, notes, floors)[..q] == NewestFirst(p, rest, floors);
      forall f | f in NewestFirst(p, rest, floors) ensures StandsBehind(notes, f, i) {
        NewestFirstMember(p, rest, floors, f);
        var j :| 0 <= j < |rest| && rest[j] == f;
        assert notes[j + 1] == f;
      }
    }
  }

  lemma SortedPlace(p: Pass, notes: seq<Note>, floors: Floors, i: nat) returns (q: nat)
    requires i < |notes| && Takes(p, notes[i], floors)
    ensures var sorted := StableSort(ByRank, NewestFirst(p, notes, floors));
      && q < |sorted| && sorted[q] == notes[i]
      && forall f :: f in sorted[..q] ==> !Outranks(notes[i], f)
  {
    var listed := NewestFirst(p, notes, floors);
    NewestFirstMember(p, notes, floors, notes[i]);
    SortCounts(ByRank, listed, notes[i]);
    SortIsInOrder(ByRank, listed);
    var sorted := StableSort(ByRank, listed);
    q :| 0 <= q < |sorted| && sorted[q] == notes[i];
    forall f | f in sorted[..q] ensures !Outranks(notes[i], f) {
      var m :| 0 <= m < q && sorted[..q][m] == f;
      assert !Precedes(ByRank, sorted[q], sorted[m]);
      OutranksIs(notes[i], f);
    }
  }

  lemma PlaceInPass(notes: seq<Note>, floors: Floors, i: nat) returns (q: nat)
    requires i < |notes|
    ensures var g := Grade(notes[i], floors);
      var list := PassLists(notes, floors)[g];
      && q < |list| && list[q] == notes[i]
      && forall f :: f in list[..q] ==> TriedBefore(notes, f, i, g)
  {
    var g := Grade(notes[i], floors);
    GradeIsFirstPass(notes[i], floors, g);
    if g <= 2 {
      q := OldestFirstPlace(PassOf(g), notes, floors, i);
    } else if g == 6 || g == 8 {
      q := SortedPlace(PassOf(g), notes, floors, i);
    } else {
      q := NewestFirstPlace(PassOf(g), notes, floors, i);
    }
  }

  // --------------------------------------------------------------- priority holds

  lemma {:induction false} ChosenGrow(p: Picked, visits: seq<Note>)
    ensures p.chosen <= TryAll(p, visits).chosen
    ensures forall f :: f in TryAll(p, visits).chosen ==> f in p.chosen || f in visits
  {
    if visits != [] {
      var front, last := visits[..|visits| - 1], visits[|visits| - 1];
      assert visits == front + [last];
      ChosenGrow(p, front);
    }
  }

  /** A note that is tried behind `before` is in by ID at the end, or would not fit beside
      what was chosen of `before` alone. */
  lemma TriedBehind(before: seq<Note>, e: Note, after: seq<Note>)
    ensures var p0 := Picked({}, 0, []);
      var chosen := TryAll(p0, before + [e] + after).chosen;
      && TryAll(p0, before).chosen <= chosen
      && ((exists k :: 0 <= k < |chosen| && chosen[k].id == e.id) ||
            Cost(TryAll(p0, before).chosen) + Price(e) > MAX_TOKENS)
  {
    var p0 := Picked({}, 0, []);
    TryAllSound(p0, before);
    TryAllSound(p0, before + [e] + after);
    TrySnoc(p0, before, e);
    TryConcat(p0, before + [e], after);
    ChosenGrow(TryAll(p0, before + [e]), after);
    TryAllGrows(TryAll(p0, before + [e]), after);
    PriceIsTokens(e);
  }

  lemma {:induction false} FlatFrom(lists: seq<seq<Note>>, n: nat) returns (rest: seq<Note>)
    requires n <= |lists|
    ensures Flat(lists, |lists|) == Flat(lists, n) + rest
    decreases |lists| - n
  {
    if n == |lists| {
      rest := [];
    } else {
      var later := FlatFrom(lists, n + 1);
      rest := lists[n] + later;
      Regroup(Flat(lists, n), lists[n], later);
    }
  }

  lemma Regroup(a: seq<Note>, b: seq<Note>, c: seq<Note>)
    ensures a + b + c == a + (b + c)
  {
  }

  lemma SplitAround(front: seq<Note>, list: seq<Note>, rest: seq<Note>, q: nat)
    requires q < |list|
    ensures front + list + rest == (front + list[..q]) + [list[q]] + (list[q + 1..] + rest)
  {
  }

  lemma TriedInTurn(notes: seq<Note>, floors: Floors, i: nat, q: nat, f: Note)
    requires i < |notes| && q <= |PassLists(notes, floors)[Grade(notes[i], floors)]|
    requires var g := Grade(notes[i], floors);
      forall x :: x in PassLists(notes, floors)[g][..q] ==> TriedBefore(notes, x, i, g)
    requires var g := Grade(notes[i], floors);
      f in Flat(PassLists(notes, floors), g) + PassLists(notes, floors)[g][..q]
    ensures var g := Grade(notes[i], floors);
      || Grade(f, floors) < g
      || (Grade(f, floors) == g && TriedBefore(notes, f, i, g))
  {
    var g := Grade(notes[i], floors);
    EarlierPassMember(notes, floors, g, f);
    if f in PassLists(notes, floors)[g][..q] {
      PassMember(notes, floors, g, f);
      GradeIsFirstPass(f, floors, g);
    }
  }

  /** The visits, split at the one that decides on note `i`. */
  lemma DecidingVisit(notes: seq<Note>, floors: Floors, i: nat) returns (before: seq<Note>, after: seq<Note>)
    requires i < |notes|
    ensures Visits(notes, floors) == before + [notes[i]] + after
    ensures var g := Grade(notes[i], floors);
      forall f :: f in before ==> Grade(f, floors) < g || (Grade(f, floors) == g && TriedBefore(notes, f, i, g))
  {
    var g := Grade(notes[i], floors);
    var q := PlaceInPass(notes, floors, i);
    var lists := PassLists(notes, floors);
    var rest := FlatFrom(lists, g + 1);
    before, after := Flat(lists, g) + lists[g][..q], lists[g][q + 1..] + rest;
    VisitsAreThePasses(notes, floors);
    SplitAround(Flat(lists, g), lists[g], rest, q);
    forall f | f in before
      ensures Grade(f, floors) < g || (Grade(f, floors) == g && TriedBefore(notes, f, i, g))
    {
      TriedInTurn(notes, floors, i, q, f);
    }
  }

  /** Priority, by the notes' own fields. A note whose ID is missing would not fit beside
      the first `n` chosen notes, and each of those is of a more urgent grade, or of its
      own grade and tried before it. */
  lemma PriorityHolds(notes: seq<Note>, floors: Floors, i: nat) returns (n: nat)
    requires i < |notes|
    requires forall k :: 0 <= k < |Chosen(notes, floors).chosen| ==> Chosen(notes, floors).chosen[k].id != notes[i].id
    ensures var chosen, e := Chosen(notes, floors).chosen, notes[i];
      && n <= |chosen| && Cost(chosen[..n]) + Price(e) > MAX_TOKENS
      && forall k :: 0 <= k < n ==>
           || Grade(chosen[k], floors) < Grade(e, floors)
           || (Grade(chosen[k], floors) == Grade(e, floors) && TriedBefore(notes, chosen[k], i, Grade(e, floors)))
  {
    var before, after := DecidingVisit(notes, floors, i);
    var chosen := Chosen(notes, floors).chosen;
    TriedBehind(before, notes[i], after);
    ChosenGrow(Picked({}, 0, []), before);
    var first := TryAll(Picked({}, 0, []), before).chosen;
    n := |first|;
    assert chosen[..n] == first;
    forall k | 0 <= k < n
      ensures
        || Grade(chosen[k], floors) < Grade(notes[i], floors)
        || (Grade(chosen[k], floors) == Grade(notes[i], floors) &&
              TriedBefore(notes, chosen[k], i, Grade(notes[i], floors)))
    {
      assert chosen[k] == first[k] && first[k] in first;
      assert first[k] in before;
    }
  }

  /** The first pass: a recent note that is left out would not fit beside chosen notes
      that are all recent. */
  lemma RecentComeFirst(notes: seq<Note>, floors: Floors, i: nat) returns (n: nat)
    requires i < |notes|
    requires notes[i].turn > floors.recent.turn ||
      (notes[i].turn == floors.recent.turn && notes[i].segment >= floors.recent.number)
    requires forall k :: 0 <= k < |Chosen(notes, floors).chosen| ==> Chosen(notes, floors).chosen[k].id != notes[i].id
    ensures var chosen := Chosen(notes, floors).chosen;
      && n <= |chosen| && Cost(chosen[..n]) + Price(notes[i]) > MAX_TOKENS
      && forall k :: 0 <= k < n ==>
           chosen[k].turn > floors.recent.turn ||
           (chosen[k].turn == floors.recent.turn && chosen[k].segment >= floors.recent.number)
  {
    n := PriorityHolds(notes, floors, i);
  }

  // -------------------------------------------------- and nothing out of turn

  predicate GradesAscend(notes: seq<Note>, floors: Floors) {
    forall j, k :: 0 <= j < k < |notes| ==> Grade(notes[j], floors) <= Grade(notes[k], floors)
  }

  /** Trying a note again changes nothing. */
  lemma TriedAgain(before: seq<Note>, e: Note)
    requires e in before
    ensures TryAll(Picked({}, 0, []), before + [e]) == TryAll(Picked({}, 0, []), before)
  {
    var p0 := Picked({}, 0, []);
    TrySnoc(p0, before, e);
    VisitedIsTried(p0, before, e);
  }

  lemma GradesSnoc(before: seq<Note>, e: Note, floors: Floors, g: nat)
    requires GradesAscend(TryAll(Picked({}, 0, []), before).chosen, floors)
    requires forall f :: f in TryAll(Picked({}, 0, []), before).chosen ==> Grade(f, floors) <= g
    requires Grade(e, floors) == g || e in before
    requires Grade(e, floors) <= g
    ensures GradesAscend(TryAll(Picked({}, 0, []), before + [e]).chosen, floors)
    ensures forall f :: f in TryAll(Picked({}, 0, []), before + [e]).chosen ==> Grade(f, floors) <= g
  {
    if e in before { TriedAgain(before, e); } else { TrySnoc(Picked({}, 0, []), before, e); }
  }

  /** What is chosen of these visits comes grade by grade, up to `g`. */
  ghost predicate GradedUpTo(visits: seq<Note>, floors: Floors, g: nat) {
    var chosen := TryAll(Picked({}, 0, []), visits).chosen;
    GradesAscend(chosen, floors) && forall f :: f in chosen ==> Grade(f, floors) <= g
  }

  lemma {:induction false} GradesInPass(front: seq<Note>, list: seq<Note>, floors: Floors, g: nat, m: nat)
    requires m <= |list| && GradedUpTo(front, floors, g)
    requires forall e :: e in list ==> Grade(e, floors) <= g && (Grade(e, floors) == g || e in front)
    ensures GradedUpTo(front + list[..m], floors, g)
  {
    if m == 0 {
      assert front + list[..0] == front;
    } else {
      var before, e := front + list[..m - 1], list[m - 1];
      GradesInPass(front, list, floors, g, m - 1);
      GradesSnoc(before, e, floors, g);
      assert front + list[..m] == before + [e];
    }
  }

  lemma {:induction false} GradesOfPasses(notes: seq<Note>, floors: Floors, n: nat)
    requires n <= 9
    ensures GradedUpTo(Flat(PassLists(notes, floors), n), floors, n)
  {
    if n > 0 {
      var front, list := Flat(PassLists(notes, floors), n - 1), PassLists(notes, floors)[n - 1];
      GradesOfPasses(notes, floors, n - 1);
      forall e | e in list
        ensures Grade(e, floors) <= n - 1 && (Grade(e, floors) == n - 1 || e in front)
      {
        PassMember(notes, floors, n - 1, e);
        GradeIsFirstPass(e, floors, n - 1);
        EarlierPassMember(notes, floors, n - 1, e);
      }
      GradesInPass(front, list, floors, n - 1, |list|);
      assert list[..|list|] == list;
    }
  }

  /** The chosen notes come grade by grade: nothing is taken ahead of a more urgent note. */
  lemma ChosenComeByGrade(notes: seq<Note>, floors: Floors)
    ensures GradesAscend(Chosen(notes, floors).chosen, floors)
  {
    GradesOfPasses(notes, floors, 9);
    VisitsAreThePasses(notes, floors);
  }

  // ------------------------------------------------------------------ behind the band

  /** The notes behind the band come by kind, and of one kind the newer turn, segment and
      event first. */
  lemma RankedThenNewest(notes: seq<Note>, j: nat, k: nat)
    requires j < k < |StableSort(ByRank, notes)|
    ensures var a, b := StableSort(ByRank, notes)[j], StableSort(ByRank, notes)[k];
      && Standing(a) >= Standing(b)
      && (Standing(a) == Standing(b) ==>
            && a.turn >= b.turn
            && (a.turn == b.turn ==> a.segment >= b.segment)
            && (a.turn == b.turn && a.segment == b.segment ==> a.event >= b.event))
  {
    SortIsInOrder(ByRank, notes);
    assert !Precedes(ByRank, StableSort(ByRank, notes)[k], StableSort(ByRank, notes)[j]);
    OutranksIs(StableSort(ByRank, notes)[k], StableSort(ByRank, notes)[j]);
  }


  predicate Ties(order: Order, a: Note, b: Note) { !Precedes(order, a, b) && !Precedes(order, b, a) }

  /** The notes the comparison calls equal to `x`. */
  function Alike(order: Order, notes: seq<Note>, x: Note): seq<Note> {
    if notes == [] then []
    else
      var before, last := Alike(order, notes[..|notes| - 1], x), notes[|notes| - 1];
      if Ties(order, last, x) then before + [last] else before
  }

  lemma AlikeSnoc(order: Order, front: seq<Note>, last: Note, x: Note)
    ensures Alike(order, front + [last], x) ==
      if Ties(order, last, x) then Alike(order, front, x) + [last] else Alike(order, front, x)
  {
    assert (front + [last])[..|front|] == front;
  }

  lemma TiesWithOne(order: Order, y: Note, last: Note, x: Note)
    requires Precedes(order, y, last)
    ensures !(Ties(order, y, x) && Ties(order, last, x))
  {
    PrecedesIsOrder(order, y, x, last);
  }

  lemma {:induction false} InsertAlike(order: Order, sorted: seq<Note>, y: Note, x: Note)
    ensures Alike(order, Insert(order, sorted, y), x) ==
      if Ties(order, y, x) then Alike(order, sorted, x) + [y] else Alike(order, sorted, x)
  {
    if sorted == [] {
      AlikeSnoc(order, [], y, x);
      assert [] + [y] == [y];
    } else if Precedes(order, y, sorted[|sorted| - 1]) {
      var front, last := sorted[..|sorted| - 1], sorted[|sorted| - 1];
      InsertAlike(order, front, y, x);
      AlikeSnoc(order, Insert(order, front, y), last, x);
      TiesWithOne(order, y, last, x);
    } else {
      AlikeSnoc(order, sorted, y, x);
    }
  }

  /** Notes the comparison calls equal keep the order they came in. */
  lemma {:induction false} SortIsStable(order: Order, notes: seq<Note>, x: Note)
    ensures Alike(order, StableSort(order, notes), x) == Alike(order, notes, x)
  {
    if notes != [] {
      var front, last := notes[..|notes| - 1], notes[|notes| - 1];
      SortIsStable(order, front, x);
      InsertAlike(order, StableSort(order, front), last, x);
    }
  }
}
