/** Where selection draws its lines: the recency floor two covered segments back
    from the boundary, and the fill band eight back. */
module SelectionFloors {
  import opened Transcript
  import opened Segments
  import opened SegmentProperties
  import opened Selection
  import opened SelectionProperties
  import opened SelectionPriority

  const BAND_SEGMENTS := 8

  /** How many leading segments end at or before the boundary. */
  function CoveredCount(segs: seq<Segment>, boundary: nat, k: nat): (c: nat)
    requires k <= |segs|
    ensures k <= c <= |segs|
    ensures forall j :: k <= j < c ==> segs[j].end <= boundary
    ensures c < |segs| ==> segs[c].end > boundary
    decreases |segs| - k
  {
    if k == |segs| || segs[k].end > boundary then k else CoveredCount(segs, boundary, k + 1)
  }

  method CoveredSegmentFloor(segs: seq<Segment>, boundary: nat) returns (floor: Key)
    ensures var c := CoveredCount(segs, boundary, 0);
      floor == if segs == [] then Key(0, 0) else if c < 2 then segs[0].Id() else segs[c - 2].Id()
  {
    var last, prev := Key(0, 0), Key(0, 0);
    var covered := 0;
    while covered < |segs| && segs[covered].end <= boundary
      invariant covered <= |segs| && CoveredCount(segs, boundary, covered) == CoveredCount(segs, boundary, 0)
      invariant covered >= 1 ==> last == segs[covered - 1].Id()
      invariant covered >= 2 ==> prev == segs[covered - 2].Id()
    {
      prev, last := last, segs[covered].Id();
      covered := covered + 1;
    }
    if covered == 0 {
      return if |segs| > 0 then segs[0].Id() else Key(0, 0);
    }
    floor := if covered >= 2 then prev else last;
  }

  /** The key of the eighth-to-last covered segment, or the zero key. */
  function BandFloor(segs: seq<Segment>, boundary: nat): Key {
    var c := CoveredCount(segs, boundary, 0);
    if c <= BAND_SEGMENTS then Key(0, 0) else segs[c - BAND_SEGMENTS].Id()
  }

  method FillBandFloor(segs: seq<Segment>, boundary: nat) returns (floor: Key)
    ensures floor == BandFloor(segs, boundary)
  {
    var covered: seq<Segment> := [];
    while |covered| < |segs| && segs[|covered|].end <= boundary
      invariant |covered| <= |segs| && covered == segs[..|covered|]
      invariant CoveredCount(segs, boundary, |covered|) == CoveredCount(segs, boundary, 0)
      decreases |segs| - |covered|
    {
      covered := covered + [segs[|covered|]];
    }
    floor := if |covered| <= BAND_SEGMENTS then Key(0, 0) else covered[|covered| - BAND_SEGMENTS].Id();
  }

  /** The note was written for this segment. */
  predicate WrittenFor(e: Note, s: Segment) { e.turn == s.turn && e.segment == s.number }

  lemma AtOrAfterByPosition(msgs: seq<Message>, threshold: nat, maxSteps: nat, j: nat, k: nat, e: Note)
    requires msgs != []
    requires var segs := SegmentsOf(msgs, threshold, maxSteps); j < |segs| && k < |segs| && WrittenFor(e, segs[j])
    ensures AtOrAfter(e, SegmentsOf(msgs, threshold, maxSteps)[k].Id()) <==> j >= k
  {
    if j < k { KeysAscend(msgs, threshold, maxSteps, j, k); }
    if k < j { KeysAscend(msgs, threshold, maxSteps, k, j); }
  }

  /** The recency pass comes first and takes exactly the notes of the last two covered
      segments and of whatever comes after them: one of these that is left out would not
      fit beside chosen notes that are all at or after that floor. */
  lemma RecentMeansLastTwo(msgs: seq<Message>, threshold: nat, maxSteps: nat, boundary: nat, notes: seq<Note>,
                           floors: Floors, i: nat, j: nat) returns (n: nat)
    requires msgs != [] && i < |notes|
    requires var segs := SegmentsOf(msgs, threshold, maxSteps);
      && j < |segs| && WrittenFor(notes[i], segs[j])
      && var c := CoveredCount(segs, boundary, 0);
         floors.recent == if c < 2 then segs[0].Id() else segs[c - 2].Id()
    ensures var c := CoveredCount(SegmentsOf(msgs, threshold, maxSteps), boundary, 0);
      && (Grade(notes[i], floors) == 0 <==> j + 2 >= c)
      && (notes[i] in OldestFirst(Recent, notes, floors) <==> j + 2 >= c)
      && (j + 2 >= c && (forall k :: 0 <= k < |Chosen(notes, floors).chosen| ==>
            Chosen(notes, floors).chosen[k].id != notes[i].id) ==>
            RecentFillTheCap(notes, floors, n, notes[i]))
  {
    var segs := SegmentsOf(msgs, threshold, maxSteps);
    var c := CoveredCount(segs, boundary, 0);
    AtOrAfterByPosition(msgs, threshold, maxSteps, j, if c < 2 then 0 else c - 2, notes[i]);
    OldestFirstMember(Recent, notes, floors, notes[i]);
    n := 0;
    if j + 2 >= c && forall k :: 0 <= k < |Chosen(notes, floors).chosen| ==>
        Chosen(notes, floors).chosen[k].id != notes[i].id
    {
      n := RecentComeFirst(notes, floors, i);
    }
  }

  /** The first `n` chosen notes are all at or after the recency floor and leave no room
      for this one. */
  ghost predicate RecentFillTheCap(notes: seq<Note>, floors: Floors, n: nat, e: Note) {
    var chosen := Chosen(notes, floors).chosen;
    && n <= |chosen| && Cost(chosen[..n]) + Price(e) > MAX_TOKENS
    && forall k :: 0 <= k < n ==>
         chosen[k].turn > floors.recent.turn ||
         (chosen[k].turn == floors.recent.turn && chosen[k].segment >= floors.recent.number)
  }

  /** The fill band holds exactly the notes of the last eight covered segments and of
      whatever comes after them. */
  lemma BandMeansLastEight(msgs: seq<Message>, threshold: nat, maxSteps: nat, boundary: nat, j: nat, e: Note)
    requires msgs != []
    requires var segs := SegmentsOf(msgs, threshold, maxSteps); j < |segs| && WrittenFor(e, segs[j])
    ensures var segs := SegmentsOf(msgs, threshold, maxSteps);
      AtOrAfter(e, BandFloor(segs, boundary)) <==> j + 8 >= CoveredCount(segs, boundary, 0)
  {
    var c := CoveredCount(SegmentsOf(msgs, threshold, maxSteps), boundary, 0);
    if c > BAND_SEGMENTS { AtOrAfterByPosition(msgs, threshold, maxSteps, j, c - BAND_SEGMENTS, e); }
  }

  /** The zero key takes exactly the notes whose key a segment of some transcript can
      have, whether or not this one has it. */
  lemma ZeroKeyTakesIff(e: Note)
    ensures AtOrAfter(e, Key(0, 0)) <==> e.turn > 0 || (e.turn == 0 && e.segment >= 0)
  {
  }

  lemma {:induction false} NothingOldIff(notes: seq<Note>, floors: Floors)
    ensures NewestFirst(OldLive, notes, floors) == [] && NewestFirst(OldDead, notes, floors) == [] <==>
      forall k :: 0 <= k < |notes| ==> AtOrAfter(notes[k], floors.band)
  {
    if notes != [] {
      NothingOldIff(notes[1..], floors);
      assert forall k :: 0 < k < |notes| ==> notes[k] == notes[1..][k - 1];
    }
  }

  /** Segment numbers of stored notes count from 0. */
  predicate NumberedAsStored(notes: seq<Note>) { forall k :: 0 <= k < |notes| ==> notes[k].segment >= 0 }

  /** While the band has room for every covered segment, a stored note is in it exactly
      when its turn is not negative, whatever its key; so nothing is left to sort by
      rank, and the fill stays newest first, exactly when no note is below turn 0. */
  lemma FillIsNewestFirstIff(segs: seq<Segment>, boundary: nat, notes: seq<Note>, floors: Floors)
    requires NumberedAsStored(notes) && floors.band == BandFloor(segs, boundary)
    requires CoveredCount(segs, boundary, 0) <= BAND_SEGMENTS
    ensures forall k :: 0 <= k < |notes| ==> (AtOrAfter(notes[k], floors.band) <==> notes[k].turn >= 0)
    ensures NewestFirst(OldLive, notes, floors) == [] && NewestFirst(OldDead, notes, floors) == [] <==>
      forall k :: 0 <= k < |notes| ==> notes[k].turn >= 0
    ensures (forall k :: 0 <= k < |notes| ==> notes[k].turn >= 0) ==>
      Fill(notes, floors) == NewestFirst(BandLive, notes, floors) + NewestFirst(BandDead, notes, floors)
  {
    NothingOldIff(notes, floors);
    forall k | 0 <= k < |notes|
      ensures AtOrAfter(notes[k], floors.band) <==> notes[k].turn >= 0
    {
      ZeroKeyTakesIff(notes[k]);
    }
    assert StableSort(ByRank, []) == [];
  }

  /** The case: a hydrated seed, the only note so far, is outside the band that is to
      hold every note, and outside any other. */
  lemma SeedIsInNoBand(floor: Key)
    ensures var seed := Note("s", -1, 0, 1, Decision, false, false, [], 1, 0, true, false, false, false, false, false,
                             false);
      && BandFloor([], 0) == Key(0, 0)
      && !AtOrAfter(seed, BandFloor([], 0)) && !AtOrAfter(seed, floor)
      && NewestFirst(OldLive, [seed], Floors(floor, BandFloor([], 0))) == [seed]
  {
  }
}
