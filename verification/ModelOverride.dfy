/** Session model pins: a cache over the stored session row, filled by lookups that
    read the row without a lock, and written by set and clear. A generation counter
    tells a late lookup that a writer came between. */
module ModelOverride {
  import opened Transcript

  /** A cached verdict: a pinned model, or the marker that there is none. */
  datatype Verdict = Pin(model: nat) | Marker

  datatype Answer = Answer(pinned: Option<nat>)

  function AnswerOf(v: Verdict): Answer { if v.Pin? then Answer(Some(v.model)) else Answer(None) }

  /** One session's cache entry and generation. */
  datatype Cache = Cache(entry: Option<Verdict>, gen: nat)

  function Published(c: Cache, gen: nat, verdict: Verdict): Cache {
    if c.entry.Some? then c
    else if c.gen != gen then c.(entry := Some(Marker))
    else c.(entry := Some(verdict))
  }

  function Tombstoned(c: Cache): Cache { if c.entry.Some? then c else c.(entry := Some(Marker)) }

  function Written(c: Cache, sel: Option<nat>): Cache {
    Cache(if sel.Some? then Some(Pin(sel.value)) else None, c.gen + 1)
  }

  function Swept(c: Cache): Cache { if c.entry == Some(Marker) then c.(entry := None) else c }

  class Coordinator {
    var modelOverrides: map<string, Verdict>
    var modelOverrideGen: map<string, nat>

    constructor ()
      ensures forall s :: View(s) == Cache(None, 0)
    {
      modelOverrides, modelOverrideGen := map[], map[];
    }

    ghost function View(s: string): Cache
      reads this
    {
      Cache(if s in modelOverrides then Some(modelOverrides[s]) else None,
            if s in modelOverrideGen then modelOverrideGen[s] else 0)
    }

    twostate predicate OthersKeep(s: string)
      reads this
    {
      forall t :: t != s ==> View(t) == old(View(t))
    }

    /** The locked part of a set, once the model is built. */
    method SetSessionModelOverride(s: string, model: nat)
      modifies this
      ensures View(s) == Written(old(View(s)), Some(model)) && OthersKeep(s)
    {
      modelOverrides := modelOverrides[s := Pin(model)];
      modelOverrideGen := modelOverrideGen[s := (if s in modelOverrideGen then modelOverrideGen[s] else 0) + 1];
    }

    method ClearSessionModelOverride(s: string)
      modifies this
      ensures View(s) == Written(old(View(s)), None) && OthersKeep(s)
    {
      modelOverrides := modelOverrides - {s};
      modelOverrideGen := modelOverrideGen[s := (if s in modelOverrideGen then modelOverrideGen[s] else 0) + 1];
    }

    /** The last step of a lookup that read a row and resolved it to `verdict`. */
    method PublishVerdict(s: string, gen: nat, verdict: Verdict) returns (answer: Answer)
      modifies this`modelOverrides
      ensures View(s) == Published(old(View(s)), gen, verdict) && OthersKeep(s)
      ensures View(s).entry.Some? && answer == AnswerOf(View(s).entry.value)
    {
      if s in modelOverrides {
        return AnswerOf(modelOverrides[s]);
      }
      if (if s in modelOverrideGen then modelOverrideGen[s] else 0) != gen {
        modelOverrides := modelOverrides[s := Marker];
        return Answer(None);
      }
      modelOverrides := modelOverrides[s := verdict];
      answer := AnswerOf(verdict);
    }

    /** The last step of a lookup that found no row at all. */
    method PublishTombstone(s: string)
      modifies this`modelOverrides
      ensures View(s) == Tombstoned(old(View(s))) && OthersKeep(s)
    {
      if s !in modelOverrides { modelOverrides := modelOverrides[s := Marker]; }
    }

    /** A rebuild drops every marker and keeps every pin. */
    method SweepMarkers()
      modifies this`modelOverrides
      ensures forall s :: View(s) == Swept(old(View(s)))
    {
      var keys := modelOverrides.Keys;
      while keys != {}
        invariant keys <= old(modelOverrides).Keys
        invariant modelOverrides ==
          map s | s in old(modelOverrides) && (s in keys || old(modelOverrides)[s] != Marker) :: old(modelOverrides)[s]
        decreases keys
      {
        var s :| s in keys;
        keys := keys - {s};
        if modelOverrides[s] == Marker { modelOverrides := modelOverrides - {s}; }
      }
    }
  }

  // ------------------------------------------------------------- the protocol

  /** Where a lookup stands; `version` is the row version it read, and `era` counts
      the rebuilds before its build. */
  datatype Lookup =
    | Missed
    | Captured(gen: nat)
    | ReadRow(gen: nat, version: nat)
    | Resolved(gen: nat, version: nat, verdict: Verdict, era: nat)
    | NoRow

  /** A writer between its two writes. A set may pin first and write the row behind its
      pin, or write the row first, as a clear does. */
  datatype Writer = WroteRow(version: nat) | PinnedFirst(model: nat)

  /** The writer that published last: by the row version it had written, by a pin ahead
      of its row, or by taking such a pin back. */
  datatype Last = NoWriter | ByRow(version: nat) | ByPin(model: nat) | TookBack

  /** `rows[v]` is what version `v` of the stored row pins. `shown` is the row version a
      cached pin came from, if it came from one; `newest` the newest one published.
      `era` counts rebuilds, and `markerEra` is the era whose build a cached marker
      reports, absent when it stands for a clear or a missing row. */
  datatype State = State(cache: Cache, rows: seq<Option<nat>>, lookups: map<nat, Lookup>, writers: map<nat, Writer>,
                         shown: nat, last: Last, newest: nat, era: nat, markerEra: Option<nat>)

  datatype Step =
    | StartLookup(id: nat)
    | CaptureGen(id: nat)
    | ReadStored(id: nat)
    | ReadFails(id: nat, gone: bool)
    | Build(id: nat, ok: bool)
    | PublishLookup(id: nat)
    | WriteRow(id: nat, sel: Option<nat>)
    | PublishWriter(id: nat)
    | PinFirst(id: nat, model: nat)
    | PersistPin(id: nat)
    | TakeBack(id: nat)
    | AbandonWriter(id: nat)
    | Sweep

  /** Version 0 is the row as the process finds it. */
  function Init(row: Option<nat>): State { State(Cache(None, 0), [row], map[], map[], 0, NoWriter, 0, 0, None) }

  predicate Enabled(s: State, e: Step) {
    match e
    case StartLookup(id) => id !in s.lookups && s.cache.entry.None?
    case CaptureGen(id) => id in s.lookups && s.lookups[id].Missed?
    case ReadStored(id) => id in s.lookups && s.lookups[id].Captured? && s.rows != []
    case ReadFails(id, _) => id in s.lookups && s.lookups[id].Captured?
    case Build(id, _) => id in s.lookups && s.lookups[id].ReadRow? && s.lookups[id].version < |s.rows|
    case PublishLookup(id) => id in s.lookups && (s.lookups[id].Resolved? || s.lookups[id].NoRow?)
    case WriteRow(id, _) => id !in s.writers
    case PublishWriter(id) => id in s.writers && s.writers[id].WroteRow? && s.writers[id].version < |s.rows|
    case PinFirst(id, _) => id !in s.writers
    case PersistPin(id) => id in s.writers && s.writers[id].PinnedFirst?
    case TakeBack(id) => id in s.writers && s.writers[id].PinnedFirst?
    case AbandonWriter(id) => id in s.writers
    case Sweep => true
  }

  /** The era of the build that a marker published by this lookup would report. */
  function EraOf(s: State, l: Lookup): Option<nat> {
    if l.Resolved? && l.gen == s.cache.gen && l.verdict == Marker then Some(l.era) else None
  }

  function Next(s: State, e: Step): State
    requires Enabled(s, e)
  {
    match e
    case StartLookup(id) => s.(lookups := s.lookups[id := Missed])
    case CaptureGen(id) => s.(lookups := s.lookups[id := Captured(s.cache.gen)])
    case ReadStored(id) => s.(lookups := s.lookups[id := ReadRow(s.lookups[id].gen, |s.rows| - 1)])
    case ReadFails(id, gone) => s.(lookups := if gone then s.lookups[id := NoRow] else s.lookups - {id})
    case Build(id, ok) =>
      var l := s.lookups[id];
      var verdict := if ok && s.rows[l.version].Some? then Pin(s.rows[l.version].value) else Marker;
      s.(lookups := s.lookups[id := Resolved(l.gen, l.version, verdict, s.era)])
    case PublishLookup(id) =>
      var l := s.lookups[id];
      var done := s.(lookups := s.lookups - {id},
                     markerEra := if s.cache.entry.Some? then s.markerEra else EraOf(s, l));
      if l.NoRow? then done.(cache := Tombstoned(s.cache))
      else done.(cache := Published(s.cache, l.gen, l.verdict),
                 shown := if s.cache.entry.None? then l.version else s.shown)
    case WriteRow(id, sel) => s.(rows := s.rows + [sel], writers := s.writers[id := WroteRow(|s.rows|)])
    case PublishWriter(id) =>
      var v := s.writers[id].version;
      s.(cache := Written(s.cache, s.rows[v]), writers := s.writers - {id}, shown := v, last := ByRow(v),
         newest := if s.newest < v then v else s.newest, markerEra := None)
    case PinFirst(id, model) =>
      s.(cache := Written(s.cache, Some(model)), writers := s.writers[id := PinnedFirst(model)], last := ByPin(model),
         markerEra := None)
    case PersistPin(id) => s.(rows := s.rows + [Some(s.writers[id].model)], writers := s.writers - {id})
    case TakeBack(id) => s.(cache := Written(s.cache, None), writers := s.writers - {id}, last := TookBack,
                            markerEra := None)
    case AbandonWriter(id) => s.(writers := s.writers - {id})
    case Sweep => s.(cache := Swept(s.cache), era := s.era + 1, markerEra := None)
  }

  /** A lookup that no writer has overtaken read a row no older than any published. */
  predicate LookupFits(s: State, l: Lookup) {
    && (l.Captured? || l.ReadRow? || l.Resolved? ==> l.gen <= s.cache.gen)
    && (l.ReadRow? || l.Resolved? ==> l.version < |s.rows|)
    && ((l.ReadRow? || l.Resolved?) && l.gen == s.cache.gen ==> s.newest <= l.version)
    && (l.Resolved? ==> l.era <= s.era && (l.verdict.Pin? ==> s.rows[l.version] == Some(l.verdict.model)))
  }

  /** What the writer that published last selects. */
  function Selected(s: State): Option<nat> {
    match s.last
    case ByRow(v) => if v < |s.rows| then s.rows[v] else None
    case ByPin(model) => Some(model)
    case _ => None
  }

  predicate PinCached(s: State) { s.cache.entry.Some? && s.cache.entry.value.Pin? }

  /** While the last writer selects nothing, a cached pin is what the row version it is
      shown for says, and that is no older than any published. */
  predicate PinFits(s: State) {
    PinCached(s) && Selected(s).None? ==>
      s.shown < |s.rows| && s.rows[s.shown] == Some(s.cache.entry.value.model) && s.newest <= s.shown
  }

  ghost predicate Inv(s: State) {
    && s.rows != [] && s.newest < |s.rows|
    && (s.last.ByRow? ==> s.last.version <= s.newest)
    && (forall id :: id in s.lookups ==> LookupFits(s, s.lookups[id]))
    && (forall id :: id in s.writers && s.writers[id].WroteRow? ==> s.writers[id].version < |s.rows|)
    && PinFits(s)
    && (Selected(s).Some? ==> s.cache.entry == Some(Pin(Selected(s).value)))
  }

  lemma LookupsKept(s: State, e: Step)
    requires Inv(s) && Enabled(s, e)
    ensures var after := Next(s, e); forall id :: id in after.lookups ==> LookupFits(after, after.lookups[id])
  {
    var after := Next(s, e);
    forall id | id in after.lookups ensures LookupFits(after, after.lookups[id]) {
      if id in s.lookups { assert LookupFits(s, s.lookups[id]); }
    }
  }

  lemma StepKeeps(s: State, e: Step)
    requires Inv(s) && Enabled(s, e)
    ensures Inv(Next(s, e))
  {
    LookupsKept(s, e);
    if e.PublishLookup? { assert LookupFits(s, s.lookups[e.id]); }
  }

  ghost predicate Legal(s: State, steps: seq<Step>)
    decreases |steps|
  {
    steps == [] || (Enabled(s, steps[0]) && Legal(Next(s, steps[0]), steps[1..]))
  }

  ghost function Exec(s: State, steps: seq<Step>): State
    requires Legal(s, steps)
    decreases |steps|
  {
    if steps == [] then s else Exec(Next(s, steps[0]), steps[1..])
  }

  lemma {:induction false} AlwaysInv(s: State, steps: seq<Step>)
    requires Inv(s) && Legal(s, steps)
    ensures Inv(Exec(s, steps))
    decreases |steps|
  {
    if steps != [] {
      StepKeeps(s, steps[0]);
      AlwaysInv(Next(s, steps[0]), steps[1..]);
    }
  }

  /** A pin stays visible until a writer replaces or clears it: whatever lookups,
      rebuilds and unfinished writers do, the cache answers with the model of the
      last published writer if that was a set. */
  lemma PinStaysVisible(row: Option<nat>, steps: seq<Step>)
    requires Legal(Init(row), steps)
    ensures var s := Exec(Init(row), steps);
      Selected(s).Some? ==> s.cache.entry.Some? && AnswerOf(s.cache.entry.value) == Answer(Selected(s))
  {
    AlwaysInv(Init(row), steps);
  }

  /** A cleared pin is never revived: a pin that is cached after a clear comes from a
      row that was written after the cleared one. */
  lemma ClearedPinStaysDead(row: Option<nat>, steps: seq<Step>)
    requires Legal(Init(row), steps)
    ensures var s := Exec(Init(row), steps);
      PinCached(s) && Selected(s).None? ==>
        && s.shown < |s.rows| && s.rows[s.shown] == Some(s.cache.entry.value.model)
        && (s.last.ByRow? ==> s.shown > s.last.version)
  {
    AlwaysInv(Init(row), steps);
  }

  /** A lookup that publishes late changes nothing a writer has put there, and if a
      writer came between and left nothing, it publishes no pin. */
  lemma LatePublishIsHarmless(s: State, id: nat)
    requires Inv(s) && Enabled(s, PublishLookup(id))
    ensures var after := Next(s, PublishLookup(id));
      && (s.cache.entry.Some? ==> after.cache == s.cache && after.shown == s.shown)
      && (s.lookups[id].Resolved? && s.lookups[id].gen != s.cache.gen && s.cache.entry.None? ==>
           after.cache.entry == Some(Marker))
      && after.cache.gen == s.cache.gen
  {
    assert LookupFits(s, s.lookups[id]);
  }

  /** A lookup nobody overtakes answers with the stored row: its model if the build
      succeeds, and no override otherwise; and so it does when there is no row. */
  lemma QuietLookupShowsTheRow(s: State, id: nat, ok: bool)
    requires Inv(s) && id !in s.lookups && s.cache.entry.None?
    ensures var steps := [StartLookup(id), CaptureGen(id), ReadStored(id), Build(id, ok), PublishLookup(id)];
      && Legal(s, steps)
      && var after := Exec(s, steps);
      && after.cache.entry.Some? && after.cache.gen == s.cache.gen && after.rows == s.rows
      && AnswerOf(after.cache.entry.value) == Answer(if ok then RowNow(s) else None)
  {
    var s1 := Next(s, StartLookup(id));
    var s2 := Next(s1, CaptureGen(id));
    var s3 := Next(s2, ReadStored(id));
    var s4 := Next(s3, Build(id, ok));
    Then(s4, PublishLookup(id), []);
    Then(s3, Build(id, ok), [PublishLookup(id)]);
    Then(s2, ReadStored(id), [Build(id, ok), PublishLookup(id)]);
    Then(s1, CaptureGen(id), [ReadStored(id), Build(id, ok), PublishLookup(id)]);
    Then(s, StartLookup(id), [CaptureGen(id), ReadStored(id), Build(id, ok), PublishLookup(id)]);
    assert [PublishLookup(id)] + [] == [PublishLookup(id)];
    assert [Build(id, ok)] + [PublishLookup(id)] == [Build(id, ok), PublishLookup(id)];
    assert [ReadStored(id)] + [Build(id, ok), PublishLookup(id)] == [ReadStored(id), Build(id, ok), PublishLookup(id)];
    assert [CaptureGen(id)] + [ReadStored(id), Build(id, ok), PublishLookup(id)] ==
      [CaptureGen(id), ReadStored(id), Build(id, ok), PublishLookup(id)];
    assert [StartLookup(id)] + [CaptureGen(id), ReadStored(id), Build(id, ok), PublishLookup(id)] ==
      [StartLookup(id), CaptureGen(id), ReadStored(id), Build(id, ok), PublishLookup(id)];
  }

  lemma QuietLookupWithoutRow(s: State, id: nat)
    requires id !in s.lookups && s.cache.entry.None?
    ensures var steps := [StartLookup(id), CaptureGen(id), ReadFails(id, true), PublishLookup(id)];
      && Legal(s, steps)
      && Exec(s, steps).cache == Cache(Some(Marker), s.cache.gen)
  {
    var s1 := Next(s, StartLookup(id));
    var s2 := Next(s1, CaptureGen(id));
    var s3 := Next(s2, ReadFails(id, true));
    Then(s3, PublishLookup(id), []);
    Then(s2, ReadFails(id, true), [PublishLookup(id)]);
    Then(s1, CaptureGen(id), [ReadFails(id, true), PublishLookup(id)]);
    Then(s, StartLookup(id), [CaptureGen(id), ReadFails(id, true), PublishLookup(id)]);
    assert [PublishLookup(id)] + [] == [PublishLookup(id)];
    assert [ReadFails(id, true)] + [PublishLookup(id)] == [ReadFails(id, true), PublishLookup(id)];
    assert [CaptureGen(id)] + [ReadFails(id, true), PublishLookup(id)] ==
      [CaptureGen(id), ReadFails(id, true), PublishLookup(id)];
    assert [StartLookup(id)] + [CaptureGen(id), ReadFails(id, true), PublishLookup(id)] ==
      [StartLookup(id), CaptureGen(id), ReadFails(id, true), PublishLookup(id)];
  }

  /** The stored row. */
  function RowNow(s: State): Option<nat> { if s.rows == [] then None else s.rows[|s.rows| - 1] }

  /** Once the writer of the stored row has published, a cached pin is what the row says
      exactly when the last to publish selects nothing, or the same. A set that
      publishes behind a newer row stays visible instead of it. */
  lemma PinAgreesWithRowIff(row: Option<nat>, steps: seq<Step>)
    requires Legal(Init(row), steps)
    requires var s := Exec(Init(row), steps); s.newest == |s.rows| - 1 && PinCached(s)
    ensures var s := Exec(Init(row), steps);
      RowNow(s) == Some(s.cache.entry.value.model) <==> Selected(s) == None || Selected(s) == RowNow(s)
  {
    AlwaysInv(Init(row), steps);
  }

  /** Every writer of these steps writes its row first, and publishes. */
  predicate RowsFirst(steps: seq<Step>) {
    forall k :: 0 <= k < |steps| ==> !steps[k].AbandonWriter? && !steps[k].PinFirst?
  }

  /** The stored row has been published, or its writer still will. */
  ghost predicate TopIsHeld(s: State) {
    && (forall id :: id in s.writers ==> s.writers[id].WroteRow?)
    && (s.newest == |s.rows| - 1 || exists id :: id in s.writers && WroteTop(s, s.writers[id]))
  }

  predicate WroteTop(s: State, w: Writer) { w.WroteRow? && w.version == |s.rows| - 1 }

  lemma TopStep(s: State, e: Step)
    requires Inv(s) && Enabled(s, e) && !e.AbandonWriter? && !e.PinFirst? && TopIsHeld(s)
    ensures TopIsHeld(Next(s, e))
  {
    var after := Next(s, e);
    if e.WriteRow? {
      assert WroteTop(after, after.writers[e.id]);
    } else if s.newest != |s.rows| - 1 {
      var id :| id in s.writers && WroteTop(s, s.writers[id]);
      if e != PublishWriter(id) { assert id in after.writers && WroteTop(after, after.writers[id]); }
    }
  }

  lemma {:induction false} TopStays(s: State, steps: seq<Step>)
    requires Inv(s) && Legal(s, steps) && RowsFirst(steps) && TopIsHeld(s)
    ensures TopIsHeld(Exec(s, steps))
    decreases |steps|
  {
    if steps != [] {
      StepKeeps(s, steps[0]);
      TopStep(s, steps[0]);
      TopStays(Next(s, steps[0]), steps[1..]);
    }
  }

  /** Which it has whenever all wrote their rows first and none is left in between. */
  lemma NoWriterLeft(row: Option<nat>, steps: seq<Step>)
    requires Legal(Init(row), steps) && RowsFirst(steps) && Exec(Init(row), steps).writers == map[]
    ensures Exec(Init(row), steps).newest == |Exec(Init(row), steps).rows| - 1
  {
    TopStays(Init(row), steps);
  }

  /** Two sets that publish in the opposite order to their rows: the session goes on
      with a model its row does not name. */
  lemma SetsPublishCrossed(first: nat, second: nat)
    requires first != second
    ensures var steps := [WriteRow(0, Some(first)), WriteRow(1, Some(second)), PublishWriter(1), PublishWriter(0)];
      && Legal(Init(None), steps) && RowsFirst(steps)
      && var s := Exec(Init(None), steps);
      && s.writers == map[] && s.cache.entry == Some(Pin(first)) && RowNow(s) == Some(second)
  {
    var s0 := Init(None);
    var s1 := Next(s0, WriteRow(0, Some(first)));
    var s2 := Next(s1, WriteRow(1, Some(second)));
    assert s2.rows == [None, Some(first), Some(second)] && s2.writers == map[0 := WroteRow(1), 1 := WroteRow(2)];
    var s3 := Next(s2, PublishWriter(1));
    assert s3.writers == map[0 := WroteRow(1)];
    Then(s3, PublishWriter(0), []);
    Then(s2, PublishWriter(1), [PublishWriter(0)]);
    Then(s1, WriteRow(1, Some(second)), [PublishWriter(1), PublishWriter(0)]);
    Then(s0, WriteRow(0, Some(first)), [WriteRow(1, Some(second)), PublishWriter(1), PublishWriter(0)]);
    assert [PublishWriter(0)] + [] == [PublishWriter(0)];
    assert [PublishWriter(1)] + [PublishWriter(0)] == [PublishWriter(1), PublishWriter(0)];
    assert [WriteRow(1, Some(second))] + [PublishWriter(1), PublishWriter(0)] ==
      [WriteRow(1, Some(second)), PublishWriter(1), PublishWriter(0)];
    assert [WriteRow(0, Some(first))] + [WriteRow(1, Some(second)), PublishWriter(1), PublishWriter(0)] ==
      [WriteRow(0, Some(first)), WriteRow(1, Some(second)), PublishWriter(1), PublishWriter(0)];
  }

  // ------------------------------------------------ one writer at a time

  /** No writer starts while another is between its writes, and none is left there. */
  ghost predicate OneByOne(s: State, steps: seq<Step>)
    requires Legal(s, steps)
    decreases |steps|
  {
    steps == [] ||
    (&& (steps[0].WriteRow? || steps[0].PinFirst? ==> s.writers == map[]) && !steps[0].AbandonWriter?
     && OneByOne(Next(s, steps[0]), steps[1..]))
  }

  /** A lookup that no writer has overtaken has read the stored row. */
  predicate ReadsTop(s: State, l: Lookup) {
    (l.ReadRow? || l.Resolved?) && l.gen == s.cache.gen ==> l.version == |s.rows| - 1
  }

  /** A writer at work wrote the stored row, or has its pin visible. */
  predicate AtWork(s: State, w: Writer) {
    match w
    case WroteRow(_) => WroteTop(s, w)
    case PinnedFirst(model) => s.cache.entry == Some(Pin(model))
  }

  ghost predicate Agreeing(s: State) {
    && (forall id, other :: id in s.writers && other in s.writers ==> id == other)
    && (forall id :: id in s.writers ==> AtWork(s, s.writers[id]))
    && (s.writers == map[] && PinCached(s) ==> RowNow(s) == Some(s.cache.entry.value.model))
    && (s.writers == map[] && !PinCached(s) ==> forall id :: id in s.lookups ==> ReadsTop(s, s.lookups[id]))
  }

  lemma AgreeingStep(s: State, e: Step)
    requires Inv(s) && Enabled(s, e) && Agreeing(s) && !e.AbandonWriter?
    requires e.WriteRow? || e.PinFirst? ==> s.writers == map[]
    ensures Agreeing(Next(s, e))
  {
    var after := Next(s, e);
    forall id | id in after.lookups && after.writers == map[] && !PinCached(after)
      ensures ReadsTop(after, after.lookups[id])
    {
      if id in s.lookups {
        assert LookupFits(s, s.lookups[id]);
        assert s.writers == map[] && !PinCached(s) ==> ReadsTop(s, s.lookups[id]);
      }
    }
    if e.PublishLookup? { assert LookupFits(s, s.lookups[e.id]); }
  }

  lemma {:induction false} AgreeingStays(s: State, steps: seq<Step>)
    requires Inv(s) && Legal(s, steps) && OneByOne(s, steps) && Agreeing(s)
    ensures Agreeing(Exec(s, steps))
    decreases |steps|
  {
    if steps != [] {
      StepKeeps(s, steps[0]);
      AgreeingStep(s, steps[0]);
      AgreeingStays(Next(s, steps[0]), steps[1..]);
    }
  }

  /** With writers one at a time, as the backend's lock has them, and whichever of its
      two writes each does first, a cached pin is what the stored row says whenever no
      writer is at work, whatever lookups and rebuilds do meanwhile. */
  lemma PinAgreesOneByOne(row: Option<nat>, steps: seq<Step>)
    requires Legal(Init(row), steps) && OneByOne(Init(row), steps)
    ensures var s := Exec(Init(row), steps);
      s.writers == map[] && PinCached(s) ==> RowNow(s) == Some(s.cache.entry.value.model)
  {
    AlwaysInv(Init(row), steps);
    AgreeingStays(Init(row), steps);
  }

  // ------------------------------------------------------------ after a rebuild

  /** Steps of a writer that bump the generation. */
  predicate Bumps(e: Step) { e.PublishWriter? || e.PinFirst? || e.TakeBack? }

  /** The cache hides the row behind a marker whose build ran before rebuild `era`. */
  predicate HoldsStale(s: State, era: nat) {
    s.cache.entry == Some(Marker) && s.markerEra.Some? && s.markerEra.value < era
  }

  /** An unpublished marker from before rebuild `era` that no writer has overtaken. */
  predicate OldMarker(s: State, id: nat, era: nat) {
    && id in s.lookups && s.lookups[id].Resolved? && s.lookups[id].verdict == Marker
    && s.lookups[id].gen == s.cache.gen && s.lookups[id].era < era
  }

  /** No marker from before rebuild `era` is cached or can still be. */
  ghost predicate Rebuilt(s: State, era: nat) {
    && era <= s.era && !HoldsStale(s, era)
    && (PinCached(s) || forall id :: !OldMarker(s, id, era))
  }

  lemma RebuiltStep(s: State, e: Step, era: nat)
    requires Inv(s) && Enabled(s, e) && Rebuilt(s, era)
    ensures Rebuilt(Next(s, e), era)
  {
    var after := Next(s, e);
    if e.PublishLookup? {
      assert !OldMarker(s, e.id, era) || PinCached(s);
    } else if Bumps(e) {
      forall id | id in s.lookups ensures !OldMarker(after, id, era) { assert LookupFits(s, s.lookups[id]); }
    }
    forall id ensures OldMarker(after, id, era) ==> OldMarker(s, id, era) || Bumps(e) {}
  }

  lemma {:induction false} RebuiltStays(s: State, steps: seq<Step>, era: nat)
    requires Inv(s) && Legal(s, steps) && Rebuilt(s, era)
    ensures Rebuilt(Exec(s, steps), era)
    decreases |steps|
  {
    if steps != [] {
      StepKeeps(s, steps[0]);
      RebuiltStep(s, steps[0], era);
      RebuiltStays(Next(s, steps[0]), steps[1..], era);
    }
  }

  /** A rebuild re-evaluates what could not be built before: from then on no marker
      of an earlier build is ever cached, except exactly when, at the rebuild, no pin
      is cached and some lookup holds such a marker that it has not published and no
      writer has overtaken. */
  lemma RebuildReevaluatesIff(row: Option<nat>, before: seq<Step>)
    requires Legal(Init(row), before)
    ensures var s := Exec(Init(row), before);
      var swept := Next(s, Sweep);
      (exists rest :: Legal(swept, rest) && HoldsStale(Exec(swept, rest), swept.era)) <==>
        !PinCached(s) && exists id :: OldMarker(s, id, swept.era)
  {
    AlwaysInv(Init(row), before);
    var s := Exec(Init(row), before);
    var swept := Next(s, Sweep);
    StepKeeps(s, Sweep);
    forall id ensures OldMarker(swept, id, swept.era) <==> OldMarker(s, id, swept.era) {}
    if !PinCached(s) && exists id :: OldMarker(s, id, swept.era) {
      var id :| OldMarker(s, id, swept.era);
      Then(swept, PublishLookup(id), []);
      assert Legal(swept, [PublishLookup(id)] + []);
    } else {
      forall rest | Legal(swept, rest) ensures !HoldsStale(Exec(swept, rest), swept.era) {
        RebuiltStays(swept, rest, swept.era);
      }
    }
  }

  /** A lookup resolved before rebuild `era` has stood unchanged since state `s`. */
  ghost predicate OldOnes(s: State, now: State, era: nat) {
    && now.era >= era
    && forall id :: id in now.lookups && now.lookups[id].Resolved? && now.lookups[id].era < era ==>
         id in s.lookups && s.lookups[id] == now.lookups[id]
  }

  lemma {:induction false} OldOnesStay(s: State, now: State, steps: seq<Step>, era: nat)
    requires Legal(now, steps) && OldOnes(s, now, era)
    ensures OldOnes(s, Exec(now, steps), era)
    decreases |steps|
  {
    if steps != [] { OldOnesStay(s, Next(now, steps[0]), steps[1..], era); }
  }

  /** Which publish does it: a lookup puts a marker from before the rebuild into the
      cache exactly when it was resolved to that marker at the rebuild already, and
      since then nothing has been published ahead of it. */
  lemma StalePublishIff(row: Option<nat>, before: seq<Step>, rest: seq<Step>, id: nat)
    requires Legal(Init(row), before) && Legal(Next(Exec(Init(row), before), Sweep), rest)
    requires Enabled(Exec(Next(Exec(Init(row), before), Sweep), rest), PublishLookup(id))
    ensures var s := Exec(Init(row), before);
      var swept := Next(s, Sweep);
      var now := Exec(swept, rest);
      !HoldsStale(now, swept.era) ==>
        (HoldsStale(Next(now, PublishLookup(id)), swept.era) <==>
          && id in s.lookups && s.lookups[id].Resolved? && s.lookups[id].verdict == Marker
          && now.lookups[id] == s.lookups[id] && now.cache.entry.None? && now.cache.gen == s.lookups[id].gen)
  {
    AlwaysInv(Init(row), before);
    var s := Exec(Init(row), before);
    var swept := Next(s, Sweep);
    if id in s.lookups { assert LookupFits(s, s.lookups[id]); }
    OldOnesStay(s, swept, rest, swept.era);
  }

  /** The case is reached. A lookup that failed to build the pin before the rebuild
      publishes its marker after it, and the pin that could now be built stays hidden
      until the next rebuild. */
  lemma StaleMarkerSurvivesARebuild(model: nat)
    ensures var before := [StartLookup(0), CaptureGen(0), ReadStored(0), Build(0, false)];
      && Legal(Init(Some(model)), before)
      && var swept := Next(Exec(Init(Some(model)), before), Sweep);
      && Enabled(swept, PublishLookup(0)) && HoldsStale(Next(swept, PublishLookup(0)), swept.era)
  {
    var s0 := Init(Some(model));
    var s1 := Next(s0, StartLookup(0));
    var s2 := Next(s1, CaptureGen(0));
    var s3 := Next(s2, ReadStored(0));
    Then(s3, Build(0, false), []);
    Then(s2, ReadStored(0), [Build(0, false)]);
    Then(s1, CaptureGen(0), [ReadStored(0), Build(0, false)]);
    Then(s0, StartLookup(0), [CaptureGen(0), ReadStored(0), Build(0, false)]);
    assert [Build(0, false)] + [] == [Build(0, false)];
    assert [ReadStored(0)] + [Build(0, false)] == [ReadStored(0), Build(0, false)];
    assert [CaptureGen(0)] + [ReadStored(0), Build(0, false)] == [CaptureGen(0), ReadStored(0), Build(0, false)];
    assert [StartLookup(0)] + [CaptureGen(0), ReadStored(0), Build(0, false)] ==
      [StartLookup(0), CaptureGen(0), ReadStored(0), Build(0, false)];
  }

  lemma Then(s: State, e: Step, rest: seq<Step>)
    requires Enabled(s, e) && Legal(Next(s, e), rest)
    ensures Legal(s, [e] + rest) && Exec(s, [e] + rest) == Exec(Next(s, e), rest)
  {
    assert ([e] + rest)[1..] == rest;
  }
}
