/** Which markers of crashed runs a later run announces, and which are lost: exactly
    the one of its own window, and the newest one if it recovers nothing.
 */
module ReconcileLost {
  import opened Types
  import opened Correlate
  import opened Reconcile
  import opened ReconcileSafety
  import opened ReconcileTicks
  import opened ReconcileMarkers
  import Repair = ReconcileRepair
  import Timestamps

  // What may happen during one run.
  predicate DuringRun(acts: seq<Act>) { forall i :: 0 <= i < |acts| ==> !acts[i].Crash? && !acts[i].Begin? }

  predicate JustBegun(w: World) {
    w.run.Some? && w.run.value.phase == Scan(w.run.value.items) && w.run.value.recovered == 0
  }

  ghost predicate OneRun(config: Config, names: set<string>, b: World, acts: seq<Act>) {
    && Clear(config, names) && AllKept(config, names, b) && JustBegun(b)
    && AllLegal(names, acts) && DuringRun(acts)
  }

  // ---- The markers a run finds at its gap step --------------------------------

  // No marker has been stored in between.
  predicate SameMarks(events: map<string, EventRow>, later: map<string, EventRow>) {
    Grows(events, later) && forall k :: k in later && later[k].kind == ReconcileGap ==> k in events
  }

  lemma NewestStays(events: map<string, EventRow>, later: map<string, EventRow>, source: string)
    requires SameMarks(events, later)
    ensures NewestMarker(later, source) == NewestMarker(events, source)
  {
    assert MarkersOf(events, source) == MarkersOf(later, source);
    assert IsNewest(later, MarkersOf(later, source), NewestMarker(events, source));
    NewestIsUnique(later, MarkersOf(later, source), NewestMarker(later, source), NewestMarker(events, source));
  }

  // The run has its gap step behind it.
  predicate Past(p: Phase) { Closing(p) || p.Finish? }

  // Since the run began: its own part, and no marker before the gap step.
  ghost predicate Under(b: World, w: World) {
    && b.run.Some? && Grows(b.tables.events, w.tables.events)
    && (w.run.Some? ==>
          && SameRun(b.run.value, w.run.value)
          && (!Past(w.run.value.phase) ==> SameMarks(b.tables.events, w.tables.events)))
  }

  lemma NoMarkInserted(config: Config, run: Run, f: Frame)
    requires run.phase.Apply? && run.phase.calls != [] && PhaseMarks(run) && !Past(run.phase)
    ensures SameMarks(f.tables.events, Exec(config, f, run.phase.calls[0]).tables.events)
  {
    ExecGrows(config, f, run.phase.calls[0]);
  }

  lemma ApplyStaysUnder(config: Config, b: World, w: World)
    requires Under(b, w) && Marked(config, w) && w.run.Some? && w.run.value.phase.Apply?
      && w.run.value.phase.calls != []
    ensures Under(b, TickWorld(config, w))
  {
    var run, f := w.run.value, Frame(w.tables, w.run.value.phase.mediaId);
    ExecGrows(config, f, run.phase.calls[0]);
    if !Past(run.phase) { NoMarkInserted(config, run, f); }
    UnderStays(b, w, TickWorld(config, w));
  }

  lemma UnderStays(b: World, w: World, g: World)
    requires Under(b, w) && Grows(w.tables.events, g.tables.events)
    requires g.run.Some? ==>
      && w.run.Some? && SameRun(w.run.value, g.run.value) && (Past(w.run.value.phase) ==> Past(g.run.value.phase))
      && (!Past(g.run.value.phase) ==> SameMarks(w.tables.events, g.tables.events))
    ensures Under(b, g)
  {
  }

  lemma ReadStaysPast(config: Config, run: Run, events: map<string, EventRow>, engaged: bool)
    requires OnlyReads(run.phase) && Past(run.phase)
    ensures Past(ReadTick(config, run, events, engaged).phase)
  {
  }

  lemma OtherTick(config: Config, w: World)
    requires w.run.Some? && !(w.run.value.phase.Apply? && w.run.value.phase.calls != [])
    ensures var g := TickWorld(config, w);
      && g.tables.events == w.tables.events
      && (g.run.Some? && Past(w.run.value.phase) ==> Past(g.run.value.phase))
  {
    var run := w.run.value;
    if OnlyReads(run.phase) {
      if Past(run.phase) { ReadStaysPast(config, run, w.tables.events, w.engaged); }
      assert TickWorld(config, w) == w.(run := Some(ReadTick(config, run, w.tables.events, w.engaged)));
    } else if !run.phase.Finish? {
      FanTickParts(config, w);
    }
  }

  lemma OtherTickStaysUnder(config: Config, b: World, w: World)
    requires Under(b, w) && w.run.Some? && !(w.run.value.phase.Apply? && w.run.value.phase.calls != [])
    ensures Under(b, TickWorld(config, w))
  {
    TickKeepsRun(config, w);
    OtherTick(config, w);
    UnderStays(b, w, TickWorld(config, w));
  }

  lemma OutsideStaysUnder(config: Config, names: set<string>, b: World, w: World, act: Act)
    requires Under(b, w) && act.Outside? && Legal(names, act)
    ensures Under(b, Step(config, w, act))
  {
    ExecGrows(config, Frame(w.tables, act.mediaId), act.call);
  }

  lemma StepStaysUnder(config: Config, names: set<string>, b: World, w: World, act: Act)
    requires Under(b, w) && Marked(config, w) && Legal(names, act) && !act.Begin?
    ensures Under(b, Step(config, w, act))
  {
    match act
    case Outside(_, _) => OutsideStaysUnder(config, names, b, w, act);
    case Tick =>
      if w.run.Some? {
        if w.run.value.phase.Apply? && w.run.value.phase.calls != [] {
          ApplyStaysUnder(config, b, w);
        } else {
          OtherTickStaysUnder(config, b, w);
        }
      }
    case _ =>
  }

  lemma {:induction false} StaysUnder(config: Config, names: set<string>, b: World, acts: seq<Act>)
    requires OneRun(config, names, b, acts)
    ensures Under(b, Steps(config, b, acts)) && AllKept(config, names, Steps(config, b, acts))
  {
    if acts != [] {
      var n := |acts| - 1;
      StaysUnder(config, names, b, acts[..n]);
      StepStaysUnder(config, names, b, Steps(config, b, acts[..n]), acts[n]);
      StepKeepsAll(config, names, Steps(config, b, acts[..n]), acts[n]);
    }
  }

  // ---- The newest marker is announced ------------------------------------------

  ghost predicate AimsAtNewest(config: Config, w: World, key: string) {
    w.run.Some? && w.run.value.transient && !w.run.value.suppressed && w.run.value.recovered == 0 ==>
      Aims(config, w.tables, w.run.value, key)
  }

  lemma GapAimsAtNewest(config: Config, b: World, w: World, key: string)
    requires Under(b, w) && w.run.Some? && w.run.value.phase.Gap?
    requires NewestMarker(b.tables.events, b.run.value.source) == Some(key)
    ensures AimsAtNewest(config, TickWorld(config, w), key)
  {
    NewestStays(b.tables.events, w.tables.events, b.run.value.source);
  }

  lemma TickAimsAtNewest(config: Config, names: set<string>, b: World, w: World, key: string)
    requires AllKept(config, names, w) && Under(b, w) && AimsAtNewest(config, w, key)
    requires NewestMarker(b.tables.events, b.run.value.source) == Some(key)
    ensures AimsAtNewest(config, TickWorld(config, w), key)
  {
    if w.run.Some? {
      TickKeepsRun(config, w);
      var run := w.run.value;
      if run.phase.Gap? {
        GapAimsAtNewest(config, b, w, key);
      } else if run.transient && !run.suppressed && run.recovered == 0 {
        TickAims(config, w, key);
      }
    }
  }

  lemma StepAimsAtNewest(config: Config, names: set<string>, b: World, w: World, act: Act, key: string)
    requires AllKept(config, names, w) && Under(b, w) && AimsAtNewest(config, w, key) && Legal(names, act)
      && !act.Begin?
    requires NewestMarker(b.tables.events, b.run.value.source) == Some(key)
    ensures AimsAtNewest(config, Step(config, w, act), key)
  {
    match act
    case Tick => TickAimsAtNewest(config, names, b, w, key);
    case Outside(c, mediaId) =>
      ExecGrows(config, Frame(w.tables, mediaId), c);
      if w.run.Some? && Foreign(c) && Aims(config, w.tables, w.run.value, key) {
        OutsideAims(config, w.tables, Step(config, w, act).tables, w.run.value, key);
      }
    case _ =>
  }

  lemma {:induction false} NewestIsAimedAt(config: Config, names: set<string>, b: World, acts: seq<Act>, key: string)
    requires OneRun(config, names, b, acts)
    requires NewestMarker(b.tables.events, b.run.value.source) == Some(key)
    ensures AimsAtNewest(config, Steps(config, b, acts), key)
  {
    if acts != [] {
      var n := |acts| - 1;
      NewestIsAimedAt(config, names, b, acts[..n], key);
      StaysUnder(config, names, b, acts[..n]);
      StepAimsAtNewest(config, names, b, Steps(config, b, acts[..n]), acts[n], key);
    }
  }

  // ---- Every other one is spared -------------------------------------------------

  predicate NotAmong(key: string, todo: seq<Item>) { forall i :: 0 <= i < |todo| ==> todo[i].event.key != key }

  // The event the run is about to announce, if any.
  predicate Handles(p: Phase, key: string) {
    match p
    case Apply(e, _, _, _, _, _, _) => e.key == key
    case Decide(k, _, _, _) => k == key
    case FanOut(k, _, _) => k == key
    case _ => false
  }

  // The run has not taken the branch of the gap step that repairs the newest
  // marker, or that is another one.
  predicate Direct(run: Run, newest: bool) { !newest || run.recovered > 0 || !Past(run.phase) }

  predicate Sparing(run: Run, key: string, newest: bool) {
    NotAmong(key, Repair.Pending(run.phase)) && (Direct(run, newest) ==> !Handles(run.phase, key))
  }

  lemma GuardSpares(config: Config, run: Run, events: map<string, EventRow>, engaged: bool, key: string, newest: bool)
    requires run.phase.Guard? && Sparing(run, key, newest)
    ensures Sparing(ReadTick(config, run, events, engaged), key, newest)
  {
    var p := run.phase;
    assert Repair.Pending(p)[0] == p.item && Repair.Pending(p)[1..] == p.rest;
  }

  lemma ScanSpares(config: Config, run: Run, events: map<string, EventRow>, engaged: bool, key: string, newest: bool)
    requires run.phase.Scan? && Sparing(run, key, newest)
    ensures Sparing(ReadTick(config, run, events, engaged), key, newest)
  {
    var todo := run.phase.todo;
    if todo != [] { assert todo[0].event.key != key; }
  }

  lemma GapSpares(config: Config, run: Run, events: map<string, EventRow>, engaged: bool, key: string, newest: bool)
    requires run.phase.Gap? && key != OwnKey(run) && (!newest ==> NewestMarker(events, run.source) != Some(key))
    ensures Sparing(ReadTick(config, run, events, engaged), key, newest)
  {
  }

  lemma OtherReadSpares(config: Config, run: Run, events: map<string, EventRow>, engaged: bool, key: string,
                        newest: bool)
    requires OnlyReads(run.phase) && (run.phase.Apply? || run.phase.Decide? || run.phase.FanOut?)
    requires Sparing(run, key, newest)
    ensures var r := ReadTick(config, run, events, engaged);
      Sparing(r, key, newest) && (Direct(r, newest) ==> Direct(run, newest))
  {
  }

  lemma ReadSpares(config: Config, run: Run, events: map<string, EventRow>, engaged: bool, key: string, newest: bool)
    requires OnlyReads(run.phase) && Sparing(run, key, newest) && key != OwnKey(run)
    requires run.phase.Gap? && !newest ==> NewestMarker(events, run.source) != Some(key)
    ensures var r := ReadTick(config, run, events, engaged);
      Sparing(r, key, newest) && (Direct(r, newest) ==> Direct(run, newest))
  {
    match run.phase
    case Scan(_) => ScanSpares(config, run, events, engaged, key, newest);
    case Guard(_, _) => GuardSpares(config, run, events, engaged, key, newest);
    case Gap => GapSpares(config, run, events, engaged, key, newest);
    case _ => OtherReadSpares(config, run, events, engaged, key, newest);
  }

  ghost predicate Newest(b: World, key: string) {
    b.run.Some? && NewestMarker(b.tables.events, b.run.value.source) == Some(key)
  }

  ghost predicate Spares(b: World, w: World, key: string) {
    b.run.Some? && (w.run.Some? ==>
      && Sparing(w.run.value, key, Newest(b, key))
      && (Direct(w.run.value, Newest(b, key)) ==> NoNewRow(b.fanned, w.fanned, key)))
  }

  lemma FanSpares(config: Config, b: World, w: World, key: string)
    requires w.run.Some? && w.run.value.phase.FanOut? && w.run.value.phase.channels != [] && Spares(b, w, key)
    ensures Spares(b, TickWorld(config, w), key)
  {
    FanTickParts(config, w);
    if Direct(w.run.value, Newest(b, key)) { assert w.run.value.phase.key != key; }
  }

  lemma ApplySpares(config: Config, b: World, w: World, key: string)
    requires w.run.Some? && w.run.value.phase.Apply? && w.run.value.phase.calls != [] && Spares(b, w, key)
    ensures Spares(b, TickWorld(config, w), key)
  {
  }

  lemma ReadTickSpares(config: Config, b: World, w: World, key: string)
    requires w.run.Some? && OnlyReads(w.run.value.phase) && Spares(b, w, key) && Under(b, w)
    requires key != OwnKey(b.run.value)
    ensures Spares(b, TickWorld(config, w), key)
  {
    var run := w.run.value;
    SameKey(b.run.value, run);
    if run.phase.Gap? { NewestStays(b.tables.events, w.tables.events, run.source); }
    ReadSpares(config, run, w.tables.events, w.engaged, key, Newest(b, key));
    assert TickWorld(config, w) == w.(run := Some(ReadTick(config, run, w.tables.events, w.engaged)));
  }

  lemma TickSpares(config: Config, b: World, w: World, key: string)
    requires Spares(b, w, key) && Under(b, w) && key != OwnKey(b.run.value)
    ensures Spares(b, TickWorld(config, w), key)
  {
    if w.run.Some? {
      var p := w.run.value.phase;
      if OnlyReads(p) {
        ReadTickSpares(config, b, w, key);
      } else if p.Apply? {
        ApplySpares(config, b, w, key);
      } else if p.FanOut? {
        FanSpares(config, b, w, key);
      }
    }
  }

  lemma {:induction false} RunSpares(config: Config, names: set<string>, b: World, acts: seq<Act>, key: string)
    requires OneRun(config, names, b, acts)
    requires NotAmong(key, b.run.value.items) && key != OwnKey(b.run.value)
    ensures Spares(b, Steps(config, b, acts), key)
  {
    if acts != [] {
      var n := |acts| - 1;
      RunSpares(config, names, b, acts[..n], key);
      StaysUnder(config, names, b, acts[..n]);
      if acts[n].Tick? { TickSpares(config, b, Steps(config, b, acts[..n]), key); }
    }
  }

  // ---- Rows and the runs that make them -------------------------------------------

  // Nobody else notifies for the event.
  predicate Undisturbed(acts: seq<Act>, key: string) {
    forall i :: 0 <= i < |acts| && acts[i].Outside? && acts[i].call.Notify? ==> acts[i].call.key.eventKey != key
  }

  // Every new ledger row of the event is one that reconcile made.
  predicate RowsFanned(b: World, w: World, key: string) {
    && b.fanned <= w.fanned
    && forall k :: k in w.tables.ledger && k !in b.tables.ledger && k.eventKey == key ==>
         exists i :: |b.fanned| <= i < |w.fanned| && w.fanned[i].key == k
  }

  lemma FannedMore(b: World, w: World, g: World, key: string, f: Fanned)
    requires RowsFanned(b, w, key) && g.fanned == w.fanned + [f]
    requires forall k :: k in g.tables.ledger && k !in w.tables.ledger ==> k == f.key
    ensures RowsFanned(b, g, key)
  {
    forall k | k in g.tables.ledger && k !in b.tables.ledger && k.eventKey == key
      ensures exists i :: |b.fanned| <= i < |g.fanned| && g.fanned[i].key == k
    {
      if k in w.tables.ledger {
        var i :| |b.fanned| <= i < |w.fanned| && w.fanned[i].key == k;
        assert g.fanned[i].key == k;
      } else {
        assert g.fanned[|w.fanned|].key == k;
      }
    }
  }

  lemma TickRowsFanned(config: Config, b: World, w: World, key: string)
    requires RowsFanned(b, w, key)
    requires w.run.Some? && w.run.value.phase.Apply? ==>
      forall i :: 0 <= i < |w.run.value.phase.calls| ==> !w.run.value.phase.calls[i].Notify?
    ensures RowsFanned(b, TickWorld(config, w), key)
  {
    if w.run.Some? {
      var run, p, g := w.run.value, w.run.value.phase, TickWorld(config, w);
      if p.Apply? && p.calls != [] {
        ExecGrows(config, Frame(w.tables, p.mediaId), p.calls[0]);
      } else if p.FanOut? && p.channels != [] {
        var k := NoteKey(p.key, p.channels[0]);
        if k !in w.tables.ledger { FannedMore(b, w, g, key, Fanned(k, run.source, run.now)); }
      }
    }
  }

  lemma StepRowsFanned(config: Config, b: World, w: World, act: Act, key: string)
    requires RowsFanned(b, w, key) && (act.Outside? && act.call.Notify? ==> act.call.key.eventKey != key)
    requires w.run.Some? && w.run.value.phase.Apply? ==>
      forall i :: 0 <= i < |w.run.value.phase.calls| ==> !w.run.value.phase.calls[i].Notify?
    ensures RowsFanned(b, Step(config, w, act), key)
  {
    match act
    case Outside(c, mediaId) => ExecGrows(config, Frame(w.tables, mediaId), c);
    case Tick => TickRowsFanned(config, b, w, key);
    case _ =>
  }

  lemma {:induction false} RunRowsFanned(config: Config, names: set<string>, b: World, acts: seq<Act>, key: string)
    requires OneRun(config, names, b, acts)
    requires Undisturbed(acts, key)
    ensures RowsFanned(b, Steps(config, b, acts), key)
  {
    if acts != [] {
      var n := |acts| - 1;
      RunRowsFanned(config, names, b, acts[..n], key);
      StaysUnder(config, names, b, acts[..n]);
      StepRowsFanned(config, b, Steps(config, b, acts[..n]), acts[n], key);
    }
  }

  lemma NoneMade(b: World, w: World, key: string)
    requires RowsFanned(b, w, key) && NoNewRow(b.fanned, w.fanned, key)
    ensures forall k :: k in w.tables.ledger && k.eventKey == key ==> k in b.tables.ledger
  {
  }

  // ---- The result ----------------------------------------------------------------

  // A stored marker of the source, as the run about to begin finds it.
  predicate Waiting(names: set<string>, w: World, begin: Act, key: string) {
    && begin.Begin? && Legal(names, begin) && CanBegin(w, begin.source, begin.now)
       && OwnItems(begin.source, begin.items)
    && key in w.tables.events && w.tables.events[key].kind == ReconcileGap
       && w.tables.events[key].source == begin.source
  }

  function WindowOf(w: World, begin: Act): Time
    requires begin.Begin?
  {
    WindowStart(w.cursors, begin.source, begin.now)
  }

  // A run repairs this marker: it is that of its window, or the newest, and then
  // only if the run recovers nothing.
  ghost predicate Chosen(config: Config, w: World, begin: Act, key: string, recovered: nat)
    requires begin.Begin?
  {
    key == GapKey(begin.source, config.text(WindowOf(w, begin))) ||
    (recovered == 0 && NewestMarker(w.tables.events, begin.source) == Some(key))
  }

  lemma BegunIsKept(config: Config, names: set<string>, w: World, begin: Act, key: string) returns (b: World)
    requires Clear(config, names) && AllKept(config, names, w) && Waiting(names, w, begin, key)
    ensures b == Step(config, w, begin) && AllKept(config, names, b) && JustBegun(b)
    ensures b.tables == w.tables && b.fanned == w.fanned && b.cursors == w.cursors
    ensures b.run.value.source == begin.source && b.run.value.now == begin.now && b.run.value.items == begin.items
    ensures b.run.value.transient == begin.transient && b.run.value.windowStart == WindowOf(w, begin)
    ensures b.run.value.window == config.text(WindowOf(w, begin))
  {
    b := Step(config, w, begin);
    StepKeepsAll(config, names, w, begin);
  }

  // No item of an answer is keyed as a marker.
  lemma MarkIsNoItem(names: set<string>, events: map<string, EventRow>, source: string, items: seq<Item>, key: string)
    requires RowsNamed(names, events) && ItemsOwn(names, source, items)
    requires key in events && events[key].kind == ReconcileGap && events[key].source == source
    ensures NotAmong(key, items)
  {
    assert IsMarkerKey(source, key);
  }

  lemma OtherWindow(config: Config, source: string, a: Time, b: Time)
    requires Timestamps.Prints(config.text)
    requires a != b
    ensures GapKey(source, config.text(a)) != GapKey(source, config.text(b))
  {
    var n := |GapPrefix(source)|;
    assert GapKey(source, config.text(a))[n..] == config.text(a)
      && GapKey(source, config.text(b))[n..] == config.text(b);
  }

  lemma EarlierMark(config: Config, key: string, row: EventRow, cursors: map<string, Time>, now: Time)
    requires Timestamps.Prints(config.text)
    requires MarkOk(config, key, row, cursors) && row.source !in cursors && row.receivedAt < now
    ensures key != GapKey(row.source, config.text(WindowStart(cursors, row.source, now)))
  {
    OtherWindow(config, row.source, WindowStart(cursors, row.source, row.receivedAt),
      WindowStart(cursors, row.source, now));
  }

  // Without a cursor the run's own window is new: no run before had the same clock.
  lemma NoOwnMarkYet(config: Config, names: set<string>, w: World, begin: Act, key: string)
    requires Timestamps.Prints(config.text)
    requires ReceiptsOk(w.tables.events, w.last) && Marked(config, w) && Waiting(names, w, begin, key)
    requires begin.source !in w.cursors
    ensures key != GapKey(begin.source, config.text(WindowOf(w, begin)))
  {
    EarlierMark(config, key, w.tables.events[key], w.cursors, begin.now);
  }

  lemma RepairedFrom(config: Config, names: set<string>, w: World, begin: Act, during: seq<Act>, key: string)
    requires Clear(config, names) && AllKept(config, names, w) && Waiting(names, w, begin, key) && begin.transient
    requires AllLegal(names, during) && DuringRun(during) && Undisturbed(during, key)
    requires !Repair.FannedOut(config, w.tables, WindowOf(w, begin), key)
    requires var g := Steps(config, Step(config, w, begin), during);
      g.run.Some? && g.run.value.phase.Finish? && !g.run.value.suppressed
    ensures var g := Steps(config, Step(config, w, begin), during);
      Repair.FannedOut(config, g.tables, WindowOf(w, begin), key) <==>
        Chosen(config, w, begin, key, g.run.value.recovered)
  {
    var b := BegunIsKept(config, names, w, begin, key);
    var g := Steps(config, b, during);
    StaysUnder(config, names, b, during);
    if Chosen(config, w, begin, key, g.run.value.recovered) {
      ChosenIsAnnounced(config, names, w, begin, b, during, key);
    } else {
      OtherIsSpared(config, names, w, begin, b, during, key);
      RunRowsFanned(config, names, b, during, key);
      NoneMade(b, g, key);
      StillOwes(config, w.tables, g.tables, WindowOf(w, begin), key);
    }
  }

  lemma StillOwes(config: Config, t: Tables, u: Tables, windowStart: Time, key: string)
    requires !Repair.FannedOut(config, t, windowStart, key) && Grows(t.events, u.events)
    requires forall k :: k in u.ledger && k.eventKey == key ==> k in t.ledger
    ensures !Repair.FannedOut(config, u, windowStart, key)
  {
    var ch :| ch in ChannelsFor(config.rules, t.events[key].kind, t.events[key].source)
      && NoteKey(key, ch) !in t.ledger;
    assert NoteKey(key, ch) !in u.ledger;
  }

  lemma SameRunYet(config: Config, names: set<string>, b: World, during: seq<Act>)
    requires OneRun(config, names, b, during)
    ensures var g := Steps(config, b, during); g.run.Some? ==> SameRun(b.run.value, g.run.value)
  {
    StaysUnder(config, names, b, during);
  }

  lemma AimedAndDone(config: Config, w: World, key: string)
    requires AimsAtNewest(config, w, key) && w.run.Some? && w.run.value.phase.Finish?
    requires w.run.value.transient && !w.run.value.suppressed && w.run.value.recovered == 0
    ensures Repair.FannedOut(config, w.tables, w.run.value.windowStart, key)
  {
  }

  lemma OwnIsAnnounced(config: Config, names: set<string>, b: World, during: seq<Act>)
    requires OneRun(config, names, b, during)
    requires b.run.value.transient && b.run.value.source in b.cursors
    requires var g := Steps(config, b, during); g.run.Some? && g.run.value.phase.Finish? && !g.run.value.suppressed
    ensures Repair.FannedOut(config, Steps(config, b, during).tables, b.run.value.windowStart, OwnKey(b.run.value))
  {
    StaysUnder(config, names, b, during);
    CursorsStay(config, b, during);
    SameKey(b.run.value, Steps(config, b, during).run.value);
  }

  lemma NewestIsAnnounced(config: Config, names: set<string>, b: World, during: seq<Act>, key: string)
    requires OneRun(config, names, b, during)
    requires b.run.value.transient && NewestMarker(b.tables.events, b.run.value.source) == Some(key)
    requires var g := Steps(config, b, during);
      g.run.Some? && g.run.value.phase.Finish? && !g.run.value.suppressed && g.run.value.recovered == 0
    ensures Repair.FannedOut(config, Steps(config, b, during).tables, b.run.value.windowStart, key)
  {
    SameRunYet(config, names, b, during);
    NewestIsAimedAt(config, names, b, during, key);
    AimedAndDone(config, Steps(config, b, during), key);
  }

  lemma ChosenIsAnnounced(config: Config, names: set<string>, w: World, begin: Act, b: World, during: seq<Act>,
                          key: string)
    requires Clear(config, names) && AllKept(config, names, w) && Waiting(names, w, begin, key) && begin.transient
    requires b == Step(config, w, begin) && AllLegal(names, during) && DuringRun(during)
    requires var g := Steps(config, b, during);
      && g.run.Some? && g.run.value.phase.Finish? && !g.run.value.suppressed
      && Chosen(config, w, begin, key, g.run.value.recovered)
    ensures Repair.FannedOut(config, Steps(config, b, during).tables, WindowOf(w, begin), key)
  {
    var begun := BegunIsKept(config, names, w, begin, key);
    if key == GapKey(begin.source, config.text(WindowOf(w, begin))) {
      if begin.source !in w.cursors { NoOwnMarkYet(config, names, w, begin, key); }
      OwnIsAnnounced(config, names, b, during);
    } else {
      NewestIsAnnounced(config, names, b, during, key);
    }
  }

  // A run's cursor moves at its end only.
  lemma {:induction false} CursorsStay(config: Config, b: World, acts: seq<Act>)
    requires JustBegun(b) && DuringRun(acts) && Steps(config, b, acts).run.Some?
    ensures Steps(config, b, acts).cursors == b.cursors
  {
    if acts != [] {
      var n := |acts| - 1;
      var w := Steps(config, b, acts[..n]);
      if acts[n].Tick? && w.run.Some? { TickKeepsRun(config, w); }
      CursorsStay(config, b, acts[..n]);
    }
  }

  lemma OtherIsSpared(config: Config, names: set<string>, w: World, begin: Act, b: World, during: seq<Act>, key: string)
    requires Clear(config, names) && AllKept(config, names, w) && Waiting(names, w, begin, key)
    requires b == Step(config, w, begin) && AllLegal(names, during) && DuringRun(during)
    requires var g := Steps(config, b, during);
      g.run.Some? && g.run.value.phase.Finish? && !Chosen(config, w, begin, key, g.run.value.recovered)
    ensures NoNewRow(w.fanned, Steps(config, b, during).fanned, key)
  {
    var begun := BegunIsKept(config, names, w, begin, key);
    MarkIsNoItem(names, w.tables.events, begin.source, begin.items, key);
    RunSpares(config, names, b, during, key);
  }

  lemma LostFrom(config: Config, names: set<string>, w: World, begin: Act, during: seq<Act>, later: seq<Act>,
                 key: string)
    requires Clear(config, names) && AllKept(config, names, w) && Waiting(names, w, begin, key)
    requires AllLegal(names, during) && DuringRun(during) && AllLegal(names, later)
    requires var g := Steps(config, Step(config, w, begin), during);
      g.run.Some? && g.run.value.phase.Finish? && !Chosen(config, w, begin, key, g.run.value.recovered)
    ensures var g := Steps(config, Step(config, w, begin), during);
      NoNewRow(w.fanned, Steps(config, TickWorld(config, g), later).fanned, key)
  {
    var b := BegunIsKept(config, names, w, begin, key);
    var g := Steps(config, b, during);
    OtherIsSpared(config, names, w, begin, b, during, key);
    StaysUnder(config, names, b, during);
    FinishedIsBehind(config, names, g, key);
    BehindTheCursorIsFinal(config, names, TickWorld(config, g), later, key);
  }

  lemma FinishedIsBehind(config: Config, names: set<string>, w: World, key: string)
    requires Clear(config, names) && AllKept(config, names, w) && w.run.Some? && w.run.value.phase.Finish?
    requires key in w.tables.events && w.tables.events[key].kind == ReconcileGap
      && w.tables.events[key].source == w.run.value.source
    ensures Behind(names, TickWorld(config, w), TickWorld(config, w), key) && TickWorld(config, w).fanned == w.fanned
  {
    StepIsSafe(config, names, w, Tick);
  }

  // Two runs of a source share a window, and so the key of their marker, if and
  // only if there is a cursor.
  lemma WindowsOfRuns(config: Config, cursors: map<string, Time>, source: string, crashed: Time, now: Time)
    requires Timestamps.Prints(config.text)
    requires crashed < now
    ensures var first, second := WindowStart(cursors, source, crashed), WindowStart(cursors, source, now);
      GapKey(source, config.text(first)) == GapKey(source, config.text(second)) <==> source in cursors
  {
    if source !in cursors {
      OtherWindow(config, source, WindowStart(cursors, source, crashed), WindowStart(cursors, source, now));
    }
  }

  // At the end of an unsilenced run of a source with flag-only kinds, whatever
  // came before it, a stored marker that owed rows when the run began has them if
  // and only if the run's choice fell on it, cursor or not.
  lemma RepairedIff(config: Config, names: set<string>, before: seq<Act>, begin: Act, during: seq<Act>, key: string)
    requires Clear(config, names) && AllLegal(names, before) && AllLegal(names, during) && DuringRun(during)
    requires Waiting(names, Steps(config, Empty(BLANK), before), begin, key) && begin.transient
      && Undisturbed(during, key)
    requires var w := Steps(config, Empty(BLANK), before); !Repair.FannedOut(config, w.tables, WindowOf(w, begin), key)
    requires var g := Steps(config, Step(config, Steps(config, Empty(BLANK), before), begin), during);
      g.run.Some? && g.run.value.phase.Finish? && !g.run.value.suppressed
    ensures var w := Steps(config, Empty(BLANK), before); var g := Steps(config, Step(config, w, begin), during);
      Repair.FannedOut(config, g.tables, WindowOf(w, begin), key) <==>
        Chosen(config, w, begin, key, g.run.value.recovered)
  {
    KeepsAllFrom(config, names, Empty(BLANK), before);
    RepairedFrom(config, names, Steps(config, Empty(BLANK), before), begin, during, key);
  }

  // And a marker the run did not choose is lost, silenced run or not: reconcile
  // never makes a row for it again, whatever happens later.
  lemma OtherMarkerIsLost(config: Config, names: set<string>, before: seq<Act>, begin: Act, during: seq<Act>,
                          later: seq<Act>, key: string)
    requires Clear(config, names) && AllLegal(names, before) && AllLegal(names, during) && DuringRun(during)
    requires Waiting(names, Steps(config, Empty(BLANK), before), begin, key) && AllLegal(names, later)
    requires var w := Steps(config, Empty(BLANK), before); var g := Steps(config, Step(config, w, begin), during);
      g.run.Some? && g.run.value.phase.Finish? && !Chosen(config, w, begin, key, g.run.value.recovered)
    ensures var w := Steps(config, Empty(BLANK), before); var g := Steps(config, Step(config, w, begin), during);
      NoNewRow(w.fanned, Steps(config, TickWorld(config, g), later).fanned, key)
  {
    KeepsAllFrom(config, names, Empty(BLANK), before);
    LostFrom(config, names, Steps(config, Empty(BLANK), before), begin, during, later, key);
  }
}
