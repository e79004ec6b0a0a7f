/** What becomes of a gap marker whose run died before announcing it: from a stored
    cursor the next run announces it; without one it can be lost for good.
 */
module ReconcileMarkers {
  import opened Types
  import opened Events
  import opened Correlate
  import opened Reconcile
  import opened ReconcileSafety
  import opened ReconcileTicks
  import Repair = ReconcileRepair
  import Like
  import Timestamps

  // ---- Markers past the cursor -----------------------------------------------

  // A marker is reconcile's own. One received after its source's cursor is that of
  // the current window; while there is no cursor, each is that of its own run's.
  predicate MarkOk(config: Config, k: string, row: EventRow, cursors: map<string, Time>) {
    && row.origin == Origin.Reconcile
    && (row.source !in cursors || cursors[row.source] < row.receivedAt ==>
          k == GapKey(row.source, config.text(WindowStart(cursors, row.source, row.receivedAt))))
  }

  predicate MarksOk(config: Config, events: map<string, EventRow>, cursors: map<string, Time>) {
    forall k :: k in events && events[k].kind == ReconcileGap ==> MarkOk(config, k, events[k], cursors)
  }

  function NextOf(p: Phase): Option<Next> {
    match p
    case Apply(_, _, _, _, _, _, next) => Some(next)
    case Decide(_, _, _, next) => Some(next)
    case FanOut(_, _, next) => Some(next)
    case _ => None
  }

  // The run is past its gap step.
  predicate Closing(p: Phase) { NextOf(p) == Some(NextFinish) }

  function OwnKey(run: Run): string { GapKey(run.source, run.window) }

  predicate NoMarks(todo: seq<Item>) { forall i :: 0 <= i < |todo| ==> todo[i].event.kind != ReconcileGap }

  // Only the gap step applies a marker, and only that of its own window.
  predicate PhaseMarks(run: Run) {
    match run.phase
    case Scan(todo) => NoMarks(todo)
    case Guard(item, rest) => item.event.kind != ReconcileGap && NoMarks(rest)
    case Apply(e, _, _, calls, _, _, next) =>
      && (forall i :: 0 <= i < |calls| && calls[i].InsertEvent? ==> calls[i] == InsertEvent(e, run.now))
      && (if next.NextFinish? then e == Marker(run) else e.kind != ReconcileGap && NoMarks(next.todo))
    case Decide(_, _, _, next) => next.NextItems? ==> NoMarks(next.todo)
    case FanOut(_, _, next) => next.NextItems? ==> NoMarks(next.todo)
    case _ => true
  }

  ghost predicate Marked(config: Config, w: World) {
    && MarksOk(config, w.tables.events, w.cursors)
    && (w.run.Some? ==> PhaseMarks(w.run.value) && OnWindow(config, w.run.value, w.cursors))
  }

  predicate OnWindow(config: Config, run: Run, cursors: map<string, Time>) {
    run.windowStart == WindowStart(cursors, run.source, run.now) && run.window == config.text(run.windowStart)
  }

  lemma GuardIsMarked(config: Config, run: Run, events: map<string, EventRow>, engaged: bool)
    requires run.phase.Guard? && PhaseMarks(run)
    ensures PhaseMarks(ReadTick(config, run, events, engaged))
  {
    ApplyCallsInsert(run.phase.item.event, run.now);
  }

  lemma GapIsMarked(config: Config, run: Run, events: map<string, EventRow>, engaged: bool)
    requires run.phase.Gap?
    ensures PhaseMarks(ReadTick(config, run, events, engaged))
  {
    ApplyCallsInsert(Marker(run), run.now);
    assert run.recovered != 0 ==> Marker(ReadTick(config, run, events, engaged)) == Marker(run);
  }

  lemma OtherReadIsMarked(config: Config, run: Run, events: map<string, EventRow>, engaged: bool)
    requires OnlyReads(run.phase) && PhaseMarks(run) && !run.phase.Guard? && !run.phase.Gap?
    ensures PhaseMarks(ReadTick(config, run, events, engaged))
  {
  }

  lemma ReadIsMarked(config: Config, run: Run, events: map<string, EventRow>, engaged: bool)
    requires OnlyReads(run.phase) && PhaseMarks(run)
    ensures PhaseMarks(ReadTick(config, run, events, engaged))
  {
    if run.phase.Guard? { GuardIsMarked(config, run, events, engaged); }
    else if run.phase.Gap? { GapIsMarked(config, run, events, engaged); }
    else { OtherReadIsMarked(config, run, events, engaged); }
  }

  // Storing this run's own marker keeps the markers in order.
  lemma OwnMarkIsOk(config: Config, run: Run, events: map<string, EventRow>, later: map<string, EventRow>,
                    cursors: map<string, Time>)
    requires MarksOk(config, events, cursors) && Grows(events, later) && OnWindow(config, run, cursors)
    requires forall k :: k in later && k !in events && later[k].kind == ReconcileGap ==> IsOwnMark(run, k, later[k])
    ensures MarksOk(config, later, cursors)
  {
  }

  predicate IsOwnMark(run: Run, k: string, row: EventRow) {
    k == OwnKey(run) && row.source == run.source && row.origin == Origin.Reconcile && row.receivedAt == run.now
  }

  lemma InsertedMark(config: Config, run: Run, f: Frame)
    requires run.phase.Apply? && run.phase.calls != [] && PhaseMarks(run)
    ensures var later := Exec(config, f, run.phase.calls[0]).tables.events;
      forall k :: k in later && k !in f.tables.events && later[k].kind == ReconcileGap ==> IsOwnMark(run, k, later[k])
  {
    ExecGrows(config, f, run.phase.calls[0]);
  }

  lemma ApplyIsMarked(config: Config, names: set<string>, w: World)
    requires Safe(names, w) && Marked(config, w) && w.run.Some? && w.run.value.phase.Apply?
      && w.run.value.phase.calls != []
    ensures Marked(config, TickWorld(config, w))
  {
    var run, f := w.run.value, Frame(w.tables, w.run.value.phase.mediaId);
    ExecGrows(config, f, run.phase.calls[0]);
    InsertedMark(config, run, f);
    OwnMarkIsOk(config, run, w.tables.events, TickWorld(config, w).tables.events, w.cursors);
  }

  lemma FinishIsMarked(config: Config, names: set<string>, w: World)
    requires Safe(names, w) && Marked(config, w) && w.run.Some? && w.run.value.phase.Finish?
    ensures Marked(config, TickWorld(config, w))
  {
  }

  lemma FanIsMarked(config: Config, w: World)
    requires Marked(config, w) && w.run.Some? && w.run.value.phase.FanOut? && w.run.value.phase.channels != []
    ensures Marked(config, TickWorld(config, w))
  {
  }

  lemma ReadTickIsMarked(config: Config, names: set<string>, w: World)
    requires Marked(config, w) && w.run.Some? && OnlyReads(w.run.value.phase)
    ensures Marked(config, TickWorld(config, w))
  {
    var run := w.run.value;
    ReadIsMarked(config, run, w.tables.events, w.engaged);
    ReadKeepsRun(config, run, w.tables.events, w.engaged);
    assert TickWorld(config, w) == w.(run := Some(ReadTick(config, run, w.tables.events, w.engaged)));
  }

  lemma TickIsMarked(config: Config, names: set<string>, w: World)
    requires Safe(names, w) && Marked(config, w) && w.run.Some?
    ensures Marked(config, TickWorld(config, w))
  {
    var p := w.run.value.phase;
    if p.Finish? { FinishIsMarked(config, names, w); }
    else if p.Apply? && p.calls != [] { ApplyIsMarked(config, names, w); }
    else if OnlyReads(p) { ReadTickIsMarked(config, names, w); }
    else { FanIsMarked(config, w); }
  }

  lemma BeginIsMarked(config: Config, names: set<string>, w: World, act: Act)
    requires Marked(config, w) && act.Begin? && Legal(names, act)
    ensures Marked(config, Step(config, w, act))
  {
    assert NoMarks(act.items);
  }

  lemma OutsideIsMarked(config: Config, names: set<string>, w: World, act: Act)
    requires Marked(config, w) && act.Outside? && Legal(names, act)
    ensures Marked(config, Step(config, w, act))
  {
    ExecGrows(config, Frame(w.tables, act.mediaId), act.call);
  }

  lemma StepIsMarked(config: Config, names: set<string>, w: World, act: Act)
    requires Safe(names, w) && Marked(config, w) && Legal(names, act)
    ensures Marked(config, Step(config, w, act))
  {
    match act
    case Begin(_, _, _, _) => BeginIsMarked(config, names, w, act);
    case Outside(_, _) => OutsideIsMarked(config, names, w, act);
    case Tick => if w.run.Some? { TickIsMarked(config, names, w); }
    case Crash =>
    case Flip(_) =>
  }

  // ---- A run that aims at a marker -----------------------------------------------

  // Past its gap step the run is giving the marker the rows it owes, or has.
  predicate Aims(config: Config, t: Tables, run: Run, key: string) {
    match run.phase
    case Apply(e, _, _, _, _, _, next) => next.NextFinish? ==> e.key == key
    case Decide(k, _, _, next) => next.NextFinish? ==> k == key || Repair.FannedOut(config, t, run.windowStart, key)
    case FanOut(k, _, next) => next.NextFinish? ==> k == key || Repair.FannedOut(config, t, run.windowStart, key)
    case Finish => Repair.FannedOut(config, t, run.windowStart, key)
    case _ => true
  }

  lemma FannedStaysOut(config: Config, t: Tables, u: Tables, windowStart: Time, key: string)
    requires Repair.FannedOut(config, t, windowStart, key)
    requires Grows(t.events, u.events) && t.ledger.Keys <= u.ledger.Keys
    requires key in u.events && key !in t.events ==> u.events[key].origin == Origin.Webhook
    ensures Repair.FannedOut(config, u, windowStart, key)
  {
  }

  lemma OtherReadAims(config: Config, run: Run, t: Tables, engaged: bool, key: string)
    requires Repair.PhaseFacts(config, run, t) && PhaseMarks(run) && Aims(config, t, run, key)
    requires OnlyReads(run.phase) && !run.phase.Gap? && run.transient
    ensures var r := ReadTick(config, run, t.events, engaged); r.suppressed || Aims(config, t, r, key)
  {
  }

  lemma FanTickParts(config: Config, w: World)
    requires w.run.Some? && w.run.value.phase.FanOut? && w.run.value.phase.channels != []
    ensures var g, run, p := TickWorld(config, w), w.run.value, w.run.value.phase;
      && g.tables.events == w.tables.events && w.tables.ledger.Keys <= g.tables.ledger.Keys && g.cursors == w.cursors
      && g.run == Some(run.(phase := FanOut(p.key, p.channels[1..], p.next)))
      && w.fanned <= g.fanned
      && forall i :: |w.fanned| <= i < |g.fanned| ==> g.fanned[i].key.eventKey == p.key
  {
  }

  lemma FanAims(config: Config, w: World, key: string)
    requires w.run.Some? && w.run.value.phase.FanOut? && w.run.value.phase.channels != []
    requires Aims(config, w.tables, w.run.value, key)
    ensures var g := TickWorld(config, w); g.run.Some? && Aims(config, g.tables, g.run.value, key)
  {
    var g, run := TickWorld(config, w), w.run.value;
    FanTickParts(config, w);
    if Repair.FannedOut(config, w.tables, run.windowStart, key) {
      FannedStaysOut(config, w.tables, g.tables, run.windowStart, key);
    }
  }

  lemma ApplyAims(config: Config, w: World, key: string)
    requires w.run.Some? && w.run.value.phase.Apply? && w.run.value.phase.calls != []
    requires Aims(config, w.tables, w.run.value, key)
    ensures var g := TickWorld(config, w); g.run.Some? && Aims(config, g.tables, g.run.value, key)
  {
  }

  lemma OutsideAims(config: Config, t: Tables, u: Tables, run: Run, key: string)
    requires Aims(config, t, run, key) && Grows(t.events, u.events) && t.ledger.Keys <= u.ledger.Keys
    requires key in u.events && key !in t.events ==> u.events[key].origin == Origin.Webhook
    ensures Aims(config, u, run, key)
  {
    if Repair.FannedOut(config, t, run.windowStart, key) { FannedStaysOut(config, t, u, run.windowStart, key); }
  }

  // Any tick but the gap step keeps aiming, unless it meets the switch.
  lemma TickAims(config: Config, w: World, key: string)
    requires Marked(config, w) && w.run.Some? && Repair.PhaseFacts(config, w.run.value, w.tables)
    requires w.run.value.transient && !w.run.value.phase.Gap? && Aims(config, w.tables, w.run.value, key)
    ensures var g := TickWorld(config, w);
      g.run.Some? ==> g.run.value.suppressed || Aims(config, g.tables, g.run.value, key)
  {
    var p := w.run.value.phase;
    if OnlyReads(p) {
      OtherReadAims(config, w.run.value, w.tables, w.engaged, key);
    } else if p.FanOut? {
      FanAims(config, w, key);
    } else if p.Apply? {
      ApplyAims(config, w, key);
    }
  }

  // ---- From a stored cursor ---------------------------------------------------

  lemma OwnKeyMatches(run: Run, row: EventRow)
    requires NoColon(run.source) && row.kind == ReconcileGap && Timestamps.KeyText(run.window)
    ensures IsMarkerOf(run.source, OwnKey(run), row)
  {
    GapKeyIsMarkerKey(run.source, run.window);
    Like.MatchesItself(run.source);
    MarkerFoundIff(run.source, run.source, OwnKey(run));
  }

  lemma OwnKeyIsMark(names: set<string>, run: Run, events: map<string, EventRow>)
    requires ColonFree(names) && run.source in names && RowsNamed(names, events) && OwnKey(run) in events
    requires Timestamps.KeyText(run.window)
    ensures events[OwnKey(run)].kind == ReconcileGap && events[OwnKey(run)].source == run.source
  {
    GapKeyIsMarkerKey(run.source, run.window);
    GapKeyHasPrefix(run.source, run.window);
    PrefixDecides(OwnKey(run), run.source, events[OwnKey(run)].source);
  }

  // The gap step without anything recovered: if the window's marker owes rows,
  // it is the newest marker.
  lemma GapFindsOwn(config: Config, names: set<string>, run: Run, events: map<string, EventRow>,
                    cursors: map<string, Time>)
    requires GoodNames(names) && run.source in names && RowsNamed(names, events) && MarksOk(config, events, cursors)
    requires run.source in cursors && cursors[run.source] == run.windowStart
    requires OwnKey(run) in events && Repairable(events[OwnKey(run)], run.windowStart)
    requires Timestamps.KeyText(run.window)
    ensures NewestMarker(events, run.source) == Some(OwnKey(run))
  {
    OwnKeyIsMark(names, run, events);
    OwnKeyMatches(run, events[OwnKey(run)]);
    var newest := NewestMarker(events, run.source).value;
    MarkersAreOwn(names, run.source, newest, events[newest]);
    assert MarkOk(config, newest, events[newest], cursors);
  }

  lemma GapAimsAtOwn(config: Config, names: set<string>, run: Run, t: Tables, cursors: map<string, Time>, engaged: bool)
    requires GoodNames(names) && run.source in names && RowsNamed(names, t.events) && MarksOk(config, t.events, cursors)
    requires run.source in cursors && cursors[run.source] == run.windowStart && run.phase.Gap?
    requires Timestamps.KeyText(run.window)
    ensures Aims(config, t, ReadTick(config, run, t.events, engaged), OwnKey(run))
  {
    if run.recovered == 0 && OwnKey(run) in t.events && Repairable(t.events[OwnKey(run)], run.windowStart) {
      GapFindsOwn(config, names, run, t.events, cursors);
    }
  }

  // A run of a source with flag-only kinds aims at the marker of its window.
  predicate Announcing(config: Config, w: World) {
    w.run.Some? ==>
      var run := w.run.value;
      run.transient && run.source in w.cursors && !run.suppressed ==> Aims(config, w.tables, run, OwnKey(run))
  }

  lemma TickAnnounces(config: Config, names: set<string>, w: World)
    requires GoodNames(names) && Safe(names, w) && Marked(config, w) && Announcing(config, w)
    requires w.run.Some? && Repair.Progress(config, w.run.value, w.tables)
    ensures Announcing(config, TickWorld(config, w))
  {
    var run := w.run.value;
    TickKeepsRun(config, w);
    if run.transient && run.source in w.cursors && !run.suppressed {
      if run.phase.Gap? {
        GapAimsAtOwn(config, names, run, w.tables, w.cursors, w.engaged);
      } else {
        TickAims(config, w, OwnKey(run));
      }
      var g := TickWorld(config, w);
      if g.run.Some? { SameKey(run, g.run.value); }
    }
  }

  lemma SameKey(r: Run, s: Run)
    requires SameRun(r, s)
    ensures OwnKey(r) == OwnKey(s)
  {
  }

  lemma ApplyKeepsRun(config: Config, w: World)
    requires w.run.Some? && w.run.value.phase.Apply? && w.run.value.phase.calls != []
    ensures var g := TickWorld(config, w);
      && g.cursors == w.cursors && g.run.Some? && g.run == Some(w.run.value.(phase := g.run.value.phase))
  {
  }

  lemma TickKeepsRun(config: Config, w: World)
    requires w.run.Some?
    ensures var g := TickWorld(config, w);
      g.run.Some? ==>
        && SameRun(w.run.value, g.run.value)
        && g.cursors == w.cursors && w.run.value.recovered <= g.run.value.recovered
        && (w.run.value.suppressed ==> g.run.value.suppressed)
  {
    var p := w.run.value.phase;
    if OnlyReads(p) {
      ReadKeepsRun(config, w.run.value, w.tables.events, w.engaged);
      assert TickWorld(config, w) == w.(run := Some(ReadTick(config, w.run.value, w.tables.events, w.engaged)));
    } else if p.Apply? {
      ApplyKeepsRun(config, w);
    } else if p.FanOut? {
      FanTickParts(config, w);
    }
  }

  lemma OutsideAnnounces(config: Config, names: set<string>, w: World, act: Act)
    requires Announcing(config, w) && act.Outside? && Legal(names, act)
    ensures Announcing(config, Step(config, w, act))
  {
    ExecGrows(config, Frame(w.tables, act.mediaId), act.call);
    if w.run.Some? && Foreign(act.call) && Aims(config, w.tables, w.run.value, OwnKey(w.run.value)) {
      OutsideAims(config, w.tables, Step(config, w, act).tables, w.run.value, OwnKey(w.run.value));
    }
  }

  lemma StepAnnounces(config: Config, names: set<string>, w: World, act: Act)
    requires GoodNames(names) && Safe(names, w) && Marked(config, w) && Announcing(config, w) && Legal(names, act)
    requires w.run.Some? ==> Repair.Progress(config, w.run.value, w.tables)
    ensures Announcing(config, Step(config, w, act))
  {
    match act
    case Outside(_, _) => OutsideAnnounces(config, names, w, act);
    case Tick => if w.run.Some? { TickAnnounces(config, names, w); }
    case _ =>
  }

  ghost predicate AllKept(config: Config, names: set<string>, w: World) {
    && Safe(names, w) && Marked(config, w) && Announcing(config, w)
    && (w.run.Some? ==> Repair.Progress(config, w.run.value, w.tables))
  }

  lemma StepKeepsAll(config: Config, names: set<string>, w: World, act: Act)
    requires Clear(config, names) && AllKept(config, names, w) && Legal(names, act)
    ensures AllKept(config, names, Step(config, w, act))
  {
    StepIsSafe(config, names, w, act);
    StepIsMarked(config, names, w, act);
    StepAnnounces(config, names, w, act);
    Repair.StepProgress(config, w, act);
  }

  lemma {:induction false} KeepsAllFrom(config: Config, names: set<string>, w: World, acts: seq<Act>)
    requires Clear(config, names) && AllLegal(names, acts) && AllKept(config, names, w)
    ensures AllKept(config, names, Steps(config, w, acts))
  {
    if acts != [] {
      KeepsAllFrom(config, names, w, acts[..|acts| - 1]);
      StepKeepsAll(config, names, Steps(config, w, acts[..|acts| - 1]), acts[|acts| - 1]);
    }
  }

  // Over every schedule, a run of a source with flag-only kinds that started from
  // a stored cursor and was not silenced has, when it is about to advance the
  // cursor, announced the marker of its window, whichever run stored it.
  lemma MarkerIsAnnounced(config: Config, names: set<string>, acts: seq<Act>)
    requires Clear(config, names) && AllLegal(names, acts)
    requires var w := Steps(config, Empty(BLANK), acts);
      w.run.Some? && w.run.value.phase.Finish? && w.run.value.transient && w.run.value.source in w.cursors
        && !w.run.value.suppressed
    ensures var w := Steps(config, Empty(BLANK), acts);
      && w.run.value.windowStart == w.cursors[w.run.value.source]
      && Repair.FannedOut(config, w.tables, w.run.value.windowStart, OwnKey(w.run.value))
  {
    KeepsAllFrom(config, names, Empty(BLANK), acts);
  }

  // ---- Behind the cursor -------------------------------------------------------

  predicate NoNewRow(was: seq<Fanned>, now: seq<Fanned>, key: string) {
    was <= now && forall i :: |was| <= i < |now| ==> now[i].key.eventKey != key
  }

  ghost predicate Behind(names: set<string>, was: World, w: World, key: string) {
    && Safe(names, w) && NoNewRow(was.fanned, w.fanned, key) && key in w.tables.events
    && var row := w.tables.events[key];
       row.source in w.cursors && row.receivedAt <= w.cursors[row.source]
  }

  lemma RowStays(events: map<string, EventRow>, later: map<string, EventRow>, key: string)
    requires Grows(events, later) && key in events
    ensures key in later && later[key] == events[key]
  {
  }

  lemma ApplyGrows(config: Config, w: World)
    requires w.run.Some? && w.run.value.phase.Apply? && w.run.value.phase.calls != []
    ensures var g := TickWorld(config, w); Grows(w.tables.events, g.tables.events) && g.fanned == w.fanned
  {
    ExecGrows(config, Frame(w.tables, w.run.value.phase.mediaId), w.run.value.phase.calls[0]);
  }

  // What a tick does to the parts that matter here.
  lemma TickGrows(config: Config, names: set<string>, w: World, key: string)
    requires Safe(names, w) && key in w.tables.events
    requires var row := w.tables.events[key]; row.source in w.cursors && row.receivedAt <= w.cursors[row.source]
    ensures var g := TickWorld(config, w);
      && Grows(w.tables.events, g.tables.events) && NoNewRow(w.fanned, g.fanned, key)
      && (forall s :: s in w.cursors ==> s in g.cursors && w.cursors[s] <= g.cursors[s])
  {
    if w.run.Some? {
      var p := w.run.value.phase;
      if OnlyReads(p) {
        assert TickWorld(config, w) == w.(run := Some(ReadTick(config, w.run.value, w.tables.events, w.engaged)));
      } else if p.Apply? {
        ApplyKeepsRun(config, w);
        ApplyGrows(config, w);
      } else if p.FanOut? {
        FanTickParts(config, w);
        assert p.key != key;
      }
    }
  }

  lemma TickStaysBehind(config: Config, names: set<string>, was: World, w: World, key: string)
    requires Clear(config, names) && Behind(names, was, w, key)
    ensures Behind(names, was, TickWorld(config, w), key)
  {
    StepIsSafe(config, names, w, Tick);
    TickGrows(config, names, w, key);
    RowStays(w.tables.events, TickWorld(config, w).tables.events, key);
  }

  lemma StepStaysBehind(config: Config, names: set<string>, was: World, w: World, act: Act, key: string)
    requires Clear(config, names) && Behind(names, was, w, key) && Legal(names, act)
    ensures Behind(names, was, Step(config, w, act), key)
  {
    StepIsSafe(config, names, w, act);
    match act
    case Outside(c, mediaId) => ExecGrows(config, Frame(w.tables, mediaId), c);
    case Tick => TickStaysBehind(config, names, was, w, key);
    case _ =>
  }

  // Once the cursor has reached an event's receipt time, reconcile never again
  // makes a ledger row for it.
  lemma {:induction false} BehindTheCursorIsFinal(config: Config, names: set<string>, w: World, acts: seq<Act>,
                                                  key: string)
    requires Clear(config, names) && AllLegal(names, acts) && Behind(names, w, w, key)
    ensures Behind(names, w, Steps(config, w, acts), key)
  {
    if acts != [] {
      BehindTheCursorIsFinal(config, names, w, acts[..|acts| - 1], key);
      StepStaysBehind(config, names, w, Steps(config, w, acts[..|acts| - 1]), acts[|acts| - 1], key);
    }
  }
}
