/** Over all runs, crashes and interleavings, reconcile never notifies for an
    ingested event nor for one a completed earlier run stored.
 */
module ReconcileSafety {
  import opened Types
  import opened Events
  import opened Correlate
  import opened Reconcile
  import Like
  import Timestamps

  // ---- Source names ------------------------------------------------------

  predicate HasPrefix(key: string, source: string) {
    |source| < |key| && key[..|source|] == source && key[|source|] == ':'
  }

  predicate ColonFree(names: set<string>) { forall s :: s in names ==> NoColon(s) }

  // No colon, and no name that LIKE would take for another one.
  predicate GoodNames(names: set<string>) {
    && ColonFree(names)
    && (forall s, t :: s in names && t in names && Like.Matches(s, t) ==> s == t)
  }

  // Such names, and a text of instants that can follow the marker's mark.
  ghost predicate Clear(config: Config, names: set<string>) { GoodNames(names) && Timestamps.Prints(config.text) }

  lemma PrefixDecides(key: string, s: string, t: string)
    requires HasPrefix(key, s) && HasPrefix(key, t) && NoColon(s) && NoColon(t)
    ensures s == t
  {
  }

  // The key of a marker of this source, whatever its window.
  predicate IsMarkerKey(source: string, key: string) {
    GapPrefix(source) <= key && Timestamps.KeyText(key[|GapPrefix(source)|..])
  }

  lemma GapKeyIsMarkerKey(source: string, window: string)
    requires Timestamps.KeyText(window)
    ensures IsMarkerKey(source, GapKey(source, window))
  {
    var prefix, key := GapPrefix(source), GapKey(source, window);
    assert key[..|prefix|] == prefix && key[|prefix|..] == window;
  }

  const MARK := "reconcile.gap:"

  lemma MarkOnce(rest: string)
    requires Timestamps.KeyText(rest)
    ensures Like.NeverAfterColon(MARK + rest, 'r')
  {
    var text := MARK + rest;
    forall i | 0 <= i < |text| - 1 && text[i] == ':'
      ensures Like.Fold(text[i + 1]) != Like.Fold('r')
    {
      assert i >= |MARK| - 1;
      assert (":" + rest)[i - |MARK| + 1] == text[i] && (":" + rest)[i - |MARK| + 2] == text[i + 1];
    }
  }

  // The gap lookup for `s` finds a marker of `t` if and only if the name `s`,
  // read as a LIKE pattern, accepts the name `t`: equal letters in either case,
  // and `_` for any one character.
  lemma MarkerFoundIff(s: string, t: string, key: string)
    requires NoColon(s) && NoColon(t) && IsMarkerKey(t, key)
    ensures Like.Matches(GapPrefix(s) + "%", key) <==> Like.Matches(s, t)
    ensures Like.NoPercent(s) ==> (Like.Matches(GapPrefix(s) + "%", key) <==> Like.Fits(s, t))
  {
    var rest := key[|GapPrefix(t)|..];
    MarkOnce(rest);
    Like.NameMatchesIff(s, t, MARK, rest);
    MarkJoins(s, "%");
    MarkJoins(t, rest);
    assert key == GapPrefix(t) + rest;
    if Like.NoPercent(s) { Like.FitsIsMatch(s, t); }
  }

  lemma MarkJoins(name: string, rest: string)
    ensures GapPrefix(name) + rest == name + ":" + (MARK + rest)
  {
    assert ":reconcile.gap:" == ":" + MARK;
  }

  // So with good names the lookup finds only the source's own markers.
  lemma MarkersAreOwn(names: set<string>, source: string, key: string, row: EventRow)
    requires GoodNames(names) && source in names && row.source in names && IsMarkerKey(row.source, key)
    requires IsMarkerOf(source, key, row)
    ensures row.source == source
  {
    MarkerFoundIff(source, row.source, key);
  }

  // ---- The invariant -----------------------------------------------------

  predicate Unmarked(source: string, key: string) { HasPrefix(key, source) && !(GapPrefix(source) <= key) }

  // Markers, and nothing else, are keyed as markers.
  predicate Keyed(source: string, kind: EventType, key: string) {
    if kind == ReconcileGap then HasPrefix(key, source) && IsMarkerKey(source, key) else Unmarked(source, key)
  }

  // The event types tell by their third letter, or by their first.
  predicate OtherType(typeName: string) { |typeName| > 2 && (typeName[0] != 'r' || typeName[2] != 'c') }

  lemma NotMarker(source: string, key: string)
    requires |source| + 3 < |key| && key[..|source|] == source && key[|source|] == ':'
    requires key[|source| + 1] != 'r' || key[|source| + 3] != 'c'
    ensures Unmarked(source, key)
  {
    var prefix := GapPrefix(source);
    assert prefix[|source| + 1] == 'r' && prefix[|source| + 3] == 'c';
  }

  lemma OtherKey(source: string, typeName: string, rest: string)
    requires OtherType(typeName)
    ensures Unmarked(source, KeyOf(source, typeName, rest))
  {
    NotMarker(source, KeyOf(source, typeName, rest));
  }

  predicate OwnEvent(names: set<string>, source: string, e: Event) {
    e.source == source && e.source in names && Keyed(e.source, e.kind, e.key)
  }

  predicate OwnReconcileEvent(names: set<string>, source: string, e: Event) {
    OwnEvent(names, source, e) && e.origin == Origin.Reconcile
  }

  predicate ItemsOwn(names: set<string>, source: string, items: seq<Item>) {
    forall i :: 0 <= i < |items| ==>
      OwnReconcileEvent(names, source, items[i].event) && items[i].event.kind != ReconcileGap
  }

  // Events carry the name of the source that produced them, and only the gap
  // step makes markers.
  predicate Legal(names: set<string>, act: Act) {
    match act
    case Begin(source, _, _, items) => source in names && ItemsOwn(names, source, items)
    case Outside(call, _) =>
      call.InsertEvent? ==> OwnEvent(names, call.event.source, call.event) && call.event.kind != ReconcileGap
    case _ => true
  }

  predicate RowsNamed(names: set<string>, events: map<string, EventRow>) {
    forall k :: k in events ==>
      events[k].source in names && Keyed(events[k].source, events[k].kind, k)
  }

  // The run may notify for this event.
  predicate Eligible(run: Run, events: map<string, EventRow>, key: string) {
    && key in events && events[key].origin == Origin.Reconcile && events[key].source == run.source
    && run.windowStart < events[key].receivedAt <= run.now
  }

  predicate NextOwn(names: set<string>, source: string, next: Next) {
    next.NextItems? ==> ItemsOwn(names, source, next.todo)
  }

  predicate PhaseOk(names: set<string>, run: Run, events: map<string, EventRow>) {
    match run.phase
    case Scan(todo) => ItemsOwn(names, run.source, todo)
    case Guard(item, rest) => OwnReconcileEvent(names, run.source, item.event) && ItemsOwn(names, run.source, rest)
    case Apply(e, _, _, calls, inserted, known, next) =>
      && OwnReconcileEvent(names, run.source, e) && NextOwn(names, run.source, next)
      && (forall i :: 0 <= i < |calls| ==>
            !calls[i].Notify? && (calls[i].InsertEvent? ==> calls[i] == InsertEvent(e, run.now)))
      && (inserted ==> Eligible(run, events, e.key))
      && (known.Some? ==> e.key in events && events[e.key] == known.value)
    case Decide(key, _, _, next) => Eligible(run, events, key) && NextOwn(names, run.source, next)
    case FanOut(key, _, next) => Eligible(run, events, key) && NextOwn(names, run.source, next)
    case Gap => true
    case Finish => true
  }

  predicate RunOk(names: set<string>, run: Run, cursors: map<string, Time>, last: map<string, Time>,
                  events: map<string, EventRow>)
  {
    && run.source in names && run.source in last && last[run.source] == run.now
    && run.windowStart < run.now && Timestamps.KeyText(run.window)
    && (run.source in cursors ==> run.windowStart == cursors[run.source])
    && PhaseOk(names, run, events)
  }

  // Reconcile stored nothing with a receipt time after its latest run.
  predicate ReceiptsOk(events: map<string, EventRow>, last: map<string, Time>) {
    forall k :: k in events && events[k].origin == Origin.Reconcile ==>
      events[k].source in last && events[k].receivedAt <= last[events[k].source]
  }

  ghost predicate CursorsOk(cursors: map<string, Time>, last: map<string, Time>, completed: map<string, set<Time>>) {
    && (forall s :: s in cursors ==> s in last && cursors[s] <= last[s])
    && (forall s, c :: c in CompletedOf(completed, s) ==> s in cursors && c <= cursors[s])
  }

  // What may be said of a ledger row reconcile created: its event is
  // reconcile's own and was received after every run of its source that had
  // completed by then. (An event's receipt time is that of the run storing it.)
  predicate FannedOk(events: map<string, EventRow>, last: map<string, Time>, completed: map<string, set<Time>>,
                     f: Fanned)
  {
    && f.key.eventKey in events
    && var row := events[f.key.eventKey];
       && row.origin == Origin.Reconcile && row.source == f.source
       && f.source in last && f.at <= last[f.source]
       && forall c :: c in CompletedOf(completed, f.source) && c < f.at ==> c < row.receivedAt
  }

  predicate AllFanned(events: map<string, EventRow>, last: map<string, Time>, completed: map<string, set<Time>>,
                      fanned: seq<Fanned>)
  {
    forall i :: 0 <= i < |fanned| ==> FannedOk(events, last, completed, fanned[i])
  }

  ghost predicate Safe(names: set<string>, w: World) {
    && RowsNamed(names, w.tables.events) && CursorsOk(w.cursors, w.last, w.completed)
       && ReceiptsOk(w.tables.events, w.last)
    && (w.run.Some? ==> RunOk(names, w.run.value, w.cursors, w.last, w.tables.events))
    && AllFanned(w.tables.events, w.last, w.completed, w.fanned)
  }

  // ---- Every step keeps it -----------------------------------------------

  lemma FannedStays(events: map<string, EventRow>, last: map<string, Time>, completed: map<string, set<Time>>,
                    fanned: seq<Fanned>,
                    events': map<string, EventRow>, last': map<string, Time>)
    requires AllFanned(events, last, completed, fanned) && Grows(events, events')
    requires forall s :: s in last ==> s in last' && last[s] <= last'[s]
    ensures AllFanned(events', last', completed, fanned)
  {
  }

  lemma PhaseStays(names: set<string>, run: Run, events: map<string, EventRow>, events': map<string, EventRow>)
    requires PhaseOk(names, run, events) && Grows(events, events')
    ensures PhaseOk(names, run, events')
  {
  }

  lemma BeginIsSafe(config: Config, names: set<string>, w: World, act: Act)
    requires Timestamps.Prints(config.text) && Safe(names, w) && act.Begin? && Legal(names, act)
    ensures Safe(names, Step(config, w, act))
  {
  }

  lemma OutsideIsSafe(config: Config, names: set<string>, w: World, act: Act)
    requires Safe(names, w) && act.Outside? && Legal(names, act)
    ensures Safe(names, Step(config, w, act))
  {
    if Foreign(act.call) {
      var g := Step(config, w, act);
      ExecGrows(config, Frame(w.tables, act.mediaId), act.call);
      FannedStays(w.tables.events, w.last, w.completed, w.fanned, g.tables.events, g.last);
      if w.run.Some? { PhaseStays(names, w.run.value, w.tables.events, g.tables.events); }
    }
  }

  lemma FinishIsSafe(config: Config, names: set<string>, w: World)
    requires Safe(names, w) && w.run.Some? && w.run.value.phase.Finish?
    ensures Safe(names, TickWorld(config, w))
  {
    var g, run := TickWorld(config, w), w.run.value;
    assert forall s :: s != run.source ==> CompletedOf(g.completed, s) == CompletedOf(w.completed, s);
    assert CompletedOf(g.completed, run.source) == CompletedOf(w.completed, run.source) + {run.now};
    forall i | 0 <= i < |g.fanned|
      ensures FannedOk(g.tables.events, g.last, g.completed, g.fanned[i])
    {
      assert FannedOk(w.tables.events, w.last, w.completed, w.fanned[i]);
    }
  }

  lemma ApplyIsSafe(config: Config, names: set<string>, w: World)
    requires Safe(names, w) && w.run.Some? && w.run.value.phase.Apply? && w.run.value.phase.calls != []
    ensures Safe(names, TickWorld(config, w))
  {
    var g, run := TickWorld(config, w), w.run.value;
    var c := run.phase.calls[0];
    ExecGrows(config, Frame(w.tables, run.phase.mediaId), c);
    FannedStays(w.tables.events, w.last, w.completed, w.fanned, g.tables.events, g.last);
    PhaseStays(names, run, w.tables.events, g.tables.events);
  }

  lemma FanIsSafe(config: Config, names: set<string>, w: World)
    requires Safe(names, w) && w.run.Some? && w.run.value.phase.FanOut? && w.run.value.phase.channels != []
    ensures Safe(names, TickWorld(config, w))
  {
    var g, run, p := TickWorld(config, w), w.run.value, w.run.value.phase;
    var next := run.(phase := p.(channels := p.channels[1..]));
    SafeWithRun(names, w, run, next);
    assert FannedOk(w.tables.events, w.last, w.completed, Fanned(NoteKey(p.key, p.channels[0]), run.source, run.now));
    assert g == w.(run := Some(next), tables := w.tables.(ledger := g.tables.ledger), fanned := g.fanned);
  }

  lemma RepairIsOk(names: set<string>, run: Run, events: map<string, EventRow>, key: string, next: Next)
    requires key in events && events[key].source == run.source && NextOwn(names, run.source, next)
    requires events[key].origin == Origin.Reconcile ==> events[key].receivedAt <= run.now
    ensures PhaseOk(names, run.(phase := Repair(key, events[key], run.windowStart, next)), events)
  {
  }

  lemma ScanIsOk(config: Config, names: set<string>, run: Run, events: map<string, EventRow>, last: map<string, Time>,
                 engaged: bool)
    requires GoodNames(names) && RowsNamed(names, events) && ReceiptsOk(events, last)
    requires PhaseOk(names, run, events) && run.source in names && run.source in last && last[run.source] == run.now
    requires run.phase.Scan?
    ensures PhaseOk(names, ReadTick(config, run, events, engaged), events)
  {
    var todo := run.phase.todo;
    if todo != [] && todo[0].event.key in events {
      PrefixDecides(todo[0].event.key, run.source, events[todo[0].event.key].source);
      RepairIsOk(names, run, events, todo[0].event.key, NextItems(todo[1..]));
    }
  }

  lemma ApplyEndIsOk(config: Config, names: set<string>, run: Run, events: map<string, EventRow>,
                     last: map<string, Time>, engaged: bool)
    requires GoodNames(names) && RowsNamed(names, events) && ReceiptsOk(events, last)
    requires PhaseOk(names, run, events) && run.source in names && run.source in last && last[run.source] == run.now
    requires run.phase.Apply? && run.phase.calls == []
    ensures PhaseOk(names, ReadTick(config, run, events, engaged), events)
  {
  }

  lemma GuardIsOk(config: Config, names: set<string>, run: Run, events: map<string, EventRow>, engaged: bool)
    requires PhaseOk(names, run, events) && run.phase.Guard?
    ensures PhaseOk(names, ReadTick(config, run, events, engaged), events)
  {
  }

  lemma RepairGapIsOk(names: set<string>, run: Run, events: map<string, EventRow>, last: map<string, Time>)
    requires GoodNames(names) && RowsNamed(names, events) && ReceiptsOk(events, last)
    requires run.source in names && run.source in last && last[run.source] == run.now
    requires run.recovered == 0
    ensures PhaseOk(names, run.(phase := GapPhase(run, events)), events)
  {
    var newest := NewestMarker(events, run.source);
    if newest.Some? {
      MarkersAreOwn(names, run.source, newest.value, events[newest.value]);
      RepairIsOk(names, run, events, newest.value, NextFinish);
    }
  }

  lemma MarkGapIsOk(names: set<string>, run: Run, events: map<string, EventRow>)
    requires run.source in names && run.recovered > 0 && Timestamps.KeyText(run.window)
    ensures PhaseOk(names, run.(phase := GapPhase(run, events)), events)
  {
    ApplyCallsInsert(Marker(run), run.now);
    GapKeyHasPrefix(run.source, run.window);
    GapKeyIsMarkerKey(run.source, run.window);
  }

  lemma GapIsOk(config: Config, names: set<string>, run: Run, events: map<string, EventRow>, last: map<string, Time>,
                engaged: bool)
    requires GoodNames(names) && RowsNamed(names, events) && ReceiptsOk(events, last)
    requires run.source in names && run.source in last && last[run.source] == run.now
    requires run.phase.Gap? && Timestamps.KeyText(run.window)
    ensures PhaseOk(names, ReadTick(config, run, events, engaged), events)
  {
    assert ReadTick(config, run, events, engaged) == run.(phase := GapPhase(run, events));
    if run.recovered == 0 { RepairGapIsOk(names, run, events, last); } else { MarkGapIsOk(names, run, events); }
  }

  lemma GapKeyHasPrefix(source: string, window: string)
    ensures HasPrefix(GapKey(source, window), source)
  {
  }

  lemma DecideIsOk(config: Config, names: set<string>, run: Run, events: map<string, EventRow>, engaged: bool)
    requires PhaseOk(names, run, events) && (run.phase.Decide? || (run.phase.FanOut? && run.phase.channels == []))
    ensures PhaseOk(names, ReadTick(config, run, events, engaged), events)
  {
  }

  lemma ReadIsOk(config: Config, names: set<string>, run: Run, events: map<string, EventRow>, last: map<string, Time>,
                 engaged: bool)
    requires GoodNames(names) && RowsNamed(names, events) && ReceiptsOk(events, last)
    requires run.source in names && run.source in last && last[run.source] == run.now
    requires OnlyReads(run.phase) && PhaseOk(names, run, events) && Timestamps.KeyText(run.window)
    ensures PhaseOk(names, ReadTick(config, run, events, engaged), events)
  {
    match run.phase
    case Scan(_) => ScanIsOk(config, names, run, events, last, engaged);
    case Guard(_, _) => GuardIsOk(config, names, run, events, engaged);
    case Apply(_, _, _, _, _, _, _) => ApplyEndIsOk(config, names, run, events, last, engaged);
    case Decide(_, _, _, _) => DecideIsOk(config, names, run, events, engaged);
    case FanOut(_, _, _) => DecideIsOk(config, names, run, events, engaged);
    case Gap => GapIsOk(config, names, run, events, last, engaged);
  }

  lemma SafeWithRun(names: set<string>, w: World, run: Run, next: Run)
    requires Safe(names, w) && w.run == Some(run)
    requires next.source == run.source && next.now == run.now
    requires next.windowStart == run.windowStart && next.window == run.window
    requires PhaseOk(names, next, w.tables.events)
    ensures Safe(names, w.(run := Some(next)))
  {
  }

  lemma ReadIsSafe(config: Config, names: set<string>, w: World)
    requires GoodNames(names) && Safe(names, w) && w.run.Some? && OnlyReads(w.run.value.phase)
    ensures Safe(names, TickWorld(config, w))
  {
    var run := w.run.value;
    ReadIsOk(config, names, run, w.tables.events, w.last, w.engaged);
    ReadKeepsRun(config, run, w.tables.events, w.engaged);
    SafeWithRun(names, w, run, ReadTick(config, run, w.tables.events, w.engaged));
  }

  lemma StepIsSafe(config: Config, names: set<string>, w: World, act: Act)
    requires Clear(config, names) && Safe(names, w) && Legal(names, act)
    ensures Safe(names, Step(config, w, act))
  {
    match act
    case Begin(_, _, _, _) => BeginIsSafe(config, names, w, act);
    case Outside(_, _) => OutsideIsSafe(config, names, w, act);
    case Crash =>
    case Flip(_) =>
    case Tick =>
      if w.run.Some? {
        var p := w.run.value.phase;
        if p.Finish? { FinishIsSafe(config, names, w); }
        else if p.Apply? && p.calls != [] { ApplyIsSafe(config, names, w); }
        else if p.FanOut? && p.channels != [] { FanIsSafe(config, names, w); }
        else { ReadIsSafe(config, names, w); }
      }
  }

  const BLANK := Tables([], map[], map[], [], map[])

  lemma {:induction false} StepsAreSafe(config: Config, names: set<string>, acts: seq<Act>)
    requires Clear(config, names) && forall i :: 0 <= i < |acts| ==> Legal(names, acts[i])
    ensures Safe(names, Steps(config, Empty(BLANK), acts))
  {
    if acts != [] {
      StepsAreSafe(config, names, acts[..|acts| - 1]);
      StepIsSafe(config, names, Steps(config, Empty(BLANK), acts[..|acts| - 1]), acts[|acts| - 1]);
    }
  }

  // What should hold of a ledger row made by reconcile: it is for an event of its
  // own, of the running source, that no earlier completed run of it had stored.
  predicate Rightful(w: World, f: Fanned) {
    && f.key.eventKey in w.tables.events
    && var row := w.tables.events[f.key.eventKey];
       && row.origin == Origin.Reconcile && row.source == f.source
       && forall c :: c in CompletedOf(w.completed, f.source) && c < f.at ==> c < row.receivedAt
  }

  ghost predicate Floodless(config: Config, acts: seq<Act>) {
    var w := Steps(config, Empty(BLANK), acts);
    forall i :: 0 <= i < |w.fanned| ==> Rightful(w, w.fanned[i])
  }

  predicate AllLegal(names: set<string>, acts: seq<Act>) { forall i :: 0 <= i < |acts| ==> Legal(names, acts[i]) }

  // Reconcile never floods: over every schedule of runs, crashes, ingest and
  // switch flips every ledger row it makes is rightful.
  lemma NeverFloods(config: Config, names: set<string>, acts: seq<Act>)
    requires Clear(config, names) && AllLegal(names, acts)
    ensures Floodless(config, acts)
  {
    StepsAreSafe(config, names, acts);
    var w := Steps(config, Empty(BLANK), acts);
    assert forall i :: 0 <= i < |w.fanned| ==> FannedOk(w.tables.events, w.last, w.completed, w.fanned[i]);
  }
}
