/** The reconcile job as a machine that makes one store access per tick, so that
    webhook ingest may run, and the process may die, between any two of them.
 */
module Reconcile {
  import opened Types
  import opened Events
  import opened Correlate
  import Arr
  import Like
  import Timestamps

  // An event the API answer expects. `record` is the history record it comes
  // from, for Radarr and Sonarr; `nearDelete` answers the delete guard.
  datatype Item = Item(event: Event, record: Option<Arr.Record>, nearDelete: bool)

  datatype Next = NextItems(todo: seq<Item>) | NextFinish

  datatype Phase =
    | Scan(todo: seq<Item>)
    | Guard(item: Item, rest: seq<Item>)
    | Apply(event: Event, record: Option<Arr.Record>, mediaId: Option<nat>, calls: seq<Call>,
            inserted: bool, known: Option<EventRow>, next: Next)
    | Decide(key: string, kind: EventType, source: string, next: Next)
    | FanOut(key: string, channels: seq<string>, next: Next)
    | Gap
    | Finish

  // `window` is the text of the window start. `items` and `suppressed` only remember what the run was given and whether
  // an engaged kill switch ever silenced it.
  datatype Run = Run(
    source: string, transient: bool, now: Time, windowStart: Time, window: string, recovered: nat, phase: Phase,
    items: seq<Item>, suppressed: bool)

  // A ledger row created by reconcile, and the run that created it.
  datatype Fanned = Fanned(key: NoteKey, source: string, at: Time)

  // The last four fields are history the program does not keep: when each
  // source last ran, which runs advanced its cursor, the ledger rows reconcile
  // created and, per source, the history records it stored as events.
  datatype World = World(
    tables: Tables, cursors: map<string, Time>, engaged: bool, run: Option<Run>,
    last: map<string, Time>, completed: map<string, set<Time>>, fanned: seq<Fanned>,
    stored: set<(string, Arr.Record)>)

  datatype Act =
    | Begin(source: string, transient: bool, now: Time, items: seq<Item>)
    | Tick
    | Crash
    | Outside(call: Call, mediaId: Option<nat>)
    | Flip(engaged: bool)

  const DEFAULT_LOOKBACK: Time := 86_400_000_000

  function GapPrefix(source: string): string { source + ":reconcile.gap:" }

  // The window start is printed into the marker's key.
  function GapKey(source: string, window: string): string { GapPrefix(source) + window }

  // ---- One tick ----------------------------------------------------------

  function Continue(next: Next): Phase {
    match next
    case NextItems(todo) => Scan(todo)
    case NextFinish => Finish
  }

  // `repair` re-enqueues only reconcile's own rows received after the window start.
  predicate Repairable(row: EventRow, windowStart: Time) {
    row.origin == Reconcile && row.receivedAt > windowStart
  }

  function Repair(key: string, row: EventRow, windowStart: Time, next: Next): Phase {
    if Repairable(row, windowStart) then Decide(key, row.kind, row.source, next) else Continue(next)
  }

  ghost predicate TwinStored(events: map<string, EventRow>, item: Item) {
    && item.record.Some? && TruthyText(item.record.value.downloadId)
    && exists k :: k in events && Like.Matches(Arr.TwinPattern(item.event, item.record.value.downloadId.value), k)
  }

  predicate NearDelete(item: Item) { item.event.kind == MediaDeleted && item.nearDelete }

  function StartApply(e: Event, record: Option<Arr.Record>, now: Time, known: Option<EventRow>, next: Next): Phase {
    Apply(e, record, None, ApplyCalls(e, now), false, known, next)
  }

  predicate IsMarkerOf(source: string, key: string, row: EventRow) {
    row.kind == ReconcileGap && Like.Matches(GapPrefix(source) + "%", key)
  }

  // Newest first; equal receipt times are taken in key order.
  predicate Newer(events: map<string, EventRow>, a: string, b: string)
    requires a in events && b in events
  {
    events[b].receivedAt < events[a].receivedAt ||
    (events[b].receivedAt == events[a].receivedAt && Timestamps.TextLess(a, b))
  }

  lemma NewerIsAnOrder(events: map<string, EventRow>, a: string, b: string, c: string)
    requires a in events && b in events && c in events
    ensures a == b || Newer(events, a, b) || Newer(events, b, a)
    ensures Newer(events, a, b) && Newer(events, b, c) ==> Newer(events, a, c)
    ensures !(Newer(events, a, b) && Newer(events, b, a))
  {
    Timestamps.TextLessTotal(a, b);
    if Timestamps.TextLess(a, b) && Timestamps.TextLess(b, c) { Timestamps.TextLessTransitive(a, b, c); }
    if Timestamps.TextLess(a, b) && Timestamps.TextLess(b, a) {
      Timestamps.TextLessTransitive(a, b, a);
      Timestamps.TextLessIrreflexive(a);
    }
  }

  ghost predicate IsNewest(events: map<string, EventRow>, keys: set<string>, hit: Option<string>)
    requires forall k :: k in keys ==> k in events
  {
    if hit.None? then keys == {}
    else hit.value in keys && forall k :: k in keys ==> k == hit.value || Newer(events, hit.value, k)
  }

  function MarkersOf(events: map<string, EventRow>, source: string): (keys: set<string>)
    ensures forall k :: k in keys <==> k in events && IsMarkerOf(source, k, events[k])
  {
    set k | k in events && IsMarkerOf(source, k, events[k])
  }

  // The newest marker the LIKE query finds, if any.
  ghost function NewestMarker(events: map<string, EventRow>, source: string): (hit: Option<string>)
    ensures hit.Some? ==> hit.value in events && IsMarkerOf(source, hit.value, events[hit.value])
    ensures hit.Some? ==> forall k :: k in events && IsMarkerOf(source, k, events[k]) ==>
      events[k].receivedAt <= events[hit.value].receivedAt
    ensures hit.None? ==> forall k :: k in events ==> !IsMarkerOf(source, k, events[k])
    ensures IsNewest(events, MarkersOf(events, source), hit)
  {
    NewestAmong(events, MarkersOf(events, source))
  }

  ghost function NewestAmong(events: map<string, EventRow>, keys: set<string>): (hit: Option<string>)
    requires forall k :: k in keys ==> k in events
    ensures IsNewest(events, keys, hit)
  {
    if keys == {} then None
    else
      var k :| k in keys;
      var rest := NewestAmong(events, keys - {k});
      assert rest.None? ==> keys == {k};
      (if rest.Some? then
         assert forall o :: o in keys ==> o == k || o in keys - {k};
         forall o | o in keys ensures true
           && (Newer(events, k, rest.value) && Newer(events, rest.value, o) ==> Newer(events, k, o)) {
           NewerIsAnOrder(events, k, rest.value, o);
         }
         NewerIsAnOrder(events, k, rest.value, k);
         if Newer(events, k, rest.value) then Some(k) else rest
       else Some(k))
  }

  lemma NewestIsUnique(events: map<string, EventRow>, keys: set<string>, a: Option<string>, b: Option<string>)
    requires forall k :: k in keys ==> k in events
    requires IsNewest(events, keys, a) && IsNewest(events, keys, b)
    ensures a == b
  {
    if a.Some? && b.Some? { NewerIsAnOrder(events, a.value, b.value, a.value); }
  }

  function Marker(run: Run): Event {
    Event(run.source, GapKey(run.source, run.window), Reconcile, ReconcileGap, Some(run.now), None, None,
      None, false)
  }

  ghost function GapPhase(run: Run, events: map<string, EventRow>): Phase {
    if run.recovered == 0 then
      var newest := NewestMarker(events, run.source);
      if newest.Some? then Repair(newest.value, events[newest.value], run.windowStart, NextFinish) else Finish
    else
      var key := GapKey(run.source, run.window);
      StartApply(Marker(run), None, run.now, if key in events then Some(events[key]) else None, NextFinish)
  }

  predicate OnlyReads(p: Phase) {
    !p.Finish? && (p.Apply? ==> p.calls == []) && (p.FanOut? ==> p.channels == [])
  }

  // Phases that only read the store.
  ghost function ReadTick(config: Config, run: Run, events: map<string, EventRow>, engaged: bool): Run
    requires OnlyReads(run.phase)
  {
    match run.phase
    case Scan(todo) =>
      if todo == [] then run.(phase := if run.transient then Gap else Finish)
      else if todo[0].event.key in events then
        run.(phase := Repair(todo[0].event.key, events[todo[0].event.key], run.windowStart, NextItems(todo[1..])))
      else run.(phase := Guard(todo[0], todo[1..]))
    case Guard(item, rest) =>
      run.(phase := if TwinStored(events, item) || NearDelete(item) then Scan(rest)
                    else StartApply(item.event, item.record, run.now, None, NextItems(rest)))
    case Apply(e, _, _, _, inserted, known, next) =>
      if inserted then
        run.(recovered := if next.NextItems? then run.recovered + 1 else run.recovered,
             phase := Decide(e.key, e.kind, e.source, next))
      else if known.Some? then run.(phase := Repair(e.key, known.value, run.windowStart, next))
      else run.(phase := Continue(next))
    case Decide(key, kind, source, next) =>
      var channels := ChannelsFor(config.rules, kind, source);
      if channels == [] then run.(phase := Continue(next))
      else if engaged then run.(phase := Continue(next), suppressed := true)
      else run.(phase := FanOut(key, channels, next))
    case FanOut(_, _, next) => run.(phase := Continue(next))
    case Gap => run.(phase := GapPhase(run, events))
  }

  lemma ReadKeepsRun(config: Config, run: Run, events: map<string, EventRow>, engaged: bool)
    requires OnlyReads(run.phase)
    ensures var r := ReadTick(config, run, events, engaged);
      && r.source == run.source && r.transient == run.transient && r.now == run.now
      && r.windowStart == run.windowStart && r.window == run.window
      && r.items == run.items && run.recovered <= r.recovered && (run.suppressed ==> r.suppressed)
  {
  }

  ghost function ApplyTick(config: Config, w: World, run: Run): World
    requires run.phase.Apply? && run.phase.calls != []
  {
    var p, c := run.phase, run.phase.calls[0];
    var f := Exec(config, Frame(w.tables, p.mediaId), c);
    var inserts := c.InsertEvent? && c.event.key !in w.tables.events;
    w.(tables := f.tables,
       stored := if inserts && p.record.Some? then w.stored + {(run.source, p.record.value)} else w.stored,
       run := Some(run.(phase := p.(mediaId := f.mediaId, calls := p.calls[1..], inserted := p.inserted || inserts))))
  }

  ghost function FanTick(config: Config, w: World, run: Run): World
    requires run.phase.FanOut? && run.phase.channels != []
  {
    var key := NoteKey(run.phase.key, run.phase.channels[0]);
    w.(tables := Exec(config, Frame(w.tables, None), Notify(key, run.now)).tables,
       fanned := if key in w.tables.ledger then w.fanned else w.fanned + [Fanned(key, run.source, run.now)],
       run := Some(run.(phase := run.phase.(channels := run.phase.channels[1..]))))
  }

  function CompletedOf(completed: map<string, set<Time>>, source: string): set<Time> {
    if source in completed then completed[source] else {}
  }

  ghost function TickWorld(config: Config, w: World): World {
    if w.run.None? then w
    else
      var run := w.run.value;
      if run.phase.Finish? then
        w.(cursors := w.cursors[run.source := run.now], run := None,
           completed := w.completed[run.source := CompletedOf(w.completed, run.source) + {run.now}])
      else if run.phase.Apply? && run.phase.calls != [] then ApplyTick(config, w, run)
      else if run.phase.FanOut? && run.phase.channels != [] then FanTick(config, w, run)
      else w.(run := Some(ReadTick(config, run, w.tables.events, w.engaged)))
  }

  // One reconcile job: runs do not overlap and the clock advances between two
  // runs of a source.
  predicate CanBegin(w: World, source: string, now: Time) {
    w.run.None? && (source in w.last ==> w.last[source] < now)
  }

  // Reconcile events are its own; ingest events are not.
  predicate OwnItems(source: string, items: seq<Item>) {
    forall i :: 0 <= i < |items| ==>
      && items[i].event.origin == Reconcile && items[i].event.source == source
      && (items[i].record.Some? ==> Arr.RecordEvent(source, items[i].record.value) == Some(items[i].event))
  }

  predicate Foreign(c: Call) { c.InsertEvent? ==> c.event.origin == Webhook }

  function WindowStart(cursors: map<string, Time>, source: string, now: Time): Time {
    if source in cursors then cursors[source] else now - DEFAULT_LOOKBACK
  }

  ghost function Step(config: Config, w: World, act: Act): World {
    match act
    case Begin(source, transient, now, items) =>
      if CanBegin(w, source, now) && OwnItems(source, items) then
        var windowStart := WindowStart(w.cursors, source, now);
        w.(run := Some(Run(source, transient, now, windowStart, config.text(windowStart), 0, Scan(items), items,
          false)),
          last := w.last[source := now])
      else w
    case Tick => TickWorld(config, w)
    case Crash => w.(run := None)
    case Outside(call, mediaId) =>
      if Foreign(call) then w.(tables := Exec(config, Frame(w.tables, mediaId), call).tables) else w
    case Flip(engaged) => w.(engaged := engaged)
  }

  ghost function Steps(config: Config, w: World, acts: seq<Act>): World {
    if acts == [] then w else Step(config, Steps(config, w, acts[..|acts| - 1]), acts[|acts| - 1])
  }

  lemma StepsAppend(config: Config, w: World, acts: seq<Act>, act: Act)
    ensures Steps(config, w, acts + [act]) == Step(config, Steps(config, w, acts), act)
  {
  }

  lemma {:induction false} StepsSplit(config: Config, w: World, a: seq<Act>, b: seq<Act>)
    ensures Steps(config, w, a + b) == Steps(config, Steps(config, w, a), b)
  {
    if b == [] {
      assert a + b == a;
    } else {
      assert (a + b)[..|a + b| - 1] == a + b[..|b| - 1];
      StepsSplit(config, w, a, b[..|b| - 1]);
    }
  }

  // ---- Ticks in a row -----------------------------------------------------

  ghost function Iterate<T>(f: T -> T, x: T, n: nat): T {
    if n == 0 then x else f(Iterate(f, x, n - 1))
  }

  lemma {:induction false} IterateAdd<T>(f: T -> T, x: T, m: nat, n: nat)
    ensures Iterate(f, Iterate(f, x, m), n) == Iterate(f, x, m + n)
  {
    if n > 0 { IterateAdd(f, x, m, n - 1); }
  }

  ghost function Ticker(config: Config): World -> World { (w: World) => TickWorld(config, w) }

  // The worlds that ticks alone lead to.
  ghost predicate Reaches(config: Config, w: World, g: World) { exists n: nat :: g == Iterate(Ticker(config), w, n) }

  lemma ReachesItself(config: Config, w: World)
    ensures Reaches(config, w, w)
  {
    assert w == Iterate(Ticker(config), w, 0);
  }

  lemma TickReaches(config: Config, w: World, g: World)
    requires Reaches(config, w, g)
    ensures Reaches(config, w, TickWorld(config, g))
  {
    var n: nat :| g == Iterate(Ticker(config), w, n);
    assert Ticker(config)(g) == Iterate(Ticker(config), w, n + 1);
  }

  lemma ReachesOn(config: Config, w: World, g: World, h: World)
    requires Reaches(config, w, g) && Reaches(config, g, h)
    ensures Reaches(config, w, h)
  {
    var m: nat :| g == Iterate(Ticker(config), w, m);
    var n: nat :| h == Iterate(Ticker(config), g, n);
    IterateAdd(Ticker(config), w, m, n);
  }

  function Empty(tables: Tables): World {
    World(tables, map[], true, None, map[], map[], [], {})
  }

  // Stored events are permanent and immutable, and ledger rows are never lost.
  predicate Grows(events: map<string, EventRow>, later: map<string, EventRow>) {
    forall k :: k in events ==> k in later && later[k] == events[k]
  }

  lemma ExecGrows(config: Config, f: Frame, c: Call)
    ensures var g := Exec(config, f, c);
      && Grows(f.tables.events, g.tables.events)
      && (forall k :: k in g.tables.events && k !in f.tables.events ==>
            c.InsertEvent? && k == c.event.key && g.tables.events[k] == RowOf(config, f, c.event, c.receivedAt))
      && f.tables.ledger.Keys <= g.tables.ledger.Keys
      && (forall k :: k in g.tables.ledger && k !in f.tables.ledger ==> c.Notify? && k == c.key)
  {
  }
}
