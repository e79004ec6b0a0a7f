/** A run that reaches its end has stored every event its API answer expects,
    and has notified for everything reconcile stored since the window start,
    whatever earlier runs died and whatever ingest did in between.
 */
module ReconcileRepair {
  import opened Types
  import opened Correlate
  import opened Reconcile

  predicate FannedOut(config: Config, t: Tables, windowStart: Time, key: string) {
    key in t.events && Repairable(t.events[key], windowStart) ==>
      forall ch :: ch in ChannelsFor(config.rules, t.events[key].kind, t.events[key].source) ==>
        NoteKey(key, ch) in t.ledger
  }

  // The event is stored, or one of the two guards found its twin.
  ghost predicate Stored(events: map<string, EventRow>, item: Item) {
    item.event.key in events || TwinStored(events, item) || NearDelete(item)
  }

  function TodoOf(next: Next): seq<Item> { if next.NextItems? then next.todo else [] }

  // Items the run has not looked at yet.
  function Pending(p: Phase): seq<Item> {
    match p
    case Scan(todo) => todo
    case Guard(item, rest) => [item] + rest
    case Apply(_, _, _, _, _, _, next) => TodoOf(next)
    case Decide(_, _, _, next) => TodoOf(next)
    case FanOut(_, _, next) => TodoOf(next)
    case Gap => []
    case Finish => []
  }

  // The key being worked on.
  predicate Busy(p: Phase, key: string) {
    match p
    case Apply(e, _, _, _, _, _, _) => key == e.key
    case Decide(k, _, _, _) => key == k
    case FanOut(k, _, _) => key == k
    case _ => false
  }

  predicate Ingested(events: map<string, EventRow>, key: string) {
    key in events ==> events[key].origin == Origin.Webhook
  }

  predicate PhaseFacts(config: Config, run: Run, t: Tables) {
    match run.phase
    case Guard(item, _) => Ingested(t.events, item.event.key)
    case Apply(e, _, _, calls, inserted, known, _) =>
      && (InsertEvent(e, run.now) in calls || e.key in t.events)
      && (forall c :: c in calls && c.InsertEvent? ==> c == InsertEvent(e, run.now))
      && (inserted ==> e.key in t.events && t.events[e.key].kind == e.kind && t.events[e.key].source == e.source)
      && (!inserted && known.None? ==> Ingested(t.events, e.key))
      && (!inserted && known.Some? ==> e.key in t.events && t.events[e.key] == known.value)
    case Decide(key, kind, source, _) => key in t.events && t.events[key].kind == kind && t.events[key].source == source
    case FanOut(key, channels, _) =>
      key in t.events &&
      forall ch :: ch in ChannelsFor(config.rules, t.events[key].kind, t.events[key].source) ==>
        NoteKey(key, ch) in t.ledger || ch in channels
    case _ => true
  }

  ghost predicate ItemDone(config: Config, run: Run, t: Tables, item: Item) {
    && (Busy(run.phase, item.event.key) || Stored(t.events, item))
    && (run.suppressed || Busy(run.phase, item.event.key) || FannedOut(config, t, run.windowStart, item.event.key))
  }

  ghost predicate Progress(config: Config, run: Run, t: Tables) {
    && PhaseFacts(config, run, t)
    && (forall i :: 0 <= i < |run.items| ==>
          run.items[i] in Pending(run.phase) || ItemDone(config, run, t, run.items[i]))
  }

  // ---- Every step keeps progress -------------------------------------------

  lemma OutsideProgress(config: Config, run: Run, t: Tables, c: Call, mediaId: Option<nat>)
    requires Progress(config, run, t) && Foreign(c)
    ensures Progress(config, run, Exec(config, Frame(t, mediaId), c).tables)
  {
  }

  lemma ApplyProgress(config: Config, w: World)
    requires w.run.Some? && Progress(config, w.run.value, w.tables)
    requires w.run.value.phase.Apply? && w.run.value.phase.calls != []
    ensures Progress(config, ApplyTick(config, w, w.run.value).run.value, ApplyTick(config, w, w.run.value).tables)
  {
  }

  lemma FanProgress(config: Config, w: World)
    requires w.run.Some? && Progress(config, w.run.value, w.tables)
    requires w.run.value.phase.FanOut? && w.run.value.phase.channels != []
    ensures Progress(config, FanTick(config, w, w.run.value).run.value, FanTick(config, w, w.run.value).tables)
  {
  }

  // Leaving the current key keeps progress when that key is settled.
  lemma LeaveKey(config: Config, run: Run, next: Run, t: Tables, key: string)
    requires Progress(config, run, t) && PhaseFacts(config, next, t)
    requires next.items == run.items && next.windowStart == run.windowStart && (run.suppressed ==> next.suppressed)
    requires forall k :: Busy(run.phase, k) ==> k == key
    requires forall item :: item in Pending(run.phase) ==> item in Pending(next.phase) || item.event.key == key
    requires Busy(next.phase, key)
      || (key in t.events && (next.suppressed || FannedOut(config, t, run.windowStart, key)))
    ensures Progress(config, next, t)
  {
  }

  lemma ReadProgress(config: Config, run: Run, t: Tables, engaged: bool)
    requires Progress(config, run, t)
    requires OnlyReads(run.phase)
    ensures Progress(config, ReadTick(config, run, t.events, engaged), t)
  {
    var next := ReadTick(config, run, t.events, engaged);
    ReadKeepsRun(config, run, t.events, engaged);
    match run.phase
    case Scan(_) => ScanProgress(config, run, t, engaged);
    case Guard(item, rest) => GuardProgress(config, run, t, engaged);
    case Apply(e, _, _, _, _, _, _) => LeaveKey(config, run, next, t, e.key);
    case Decide(key, _, _, _) => LeaveKey(config, run, next, t, key);
    case FanOut(key, _, _) => LeaveKey(config, run, next, t, key);
    case Gap => GapProgress(config, run, t, engaged);
  }

  lemma ScanProgress(config: Config, run: Run, t: Tables, engaged: bool)
    requires Progress(config, run, t) && run.phase.Scan?
    ensures Progress(config, ReadTick(config, run, t.events, engaged), t)
  {
  }

  lemma GuardProgress(config: Config, run: Run, t: Tables, engaged: bool)
    requires Progress(config, run, t) && run.phase.Guard?
    ensures Progress(config, ReadTick(config, run, t.events, engaged), t)
  {
  }

  lemma GapProgress(config: Config, run: Run, t: Tables, engaged: bool)
    requires Progress(config, run, t) && run.phase.Gap?
    ensures Progress(config, ReadTick(config, run, t.events, engaged), t)
  {
  }

  lemma StepProgress(config: Config, w: World, act: Act)
    requires w.run.Some? ==> Progress(config, w.run.value, w.tables)
    ensures var g := Step(config, w, act); g.run.Some? ==> Progress(config, g.run.value, g.tables)
  {
    match act
    case Begin(_, _, _, _) =>
    case Outside(c, mediaId) =>
      if w.run.Some? && Foreign(c) { OutsideProgress(config, w.run.value, w.tables, c, mediaId); }
    case Crash =>
    case Flip(_) =>
    case Tick =>
      if w.run.Some? {
        var p := w.run.value.phase;
        if p.Finish? { }
        else if p.Apply? && p.calls != [] { ApplyProgress(config, w); }
        else if p.FanOut? && p.channels != [] { FanProgress(config, w); }
        else { ReadProgress(config, w.run.value, w.tables, w.engaged); }
      }
  }

  // Whatever came before - crashed runs, completed runs, ingest at any store
  // call - a run about to advance its cursor has stored every expected event
  // not recognised as a twin, and unless the switch silenced it, every one of
  // them that reconcile itself stored after the window start (that is, after
  // the cursor a crashed run leaves in place) has a row on every routed channel.
  lemma {:induction false} CompletedRunIsComplete(config: Config, tables: Tables, acts: seq<Act>)
    ensures var w := Steps(config, Empty(tables), acts);
      w.run.Some? ==>
        && Progress(config, w.run.value, w.tables)
        && (w.run.value.phase.Finish? ==>
              forall i :: 0 <= i < |w.run.value.items| ==>
                var item := w.run.value.items[i];
                && Stored(w.tables.events, item)
                && (!w.run.value.suppressed ==> FannedOut(config, w.tables, w.run.value.windowStart, item.event.key)))
  {
    if acts != [] {
      var before := Steps(config, Empty(tables), acts[..|acts| - 1]);
      CompletedRunIsComplete(config, tables, acts[..|acts| - 1]);
      StepProgress(config, before, acts[|acts| - 1]);
    }
    var w := Steps(config, Empty(tables), acts);
    if w.run.Some? && w.run.value.phase.Finish? {
      assert forall i :: 0 <= i < |w.run.value.items| ==> ItemDone(config, w.run.value, w.tables, w.run.value.items[i]);
    }
  }
}
