/** The condition on source names under which reconcile never floods is exact: with
    two names of which LIKE takes one for the other, the run of the one announces
    a marker that a completed run of the other had stored in silence. */
module ReconcileFlood {
  import opened Types
  import opened Events
  import opened Correlate
  import opened Reconcile
  import opened ReconcileSafety
  import opened ReconcileMarkers
  import opened ReconcileTicks
  import Arr
  import Like
  import Timestamps

  // A lost event of a source, and a rule that routes markers.
  function Lost(source: string, item: string): Event {
    Event(source, KeyOf(source, "watch.completed", item), Origin.Reconcile, WatchCompleted, None, None, None,
      None, false)
  }

  predicate MarkersTo(config: Config, channel: string) { config.rules == [Rule({ReconcileGap}, channel, None)] }

  lemma RoutesMarkers(config: Config, channel: string, source: string)
    requires MarkersTo(config, channel)
    ensures ChannelsFor(config.rules, ReconcileGap, source) == [channel]
  {
    var rules := config.rules;
    assert rules[..0] == [];
    assert ChannelsFor(rules[..0], ReconcileGap, source) == [];
  }

  // An event without media or user is only inserted.
  lemma PlainApply(config: Config, t: Tables, e: Event, at: Time)
    requires e.media.None? && e.user.None? && !IsLifecycle(e.kind) && e.key !in t.events
    ensures Applied(config, Frame(t, None), e, at).tables ==
      t.(events := t.events[e.key := RowOf(config, Frame(t, None), e, at)])
  {
  }

  lemma NoCallsNoChange(config: Config, t: Tables, e: Event, now: Time, engaged: bool)
    requires FanOutCalls(config, e, now, engaged) == []
    ensures ExecAll(config, Frame(t, None), FanOutCalls(config, e, now, engaged)).tables == t
  {
  }

  // A run that stores one plain event which is routed nowhere, or silenced.
  lemma StoresSilently(config: Config, w: World, e: Event, record: Option<Arr.Record>, next: Next) returns (g: World)
    requires w.run.Some? && w.run.value.phase == StartApply(e, record, w.run.value.now, None, next)
    requires FanOutCalls(config, e, w.run.value.now, w.engaged) == []
    requires e.media.None? && e.user.None? && !IsLifecycle(e.kind) && e.key !in w.tables.events
    ensures Reaches(config, w, g)
    ensures Moved(w, g, Continue(next), Gained(w.run.value.recovered, true, next))
    ensures g.tables == w.tables.(events :=
      w.tables.events[e.key := RowOf(config, Frame(w.tables, None), e, w.run.value.now)])
  {
    var applied := ApplyTicks(config, w, e, record, None, next);
    PlainApply(config, w.tables, e, w.run.value.now);
    g := NotifyTicks(config, applied, e);
    NoCallsNoChange(config, applied.tables, e, w.run.value.now, w.engaged);
    Onward(config, w, applied, g, Continue(next), Gained(w.run.value.recovered, true, next));
  }

  // ---- A run that loses one event and marks its window -------------------------

  function LostItems(source: string, item: string): seq<Item> { [Item(Lost(source, item), None, false)] }

  lemma LostIsKeyed(source: string, item: string)
    ensures Keyed(source, WatchCompleted, Lost(source, item).key)
  {
    OtherKey(source, "watch.completed", item);
  }

  lemma LostIsNoMark(source: string, item: string, window: string)
    requires Timestamps.KeyText(window)
    ensures Lost(source, item).key != GapKey(source, window)
  {
    LostIsKeyed(source, item);
    GapKeyIsMarkerKey(source, window);
  }

  // Its one item, if nobody is told about it.
  lemma StoresItem(config: Config, w: World, e: Event) returns (g: World)
    requires w.run.Some? && w.run.value.phase == Scan([Item(e, None, false)]) && w.run.value.recovered == 0
    requires FanOutCalls(config, e, w.run.value.now, w.engaged) == [] && e.kind == WatchCompleted
    requires e.media.None? && e.user.None? && e.key !in w.tables.events
    ensures Reaches(config, w, g) && Moved(w, g, Scan([]), 1)
    ensures g.tables == w.tables.(events :=
      w.tables.events[e.key := RowOf(config, Frame(w.tables, None), e, w.run.value.now)])
  {
    var items := [Item(e, None, false)];
    var scanned := ScanTick(config, w, items);
    var guarded := GuardTick(config, scanned, items[0], items[1..]);
    Onward(config, w, scanned, guarded, guarded.run.value.phase, 0);
    g := StoresSilently(config, guarded, e, None, NextItems(items[1..]));
    Onward(config, w, guarded, g, Scan([]), 1);
  }

  // Then its marker, up to the decision to announce it.
  lemma StoresMarker(config: Config, w: World) returns (g: World)
    requires w.run.Some? && w.run.value.phase == Scan([]) && w.run.value.recovered == 1 && w.run.value.transient
    requires OwnKey(w.run.value) !in w.tables.events
    ensures Reaches(config, w, g)
    ensures Moved(w, g, Decide(OwnKey(w.run.value), ReconcileGap, w.run.value.source, NextFinish), 1)
    ensures g.tables == w.tables.(events := w.tables.events[OwnKey(w.run.value) :=
      RowOf(config, Frame(w.tables, None), Marker(w.run.value), w.run.value.now)])
  {
    var left := LeaveScan(config, w);
    var looked := GapTick(config, left);
    Onward(config, w, left, looked, looked.run.value.phase, 1);
    assert Marker(left.run.value) == Marker(w.run.value);
    g := ApplyTicks(config, looked, Marker(w.run.value), None, None, NextFinish);
    PlainApply(config, looked.tables, Marker(w.run.value), w.run.value.now);
    Onward(config, w, looked, g, g.run.value.phase, 1);
  }

  predicate AtStart(w: World, source: string, now: Time, item: string) {
    && w.run.Some? && w.run.value.source == source && w.run.value.now == now && w.run.value.transient
    && w.run.value.phase == Scan(LostItems(source, item)) && w.run.value.recovered == 0
    && Timestamps.KeyText(w.run.value.window)
  }

  // The whole run up to that decision.
  lemma MarksWindow(config: Config, w: World, source: string, now: Time, item: string) returns (g: World)
    requires AtStart(w, source, now, item) && FanOutCalls(config, Lost(source, item), now, w.engaged) == []
    requires Lost(source, item).key !in w.tables.events && OwnKey(w.run.value) !in w.tables.events
    ensures Reaches(config, w, g) && Moved(w, g, Decide(OwnKey(w.run.value), ReconcileGap, source, NextFinish), 1)
    ensures g.tables == w.tables.(events := g.tables.events)
    ensures g.tables.events.Keys == w.tables.events.Keys + {Lost(source, item).key, OwnKey(w.run.value)}
    ensures Grows(w.tables.events, g.tables.events)
    ensures g.tables.events[Lost(source, item).key].kind == WatchCompleted
    ensures var row := g.tables.events[OwnKey(w.run.value)];
      row.kind == ReconcileGap && row.origin == Origin.Reconcile && row.source == source && row.receivedAt == now
  {
    LostIsNoMark(source, item, w.run.value.window);
    var stored := StoresItem(config, w, Lost(source, item));
    SameKey(w.run.value, stored.run.value);
    g := StoresMarker(config, stored);
    Onward(config, w, stored, g, g.run.value.phase, 1);
  }

  // ---- A completed, suppressed run ------------------------------------------

  function FirstMarker(config: Config, source: string, first: Time): string {
    GapKey(source, config.text(first - DEFAULT_LOOKBACK))
  }

  // The only marker stored is that of `t`.
  predicate OnlyMarker(config: Config, events: map<string, EventRow>, t: string, first: Time) {
    && FirstMarker(config, t, first) in events
    && (forall k :: k in events && events[k].kind == ReconcileGap ==> k == FirstMarker(config, t, first))
    && var row := events[FirstMarker(config, t, first)];
       row.kind == ReconcileGap && row.origin == Origin.Reconcile && row.source == t && row.receivedAt == first
  }

  lemma Begins(config: Config, w: World, source: string, now: Time, item: string) returns (begun: World)
    requires CanBegin(w, source, now)
    ensures begun == Step(config, w, Begin(source, true, now, LostItems(source, item)))
    ensures begun == w.(run := begun.run, last := w.last[source := now])
    ensures begun.run == Some(Run(source, true, now, WindowStart(w.cursors, source, now),
      config.text(WindowStart(w.cursors, source, now)), 0, Scan(LostItems(source, item)),
        LostItems(source, item), false))
  {
    begun := Step(config, w, Begin(source, true, now, LostItems(source, item)));
  }

  // An engaged switch lets the run finish without a row.
  lemma Unannounced(config: Config, w: World, e: Event) returns (g: World)
    requires w.run.Some? && w.run.value.phase == Decide(e.key, e.kind, e.source, NextFinish) && w.engaged
    ensures Reaches(config, w, g) && Moved(w, g, Finish, w.run.value.recovered) && g.tables == w.tables
  {
    g := NotifyTicks(config, w, e);
    NoCallsNoChange(config, w.tables, e, w.run.value.now, true);
  }

  lemma EndsSilently(config: Config, w: World, e: Event) returns (g: World)
    requires w.run.Some? && w.run.value.phase == Decide(e.key, e.kind, e.source, NextFinish) && w.engaged
    ensures Reaches(config, w, g) && g.run.None? && g.engaged && g.last == w.last && g.tables == w.tables
    ensures g.cursors == w.cursors[w.run.value.source := w.run.value.now]
    ensures w.run.value.now in CompletedOf(g.completed, w.run.value.source)
  {
    var marked := Unannounced(config, w, e);
    g := FinishTick(config, marked);
    ReachesOn(config, w, marked, g);
  }

  lemma CompletesSilently(config: Config, source: string, first: Time) returns (w: World)
    requires Timestamps.Prints(config.text)
    ensures Reaches(config, Step(config, Empty(BLANK), Begin(source, true, first, LostItems(source, "u:r"))), w)
    ensures w.run.None? && w.engaged && w.last == map[source := first] && w.cursors == map[source := first]
    ensures first in CompletedOf(w.completed, source) && OnlyMarker(config, w.tables.events, source, first)
    ensures w.tables.ledger == map[]
  {
    var begun := Begins(config, Empty(BLANK), source, first, "u:r");
    var deciding := MarksWindow(config, begun, source, first, "u:r");
    w := EndsSilently(config, deciding, Marker(begun.run.value));
    ReachesOn(config, begun, deciding, w);
  }

  lemma SilentRun(config: Config, names: set<string>, source: string, first: Time) returns (acts: seq<Act>)
    requires Timestamps.Prints(config.text)
    requires source in names
    ensures AllLegal(names, acts)
    ensures var w := Steps(config, Empty(BLANK), acts);
      && w.run.None? && w.engaged && w.last == map[source := first] && w.cursors == map[source := first]
      && first in CompletedOf(w.completed, source) && OnlyMarker(config, w.tables.events, source, first)
      && w.tables.ledger == map[]
  {
    LostIsKeyed(source, "u:r");
    var done := CompletesSilently(config, source, first);
    var begin := Begin(source, true, first, LostItems(source, "u:r"));
    acts := TicksAreARun(config, Empty(BLANK), [], begin, done);
    assert acts[0] == ([] + [begin])[0];
  }

  // ---- The run that announces it ----------------------------------------------

  lemma FindsMarker(config: Config, events: map<string, EventRow>, s: string, t: string, first: Time)
    requires Timestamps.Prints(config.text)
    requires NoColon(s) && NoColon(t) && Like.Matches(s, t) && OnlyMarker(config, events, t, first)
    ensures NewestMarker(events, s) == Some(FirstMarker(config, t, first))
  {
    GapKeyIsMarkerKey(t, config.text(first - DEFAULT_LOOKBACK));
    MarkerFoundIff(s, t, FirstMarker(config, t, first));
    assert IsMarkerOf(s, FirstMarker(config, t, first), events[FirstMarker(config, t, first)]);
  }

  lemma DecideTick(config: Config, w: World) returns (g: World)
    requires w.run.Some? && w.run.value.phase.Decide? && !w.engaged
    requires ChannelsFor(config.rules, w.run.value.phase.kind, w.run.value.phase.source) != []
    ensures Reaches(config, w, g) && g == w.(run := g.run)
    ensures var run, p := w.run.value, w.run.value.phase;
      g.run == Some(run.(phase := FanOut(p.key, ChannelsFor(config.rules, p.kind, p.source), p.next)))
  {
    g := TickWorld(config, w);
    ReachesItself(config, w);
    TickReaches(config, w, w);
  }

  lemma FirstRow(config: Config, w: World) returns (g: World)
    requires w.run.Some? && w.run.value.phase.FanOut? && w.run.value.phase.channels != []
    requires NoteKey(w.run.value.phase.key, w.run.value.phase.channels[0]) !in w.tables.ledger
    ensures Reaches(config, w, g) && g.tables.events == w.tables.events && g.completed == w.completed
    ensures var run, p := w.run.value, w.run.value.phase;
      g.fanned == w.fanned + [Fanned(NoteKey(p.key, p.channels[0]), run.source, run.now)]
  {
    g := TickWorld(config, w);
    ReachesItself(config, w);
    TickReaches(config, w, w);
  }

  lemma Announces(config: Config, w: World, channel: string) returns (g: World)
    requires w.run.Some? && w.run.value.phase.Decide? && !w.engaged
    requires var p := w.run.value.phase;
      ChannelsFor(config.rules, p.kind, p.source) == [channel] && NoteKey(p.key, channel) !in w.tables.ledger
    ensures Reaches(config, w, g) && g.tables.events == w.tables.events && g.completed == w.completed
    ensures g.fanned == w.fanned +
      [Fanned(NoteKey(w.run.value.phase.key, channel), w.run.value.source, w.run.value.now)]
  {
    var decided := DecideTick(config, w);
    g := FirstRow(config, decided);
    ReachesOn(config, w, decided, g);
  }

  // The run of `s`, which recovers nothing, up to its first ledger row.
  lemma ForeignRun(config: Config, w: World, s: string, t: string, channel: string, first: Time) returns (g: World)
    requires Timestamps.Prints(config.text)
    requires NoColon(s) && NoColon(t) && Like.Matches(s, t) && MarkersTo(config, channel)
    requires OnlyMarker(config, w.tables.events, t, first) && w.tables.ledger == map[] && !w.engaged
    requires w.run == Some(Run(s, true, first + 1, first + 1 - DEFAULT_LOOKBACK,
      config.text(first + 1 - DEFAULT_LOOKBACK), 0, Scan([]), [], false))
    ensures Reaches(config, w, g) && g.tables.events == w.tables.events && g.completed == w.completed
    ensures g.fanned != [] && g.fanned[|g.fanned| - 1] ==
      Fanned(NoteKey(FirstMarker(config, t, first), channel), s, first + 1)
  {
    var left := LeaveScan(config, w);
    var looked := GapTick(config, left);
    FindsMarker(config, w.tables.events, s, t, first);
    RoutesMarkers(config, channel, t);
    g := Announces(config, looked, channel);
    ReachesOn(config, w, left, looked);
    ReachesOn(config, w, looked, g);
  }

  // Two names of which one, read as a pattern, accepts the other: a schedule in
  // which a marker stored by a completed run, silenced by the switch, is announced
  // later by the run of the other source.
  lemma ConfusedNamesFlood(config: Config, names: set<string>, s: string, t: string, channel: string, first: Time)
    returns (acts: seq<Act>)
    requires Timestamps.Prints(config.text)
    requires s in names && t in names && s != t && NoColon(s) && NoColon(t) && Like.Matches(s, t)
    requires MarkersTo(config, channel)
    ensures AllLegal(names, acts) && !Floodless(config, acts)
    ensures var w := Steps(config, Empty(BLANK), acts);
      exists i :: 0 <= i < |w.fanned| &&
        var f := w.fanned[i];
        && f.source == s && f.key.eventKey in w.tables.events && w.tables.events[f.key.eventKey].source == t
        && w.tables.events[f.key.eventKey].receivedAt in CompletedOf(w.completed, t)
  {
    var e := Empty(BLANK);
    var silent := SilentRun(config, names, t, first);
    var flipped := silent + [Flip(false)];
    StepsAppend(config, e, silent, Flip(false));
    var begin := Begin(s, true, first + 1, []);
    var w := Steps(config, e, flipped);
    var begun := Step(config, w, begin);
    var g := ForeignRun(config, begun, s, t, channel, first);
    acts := TicksAreARun(config, e, flipped, begin, g);
    ScheduleIsLegal(names, silent, flipped, acts, begin);
    var f := g.fanned[|g.fanned| - 1];
    assert f.source == s && g.tables.events[f.key.eventKey].source == t;
    assert !Rightful(g, f);
  }

  lemma ScheduleIsLegal(names: set<string>, silent: seq<Act>, flipped: seq<Act>, acts: seq<Act>, begin: Act)
    requires AllLegal(names, silent) && flipped == silent + [Flip(false)] && Legal(names, begin)
    requires flipped + [begin] <= acts && forall i :: |flipped| < i < |acts| ==> acts[i] == Tick
    ensures AllLegal(names, acts)
  {
    forall i | 0 <= i < |acts|
      ensures Legal(names, acts[i])
    {
      if i < |silent| {
        assert acts[i] == silent[i];
      } else if i <= |flipped| {
        assert acts[i] == (flipped + [begin])[i];
      }
    }
  }

  // Colon-free source names keep reconcile from flooding, under every rule and
  // schedule, if and only if none of them is taken for another, however instants
  // are printed.
  lemma NeverFloodsIff(names: set<string>, text: Time -> string)
    requires ColonFree(names) && Timestamps.Prints(text)
    ensures GoodNames(names) <==> forall config: Config, acts: seq<Act> ::
      config.text == text && AllLegal(names, acts) ==> Floodless(config, acts)
  {
    if GoodNames(names) {
      forall config: Config, acts: seq<Act> | config.text == text && AllLegal(names, acts)
        ensures Floodless(config, acts)
      {
        NeverFloods(config, names, acts);
      }
    } else {
      var s, t :| s in names && t in names && Like.Matches(s, t) && s != t;
      var config := Config([Rule({ReconcileGap}, "c", None)], {}, text);
      var acts := ConfusedNamesFlood(config, names, s, t, "c", 0);
      assert config.text == text && AllLegal(names, acts) && !Floodless(config, acts);
    }
  }
}
