/** A marker that is really lost: the first run of a source dies before announcing
    it, and a second run within the lookback recovers something else.
 */
module ReconcileCrashed {
  import opened Types
  import opened Events
  import opened Correlate
  import opened Reconcile
  import opened ReconcileFlood
  import opened ReconcileLost
  import opened ReconcileMarkers
  import opened ReconcileSafety
  import opened ReconcileTicks
  import Repair = ReconcileRepair
  import Timestamps

  // A first run of the source, up to the decision to announce its marker.
  lemma FirstDecides(config: Config, w: World, source: string, channel: string, first: Time) returns (g: World)
    requires Timestamps.Prints(config.text)
    requires MarkersTo(config, channel)
    requires w == Empty(BLANK).(engaged := false)
    ensures Reaches(config, Step(config, w, Begin(source, true, first, LostItems(source, "1"))), g)
    ensures !g.engaged && g.cursors == map[] && g.last == map[source := first] && g.tables.ledger == map[]
    ensures g.tables.events.Keys == {Lost(source, "1").key, FirstMarker(config, source, first)}
    ensures OnlyMarker(config, g.tables.events, source, first)
  {
    var begun := Begins(config, w, source, first, "1");
    RoutesOnlyMarkers(config, channel, Lost(source, "1"), first);
    g := MarksWindow(config, begun, source, first, "1");
  }

  // Up to its death in that place.
  lemma CrashedRun(config: Config, names: set<string>, source: string, channel: string, first: Time)
    returns (acts: seq<Act>)
    requires Timestamps.Prints(config.text)
    requires MarkersTo(config, channel)
    requires source in names
    ensures AllLegal(names, acts)
    ensures var w := Steps(config, Empty(BLANK), acts);
      && w.run.None? && !w.engaged && w.cursors == map[] && w.last == map[source := first] && w.tables.ledger == map[]
      && OnlyMarker(config, w.tables.events, source, first)
      && w.tables.events.Keys == {Lost(source, "1").key, FirstMarker(config, source, first)}
  {
    var e := Empty(BLANK);
    assert Steps(config, e, []) == e && [] + [Flip(false)] == [Flip(false)];
    StepsAppend(config, e, [], Flip(false));
    var begin := Begin(source, true, first, LostItems(source, "1"));
    var g := FirstDecides(config, Step(config, e, Flip(false)), source, channel, first);
    var run := TicksAreARun(config, e, [Flip(false)], begin, g);
    LostIsKeyed(source, "1");
    FlipBeginTicks(names, begin, run);
    acts := run + [Crash];
    StepsAppend(config, e, run, Crash);
  }

  // A second run finds neither its item nor its marker stored.
  lemma FreshKeys(config: Config, source: string, first: Time, second: Time)
    requires Timestamps.Prints(config.text)
    requires first < second
    ensures Lost(source, "2").key !in {Lost(source, "1").key, FirstMarker(config, source, first)}
    ensures FirstMarker(config, source, second) !in {Lost(source, "1").key, FirstMarker(config, source, first)}
  {
    LostDiffer(source);
    ItemIsNoMark(config, source, "2", first);
    ItemIsNoMark(config, source, "1", second);
    MarksDiffer(config, source, first, second);
    NeitherOf(Lost(source, "2").key, Lost(source, "1").key, FirstMarker(config, source, first));
    NeitherOf(FirstMarker(config, source, second), Lost(source, "1").key, FirstMarker(config, source, first));
  }

  lemma NeitherOf(x: string, a: string, b: string)
    requires x != a && x != b
    ensures x !in {a, b}
  {
  }

  lemma ItemIsNoMark(config: Config, source: string, item: string, first: Time)
    requires Timestamps.Prints(config.text)
    ensures Lost(source, item).key != FirstMarker(config, source, first)
  {
    LostIsNoMark(source, item, config.text(first - DEFAULT_LOOKBACK));
  }

  lemma MarksDiffer(config: Config, source: string, first: Time, second: Time)
    requires Timestamps.Prints(config.text)
    requires first < second
    ensures FirstMarker(config, source, first) != FirstMarker(config, source, second)
  {
    OtherWindow(config, source, first - DEFAULT_LOOKBACK, second - DEFAULT_LOOKBACK);
  }

  lemma LostDiffer(source: string)
    ensures Lost(source, "1").key != Lost(source, "2").key
  {
    var a, b := Lost(source, "1").key, Lost(source, "2").key;
    assert a[|a| - 1] == '1' && b[|b| - 1] == '2';
  }

  lemma RoutesOnlyMarkers(config: Config, channel: string, e: Event, now: Time)
    requires MarkersTo(config, channel)
    requires e.kind != ReconcileGap
    ensures FanOutCalls(config, e, now, false) == []
  {
    var rules := config.rules;
    assert rules[..0] == [];
    assert ChannelsFor(rules[..0], e.kind, e.source) == [];
  }

  lemma FlipBeginTicks(names: set<string>, begin: Act, run: seq<Act>)
    requires Legal(names, begin) && [Flip(false)] + [begin] <= run && forall i :: 1 < i < |run| ==> run[i] == Tick
    ensures AllLegal(names, run)
  {
    assert run[0] == ([Flip(false)] + [begin])[0] && run[1] == ([Flip(false)] + [begin])[1];
  }

  // A second run, within the lookback, that recovers another event.
  lemma SecondRun(config: Config, w: World, source: string, channel: string, first: Time, second: Time)
    returns (g: World)
    requires Timestamps.Prints(config.text)
    requires MarkersTo(config, channel) && w.run.None? && !w.engaged && w.cursors == map[]
    requires w.last == map[source := first] && first < second
    requires w.tables.events.Keys == {Lost(source, "1").key, FirstMarker(config, source, first)}
    ensures Reaches(config, Step(config, w, Begin(source, true, second, LostItems(source, "2"))), g)
    ensures g.run.Some? && g.run.value.phase == Finish && g.run.value.recovered == 1 && g.run.value.source == source
  {
    var begun := Begins(config, w, source, second, "2");
    FreshKeys(config, source, first, second);
    RoutesOnlyMarkers(config, channel, Lost(source, "2"), second);
    assert OwnKey(begun.run.value) == FirstMarker(config, source, second);
    var deciding := MarksWindow(config, begun, source, second, "2");
    g := NotifyTicks(config, deciding, Marker(begun.run.value));
    Onward(config, begun, deciding, g, Finish, 1);
  }

  // The ticks of a run, apart from what came before.
  lemma TicksOfRun(config: Config, names: set<string>, before: seq<Act>, begin: Act, run: seq<Act>)
    returns (during: seq<Act>)
    requires AllLegal(names, before) && Legal(names, begin)
    requires before + [begin] <= run && forall i :: |before| < i < |run| ==> run[i] == Tick
    ensures AllLegal(names, run) && forall i :: 0 <= i < |during| ==> during[i] == Tick
    ensures Steps(config, Empty(BLANK), run) ==
      Steps(config, Step(config, Steps(config, Empty(BLANK), before), begin), during)
  {
    during := run[|before| + 1..];
    assert run == (before + [begin]) + during;
    StepsSplit(config, Empty(BLANK), before + [begin], during);
    StepsAppend(config, Empty(BLANK), before, begin);
    forall i | 0 <= i < |run|
      ensures Legal(names, run[i])
    {
      if i <= |before| { assert run[i] == (before + [begin])[i]; }
    }
  }

  lemma LostLater(config: Config, names: set<string>, g: World, later: seq<Act>, key: string)
    requires Clear(config, names) && AllKept(config, names, g) && AllLegal(names, later)
    requires g.run.Some? && g.run.value.phase.Finish?
    requires key in g.tables.events && g.tables.events[key].kind == ReconcileGap
      && g.tables.events[key].source == g.run.value.source
    ensures NoNewRow(TickWorld(config, g).fanned, Steps(config, TickWorld(config, g), later).fanned, key)
  {
    FinishedIsBehind(config, names, g, key);
    BehindTheCursorIsFinal(config, names, TickWorld(config, g), later, key);
  }

  lemma SecondWaits(config: Config, names: set<string>, w: World, source: string, first: Time, second: Time)
    requires source in names && w.run.None? && w.last == map[source := first] && first < second
    requires OnlyMarker(config, w.tables.events, source, first)
    ensures Waiting(names, w, Begin(source, true, second, LostItems(source, "2")), FirstMarker(config, source, first))
  {
    LostIsKeyed(source, "2");
  }

  lemma NotChosen(config: Config, w: World, source: string, first: Time, second: Time)
    requires Timestamps.Prints(config.text)
    requires w.cursors == map[] && first < second
    ensures !Chosen(config, w, Begin(source, true, second, LostItems(source, "2")),
      FirstMarker(config, source, first), 1)
  {
    OtherWindow(config, source, first - DEFAULT_LOOKBACK, second - DEFAULT_LOOKBACK);
  }

  lemma {:induction false} SecondStillOwes(config: Config, names: set<string>, source: string, channel: string,
                                           first: Time, second: Time,
                        before: seq<Act>, during: seq<Act>, w: World, g: World)
    requires MarkersTo(config, channel)
    requires Clear(config, names) && source in names && first < second < first + DEFAULT_LOOKBACK
    requires AllLegal(names, before) && forall i :: 0 <= i < |during| ==> during[i] == Tick
    requires w == Steps(config, Empty(BLANK), before) && w.run.None? && w.cursors == map[]
    requires w.last == map[source := first] && w.tables.ledger == map[]
      && OnlyMarker(config, w.tables.events, source, first)
    requires g == Steps(config,
      Step(config, w, Begin(source, true, second, LostItems(source, "2"))), during)
    requires g.run.Some? && g.run.value.phase.Finish? && g.run.value.recovered == 1 && !g.run.value.suppressed
    ensures !Repair.FannedOut(config, g.tables, second - DEFAULT_LOOKBACK, FirstMarker(config, source, first))
  {
    var begin, key := Begin(source, true, second, LostItems(source, "2")), FirstMarker(config, source, first);
    SecondWaits(config, names, w, source, first, second);
    NotYet(config, w, source, channel, first, second);
    NotChosen(config, w, source, first, second);
    RepairedIff(config, names, before, begin, during, key);
  }

  lemma TickNeverSilences(config: Config, w: World)
    requires !w.engaged && (w.run.Some? ==> !w.run.value.suppressed)
    ensures var g := TickWorld(config, w); !g.engaged && (g.run.Some? ==> !g.run.value.suppressed)
  {
  }

  lemma {:induction false} NeverSilenced(config: Config, w: World, ticks: seq<Act>)
    requires !w.engaged && (w.run.Some? ==> !w.run.value.suppressed)
    requires forall i :: 0 <= i < |ticks| ==> ticks[i] == Tick
    ensures var g := Steps(config, w, ticks); !g.engaged && (g.run.Some? ==> !g.run.value.suppressed)
  {
    if ticks != [] {
      NeverSilenced(config, w, ticks[..|ticks| - 1]);
      TickNeverSilences(config, Steps(config, w, ticks[..|ticks| - 1]));
    }
  }

  // Both runs, up to the end of the second.
  lemma BothRuns(config: Config, names: set<string>, source: string, channel: string, first: Time, second: Time)
    returns (run: seq<Act>, g: World)
    requires MarkersTo(config, channel)
    requires Clear(config, names) && source in names && first < second < first + DEFAULT_LOOKBACK
    ensures AllLegal(names, run) && g == Steps(config, Empty(BLANK), run)
    ensures g.run.Some? && g.run.value.phase.Finish? && g.run.value.source == source
    ensures FirstMarker(config, source, first) in g.tables.events
    ensures var row := g.tables.events[FirstMarker(config, source, first)];
      row.kind == ReconcileGap && row.source == source
    ensures !Repair.FannedOut(config, g.tables, second - DEFAULT_LOOKBACK, FirstMarker(config, source, first))
  {
    var key := FirstMarker(config, source, first);
    var before := CrashedRun(config, names, source, channel, first);
    var w := Steps(config, Empty(BLANK), before);
    var begin := Begin(source, true, second, LostItems(source, "2"));
    g := SecondRun(config, w, source, channel, first, second);
    run := TicksAreARun(config, Empty(BLANK), before, begin, g);
    LostIsKeyed(source, "2");
    var during := TicksOfRun(config, names, before, begin, run);
    var begun := Begins(config, w, source, second, "2");
    NeverSilenced(config, begun, during);
    SecondStillOwes(config, names, source, channel, first, second, before, during, w, g);
    StaysThere(config, w, begin, during, key);
  }

  // So there is, for every source and channel and every two times within the
  // lookback, a schedule after which a marker is stored, its rule routes it to the
  // channel, it has no row there, and reconcile never makes one.
  lemma AMarkerIsLost(config: Config, names: set<string>, source: string, channel: string, first: Time, second: Time)
    returns (acts: seq<Act>)
    requires MarkersTo(config, channel)
    requires Clear(config, names) && source in names && first < second < first + DEFAULT_LOOKBACK
    ensures AllLegal(names, acts)
    ensures var key := FirstMarker(config, source, first);
      var w := Steps(config, Empty(BLANK), acts);
      && key in w.tables.events && w.tables.events[key].kind == ReconcileGap && w.tables.events[key].source == source
      && ChannelsFor(config.rules, ReconcileGap, source) == [channel] && NoteKey(key, channel) !in w.tables.ledger
      && forall later: seq<Act> :: AllLegal(names, later) ==> NoNewRow(w.fanned, Steps(config, w, later).fanned, key)
  {
    var key, e := FirstMarker(config, source, first), Empty(BLANK);
    var run, g := BothRuns(config, names, source, channel, first, second);
    acts := run + [Tick];
    StepsAppend(config, e, run, Tick);
    MissingRow(config, g, source, channel, key, second - DEFAULT_LOOKBACK);
    KeepsAllFrom(config, names, e, run);
    forall later: seq<Act> | AllLegal(names, later)
      ensures NoNewRow(TickWorld(config, g).fanned, Steps(config, TickWorld(config, g), later).fanned, key)
    {
      LostLater(config, names, g, later, key);
    }
  }

  lemma NotYet(config: Config, w: World, source: string, channel: string, first: Time, second: Time)
    requires MarkersTo(config, channel) && OnlyMarker(config, w.tables.events, source, first)
      && w.tables.ledger == map[]
    requires second < first + DEFAULT_LOOKBACK
    ensures !Repair.FannedOut(config, w.tables, second - DEFAULT_LOOKBACK, FirstMarker(config, source, first))
  {
    RoutesMarkers(config, channel, source);
    assert channel in ChannelsFor(config.rules, ReconcileGap, source);
  }

  lemma MissingRow(config: Config, g: World, source: string, channel: string, key: string, windowStart: Time)
    requires MarkersTo(config, channel) && !Repair.FannedOut(config, g.tables, windowStart, key)
    requires key in g.tables.events && g.tables.events[key].kind == ReconcileGap
      && g.tables.events[key].source == source
    ensures ChannelsFor(config.rules, ReconcileGap, source) == [channel] && NoteKey(key, channel) !in g.tables.ledger
  {
    RoutesMarkers(config, channel, source);
  }

  lemma StaysThere(config: Config, w: World, begin: Act, during: seq<Act>, key: string)
    requires key in w.tables.events && begin.Begin?
    ensures var g := Steps(config, Step(config, w, begin), during);
      key in g.tables.events && g.tables.events[key] == w.tables.events[key]
  {
    GrowsFrom(config, Step(config, w, begin), during);
  }

  lemma {:induction false} GrowsFrom(config: Config, w: World, acts: seq<Act>)
    ensures Grows(w.tables.events, Steps(config, w, acts).tables.events)
  {
    if acts != [] {
      GrowsFrom(config, w, acts[..|acts| - 1]);
      StepGrows(config, Steps(config, w, acts[..|acts| - 1]), acts[|acts| - 1]);
    }
  }

  lemma StepGrows(config: Config, w: World, act: Act)
    ensures Grows(w.tables.events, Step(config, w, act).tables.events)
  {
    match act
    case Outside(c, mediaId) => ExecGrows(config, Frame(w.tables, mediaId), c);
    case Tick =>
      if w.run.Some? && w.run.value.phase.Apply? && w.run.value.phase.calls != [] {
        ExecGrows(config, Frame(w.tables, w.run.value.phase.mediaId), w.run.value.phase.calls[0]);
      }
    case _ =>
  }
}
