/** What bursts of ticks do: a whole `apply`, a whole fan-out, one item, the end
    of a run. */
module ReconcileTicks {
  import opened Types
  import opened Events
  import opened Correlate
  import opened Reconcile
  import Arr

  // ---- The calls of an `apply` ---------------------------------------------

  predicate InApply(w: World) { w.run.Some? && w.run.value.phase.Apply? }

  // The world after all the calls of an `apply` have been made.
  ghost predicate AfterCalls(config: Config, w: World, g: World)
    requires InApply(w)
  {
    var run := w.run.value;
    var p := run.phase;
    var f := ExecAll(config, Frame(w.tables, p.mediaId), p.calls);
    var inserted := p.inserted || (Inserts(p.calls) && p.event.key !in w.tables.events);
    && g.run == Some(run.(phase := p.(mediaId := f.mediaId, calls := [], inserted := inserted)))
    && g == w.(tables := f.tables, run := g.run, stored := g.stored)
  }

  // One tick of an `apply`: its next call is made.
  lemma CallTick(config: Config, w: World) returns (g: World)
    requires InApply(w) && w.run.value.phase.calls != []
    ensures Reaches(config, w, g) && g == w.(tables := g.tables, run := g.run, stored := g.stored)
    ensures var run, p := w.run.value, w.run.value.phase;
      var f := Exec(config, Frame(w.tables, p.mediaId), p.calls[0]);
      var isNew := p.calls[0].InsertEvent? && p.calls[0].event.key !in w.tables.events;
      && g.tables == f.tables
      && g.run == Some(run.(phase := p.(mediaId := f.mediaId, calls := p.calls[1..], inserted := p.inserted || isNew)))
  {
    ReachesItself(config, w);
    TickReaches(config, w, w);
    g := TickWorld(config, w);
  }

  lemma InsertsHead(calls: seq<Call>, e: Event, now: Time)
    requires calls != [] && InserterOf(calls, e, now)
    ensures Inserts(calls) <==> calls[0].InsertEvent? || Inserts(calls[1..])
    ensures InserterOf(calls[1..], e, now)
  {
  }

  lemma {:induction false} CallsTick(config: Config, w: World) returns (g: World)
    requires InApply(w) && InserterOf(w.run.value.phase.calls, w.run.value.phase.event, w.run.value.now)
    ensures Reaches(config, w, g) && AfterCalls(config, w, g)
    decreases |w.run.value.phase.calls|
  {
    var p := w.run.value.phase;
    if p.calls == [] {
      ReachesItself(config, w);
      g := w;
    } else {
      var f := Frame(w.tables, p.mediaId);
      var mid := CallTick(config, w);
      InsertsHead(p.calls, p.event, w.run.value.now);
      ExecGrows(config, f, p.calls[0]);
      g := CallsTick(config, mid);
      ReachesOn(config, w, mid, g);
      assert [p.calls[0]] + p.calls[1..] == p.calls;
      FewThenRest(config, f, [p.calls[0]], p.calls[1..]);
    }
  }

  // ---- A fan-out -------------------------------------------------------------

  // The world after a fan-out has run to its end.
  ghost predicate AfterFanOut(config: Config, w: World, g: World)
    requires w.run.Some? && w.run.value.phase.FanOut?
  {
    var run := w.run.value;
    var p := run.phase;
    && g.run == Some(run.(phase := Continue(p.next)))
    && g.tables == ExecAll(config, Frame(w.tables, None), NotifyCalls(p.key, p.channels, run.now)).tables
    && g == w.(tables := g.tables, run := g.run, fanned := g.fanned)
  }

  lemma NotifyCallsHead(key: string, channels: seq<string>, now: Time)
    requires channels != []
    ensures NotifyCalls(key, channels, now) == [Notify(NoteKey(key, channels[0]), now)] +
      NotifyCalls(key, channels[1..], now)
  {
  }

  // One tick of a fan-out: a channel served, or the end.
  lemma FanOutTick(config: Config, w: World) returns (g: World)
    requires w.run.Some? && w.run.value.phase.FanOut?
    ensures Reaches(config, w, g) && g == w.(tables := g.tables, run := g.run, fanned := g.fanned)
    ensures var run, p := w.run.value, w.run.value.phase;
      if p.channels == [] then g.tables == w.tables && g.run == Some(run.(phase := Continue(p.next)))
      else
        && g.tables == Exec(config, Frame(w.tables, None), Notify(NoteKey(p.key, p.channels[0]), run.now)).tables
        && g.run == Some(run.(phase := FanOut(p.key, p.channels[1..], p.next)))
  {
    ReachesItself(config, w);
    TickReaches(config, w, w);
    g := TickWorld(config, w);
  }

  lemma {:induction false} FanOutTicks(config: Config, w: World) returns (g: World)
    requires w.run.Some? && w.run.value.phase.FanOut?
    ensures Reaches(config, w, g) && AfterFanOut(config, w, g)
    decreases |w.run.value.phase.channels|
  {
    var run, p := w.run.value, w.run.value.phase;
    g := FanOutTick(config, w);
    if p.channels == [] {
      assert NotifyCalls(p.key, p.channels, run.now) == [];
    } else {
      var mid := g;
      g := FanOutTicks(config, mid);
      ReachesOn(config, w, mid, g);
      NotifyCallsHead(p.key, p.channels, run.now);
      FewThenRest(config, Frame(w.tables, None), [Notify(NoteKey(p.key, p.channels[0]), run.now)],
        NotifyCalls(p.key, p.channels[1..], run.now));
    }
  }

  // ---- One item --------------------------------------------------------------

  predicate SameRun(r: Run, s: Run) {
    r.source == s.source && r.transient == s.transient && r.now == s.now && r.windowStart == s.windowStart
      && r.window == s.window && r.items == s.items
  }

  // The world is `w` but for what the run wrote and where it now stands.
  ghost predicate Moved(w: World, g: World, phase: Phase, recovered: nat)
    requires w.run.Some?
  {
    && g.run.Some? && SameRun(w.run.value, g.run.value) && g.run.value.phase == phase
       && g.run.value.recovered == recovered
    && g.cursors == w.cursors && g.engaged == w.engaged && g.last == w.last && g.completed == w.completed
  }

  lemma Onward(config: Config, w: World, g: World, h: World, phase: Phase, recovered: nat)
    requires w.run.Some? && Reaches(config, w, g) && g.run.Some?
      && Moved(w, g, g.run.value.phase, g.run.value.recovered)
    requires Reaches(config, g, h) && Moved(g, h, phase, recovered)
    ensures Reaches(config, w, h) && Moved(w, h, phase, recovered)
  {
    ReachesOn(config, w, g, h);
  }

  // From the decision to notify to the next item.
  lemma NotifyTicks(config: Config, w: World, e: Event) returns (g: World)
    requires w.run.Some? && w.run.value.phase.Decide?
    requires e.key == w.run.value.phase.key && e.kind == w.run.value.phase.kind && e.source == w.run.value.phase.source
    ensures Reaches(config, w, g) && Moved(w, g, Continue(w.run.value.phase.next), w.run.value.recovered)
    ensures g.tables == ExecAll(config, Frame(w.tables, None),
      FanOutCalls(config, e, w.run.value.now, w.engaged)).tables
  {
    g := TickWorld(config, w);
    ReachesItself(config, w);
    TickReaches(config, w, w);
    if ChannelsFor(config.rules, e.kind, e.source) == [] {
      assert FanOutCalls(config, e, w.run.value.now, w.engaged) == [];
    } else if !w.engaged {
      var mid := g;
      g := FanOutTicks(config, mid);
      ReachesOn(config, w, mid, g);
    }
  }

  function Gained(recovered: nat, inserted: bool, next: Next): nat {
    if inserted && next.NextItems? then recovered + 1 else recovered
  }

  function Settled(body: Event, inserted: bool, known: Option<EventRow>, windowStart: Time, next: Next): Phase {
    if inserted then Decide(body.key, body.kind, body.source, next)
    else if known.Some? then Repair(body.key, known.value, windowStart, next)
    else Continue(next)
  }

  lemma CallsDone(config: Config, w: World, g: World, body: Event, record: Option<Arr.Record>, known: Option<EventRow>,
                  next: Next)
    requires w.run.Some? && w.run.value.phase == StartApply(body, record, w.run.value.now, known, next)
      && AfterCalls(config, w, g)
    ensures g.tables == Applied(config, Frame(w.tables, None), body, w.run.value.now).tables
    ensures g.run.Some? && g.run.value.phase.Apply?
    ensures g.run.value == w.run.value.(phase :=
      Apply(body, record, g.run.value.phase.mediaId, [], body.key !in w.tables.events, known, next))
    ensures g == w.(tables := g.tables, run := g.run, stored := g.stored)
  {
    ApplyCallsInsert(body, w.run.value.now);
    ApplyInSteps(config, Frame(w.tables, None), body, w.run.value.now);
  }

  lemma ResultTick(config: Config, w: World)
    requires InApply(w) && w.run.value.phase.calls == []
    ensures var p, g := w.run.value.phase, TickWorld(config, w);
      && g.tables == w.tables
      && Moved(w, g, Settled(p.event, p.inserted, p.known, w.run.value.windowStart, p.next),
         Gained(w.run.value.recovered, p.inserted, p.next))
  {
  }

  lemma MovedOn(w: World, called: World, g: World)
    requires w.run.Some? && called.run.Some?
      && called == w.(tables := called.tables, run := called.run, stored := called.stored)
    requires called.run.value == w.run.value.(phase := called.run.value.phase)
    requires g.run.Some? && Moved(called, g, g.run.value.phase, g.run.value.recovered)
    ensures Moved(w, g, g.run.value.phase, g.run.value.recovered)
  {
  }

  // From the start of an `apply` to the tick that looks at its result.
  lemma ApplyTicks(config: Config, w: World, body: Event, record: Option<Arr.Record>, known: Option<EventRow>,
                   next: Next)
    returns (g: World)
    requires w.run.Some? && w.run.value.phase == StartApply(body, record, w.run.value.now, known, next)
    ensures Reaches(config, w, g) && g.tables == Applied(config, Frame(w.tables, None), body, w.run.value.now).tables
    ensures var inserted := body.key !in w.tables.events;
      Moved(w, g, Settled(body, inserted, known, w.run.value.windowStart, next),
        Gained(w.run.value.recovered, inserted, next))
  {
    ApplyCallsInsert(body, w.run.value.now);
    var called := CallsTick(config, w);
    CallsDone(config, w, called, body, record, known, next);
    ResultTick(config, called);
    g := TickWorld(config, called);
    TickReaches(config, w, called);
    MovedOn(w, called, g);
  }

  lemma ScanTick(config: Config, w: World, todo: seq<Item>) returns (g: World)
    requires w.run.Some? && todo != [] && w.run.value.phase == Scan(todo)
    ensures Reaches(config, w, g) && g.tables == w.tables
    ensures var key, events := todo[0].event.key, w.tables.events;
      Moved(w, g, if key in events then Repair(key, events[key], w.run.value.windowStart, NextItems(todo[1..]))
        else Guard(todo[0], todo[1..]),
            w.run.value.recovered)
  {
    ReachesItself(config, w);
    TickReaches(config, w, w);
    g := TickWorld(config, w);
  }

  lemma GuardTick(config: Config, w: World, item: Item, rest: seq<Item>) returns (g: World)
    requires w.run.Some? && w.run.value.phase == Guard(item, rest)
    ensures Reaches(config, w, g) && g.tables == w.tables
    ensures Moved(w, g, if TwinStored(w.tables.events, item) || NearDelete(item) then Scan(rest)
                        else StartApply(item.event, item.record, w.run.value.now, None, NextItems(rest)),
                  w.run.value.recovered)
  {
    ReachesItself(config, w);
    TickReaches(config, w, w);
    g := TickWorld(config, w);
  }

  // ---- The end of a run --------------------------------------------------------

  lemma LeaveScan(config: Config, w: World) returns (g: World)
    requires w.run.Some? && w.run.value.phase == Scan([])
    ensures Reaches(config, w, g) && g.tables == w.tables
    ensures Moved(w, g, if w.run.value.transient then Gap else Finish, w.run.value.recovered)
  {
    ReachesItself(config, w);
    TickReaches(config, w, w);
    g := TickWorld(config, w);
  }

  lemma GapTick(config: Config, w: World) returns (g: World)
    requires w.run.Some? && w.run.value.phase.Gap?
    ensures Reaches(config, w, g) && g.tables == w.tables
    ensures Moved(w, g, GapPhase(w.run.value, w.tables.events), w.run.value.recovered)
  {
    ReachesItself(config, w);
    TickReaches(config, w, w);
    g := TickWorld(config, w);
  }

  lemma FinishTick(config: Config, w: World) returns (g: World)
    requires w.run.Some? && w.run.value.phase.Finish?
    ensures var source, now := w.run.value.source, w.run.value.now;
      && Reaches(config, w, g) && g == w.(cursors := w.cursors[source := now], run := None, completed := g.completed)
      && CompletedOf(g.completed, source) == CompletedOf(w.completed, source) + {now}
  {
    ReachesItself(config, w);
    TickReaches(config, w, w);
    g := TickWorld(config, w);
  }

  // ---- Ticks are a schedule ------------------------------------------------------

  lemma {:induction false} TicksAreSteps(config: Config, w: World, acts: seq<Act>, n: nat) returns (more: seq<Act>)
    ensures Steps(config, w, acts + more) == Iterate(Ticker(config), Steps(config, w, acts), n)
    ensures |more| == n && forall i :: 0 <= i < n ==> more[i] == Tick
  {
    if n == 0 {
      more := [];
      assert acts + more == acts;
    } else {
      var before := TicksAreSteps(config, w, acts, n - 1);
      more := before + [Tick];
      StepsAppend(config, w, acts + before, Tick);
      assert acts + more == (acts + before) + [Tick];
    }
  }

  // What ticks lead to after a run has begun is where some schedule leads.
  lemma TicksAreARun(config: Config, w0: World, acts: seq<Act>, begin: Act, g: World) returns (run: seq<Act>)
    requires Reaches(config, Step(config, Steps(config, w0, acts), begin), g)
    ensures g == Steps(config, w0, run) && acts + [begin] <= run
    ensures forall i :: |acts| < i < |run| ==> run[i] == Tick
  {
    var n: nat :| g == Iterate(Ticker(config), Step(config, Steps(config, w0, acts), begin), n);
    StepsAppend(config, w0, acts, begin);
    var more := TicksAreSteps(config, w0, acts + [begin], n);
    run := acts + [begin] + more;
  }
}
