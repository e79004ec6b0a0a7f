/** What an engaged kill switch guarantees over an interval: the channels stay
    silent and the event store stays fully live.
 */
module KillSwitch {
  import opened Types
  import opened Events
  import opened Correlate
  import opened Processing
  import Reconcile
  import CrashRepair
  import Digest
  import Q = WorkQueue

  // The environment override, or the latest audit row; engaged by default.
  function Engaged(env: bool, audit: seq<bool>): bool {
    env || audit == [] || audit[|audit| - 1]
  }

  // Everything but the ledger.
  function Silent(t: Tables): Tables { t.(ledger := map[]) }

  function SilentFrame(f: Frame): Frame { f.(tables := Silent(f.tables)) }

  // ---- The worker ---------------------------------------------------------

  function Without(calls: seq<Call>): seq<Call> {
    if calls == [] then []
    else
      var n := |calls| - 1;
      Without(calls[..n]) + (if calls[n].Notify? then [] else [calls[n]])
  }

  lemma {:induction false} WithoutAppend(a: seq<Call>, b: seq<Call>)
    ensures Without(a + b) == Without(a) + Without(b)
  {
    if b == [] {
      assert a + b == a;
    } else {
      assert (a + b)[..|a + b| - 1] == a + b[..|b| - 1];
      WithoutAppend(a, b[..|b| - 1]);
    }
  }

  lemma {:induction false} WithoutNothing(calls: seq<Call>)
    requires forall i :: 0 <= i < |calls| ==> !calls[i].Notify?
    ensures Without(calls) == calls
  {
    if calls != [] {
      var n := |calls| - 1;
      WithoutNothing(calls[..n]);
      assert calls == calls[..n] + [calls[n]];
    }
  }

  lemma {:induction false} WithoutAll(calls: seq<Call>)
    requires forall i :: 0 <= i < |calls| ==> calls[i].Notify?
    ensures Without(calls) == []
  {
    if calls != [] { WithoutAll(calls[..|calls| - 1]); }
  }

  // No call but `Notify` touches the ledger, and none reads it.
  lemma OneCallSilent(config: Config, f: Frame, g: Frame, c: Call)
    requires SilentFrame(f) == SilentFrame(g) && !c.Notify?
    ensures SilentFrame(Exec(config, f, c)) == SilentFrame(Exec(config, g, c))
    ensures Exec(config, g, c).tables.ledger == g.tables.ledger
  {
  }

  lemma SameButLedger(f: Frame, g: Frame)
    requires SilentFrame(f) == SilentFrame(g)
    ensures f.mediaId == g.mediaId && f.tables.media == g.tables.media && f.tables.identities == g.tables.identities
    ensures f.tables.events == g.tables.events && f.tables.chains == g.tables.chains
  {
  }

  lemma NotifyIsSilent(config: Config, f: Frame, c: Call)
    requires c.Notify?
    ensures SilentFrame(Exec(config, f, c)) == SilentFrame(f)
  {
  }

  lemma {:induction false} NotifiesDoNotMatter(config: Config, f: Frame, g: Frame, calls: seq<Call>)
    requires SilentFrame(f) == SilentFrame(g)
    ensures SilentFrame(ExecAll(config, f, calls)) == SilentFrame(ExecAll(config, g, Without(calls)))
    ensures ExecAll(config, g, Without(calls)).tables.ledger == g.tables.ledger
  {
    if calls != [] {
      var n := |calls| - 1;
      NotifiesDoNotMatter(config, f, g, calls[..n]);
      var before, rest := ExecAll(config, f, calls[..n]), Without(calls[..n]);
      if calls[n].Notify? {
        NotifyIsSilent(config, before, calls[n]);
        assert Without(calls) == rest;
      } else {
        OneCallSilent(config, before, ExecAll(config, g, rest), calls[n]);
        assert Without(calls)[..|Without(calls)| - 1] == rest;
      }
    }
  }

  predicate Throughout(p: CrashRepair.Payload, a: CrashRepair.Attempt, engaged: bool) {
    forall i :: 0 <= i < |p.events| ==> CrashRepair.Engaged(a, i) == engaged
  }

  lemma EventCallsWithout(config: Config, e: Event, receivedAt: Time, now: Time, later: Time)
    ensures CrashRepair.EventCalls(config, e, receivedAt, now, true) ==
      Without(CrashRepair.EventCalls(config, e, receivedAt, later, false))
  {
    var apply, fan := ApplyCalls(e, receivedAt), FanOutCalls(config, e, later, false);
    ApplyCallsInsert(e, receivedAt);
    WithoutAppend(apply, fan);
    WithoutNothing(apply);
    WithoutAll(fan);
  }

  lemma {:induction false} FlattenWithout(a: seq<seq<Call>>, b: seq<seq<Call>>)
    requires |a| == |b| && forall i :: 0 <= i < |a| ==> a[i] == Without(b[i])
    ensures CrashRepair.Flatten(a) == Without(CrashRepair.Flatten(b))
  {
    if a != [] {
      var n := |a| - 1;
      FlattenWithout(a[..n], b[..n]);
      WithoutAppend(CrashRepair.Flatten(b[..n]), b[n]);
    }
  }

  // An engaged attempt makes exactly the other attempt's calls, less the ledger ones.
  lemma EngagedCalls(config: Config, p: CrashRepair.Payload, a: CrashRepair.Attempt, b: CrashRepair.Attempt)
    requires Throughout(p, a, true) && Throughout(p, b, false)
    ensures CrashRepair.AllCalls(config, p, a) == Without(CrashRepair.AllCalls(config, p, b))
  {
    var x, y := CrashRepair.Parts(config, p, a), CrashRepair.Parts(config, p, b);
    forall i | 0 <= i < |x| ensures x[i] == Without(y[i]) {
      EventCallsWithout(config, p.events[i], p.receivedAt, a.now, b.now);
    }
    FlattenWithout(x, y);
  }

  // Some prefix of the calls has a given prefix of the silent ones.
  lemma {:induction false} PrefixWithout(calls: seq<Call>, cut: nat) returns (n: nat)
    requires cut <= |Without(calls)|
    ensures n <= |calls| && Without(calls[..n]) == Without(calls)[..cut]
    ensures cut == |Without(calls)| ==> n == |calls|
  {
    if cut == |Without(calls)| {
      n := |calls|;
      assert calls[..n] == calls && Without(calls)[..cut] == Without(calls);
    } else {
      var last := |calls| - 1;
      n := PrefixWithout(calls[..last], cut);
      assert calls[..last][..n] == calls[..n];
      assert Without(calls[..last])[..cut] == Without(calls)[..cut];
    }
  }

  lemma OffAttempt(config: Config, p: CrashRepair.Payload, cut: nat, now: Time)
    ensures var b := CrashRepair.Attempt(cut, now, []);
      Throughout(p, b, false) && CrashRepair.AllCalls(config, p, b) == CrashRepair.AllCalls(config, p, b.(cut := 0))
  {
    var b := CrashRepair.Attempt(cut, now, []);
    assert CrashRepair.Parts(config, p, b) == CrashRepair.Parts(config, p, b.(cut := 0));
  }

  // An attempt made with the switch engaged, cut off anywhere, leaves the
  // ledger alone and everything else as some attempt with the switch off would;
  // a completed one, as a completed one.
  lemma AttemptIsSilent(config: Config, t: Tables, p: CrashRepair.Payload, a: CrashRepair.Attempt)
    returns (b: CrashRepair.Attempt)
    requires Throughout(p, a, true)
    ensures CrashRepair.Try(config, t, p, a).ledger == t.ledger
    ensures Throughout(p, b, false)
      && Silent(CrashRepair.Try(config, t, p, b)) == Silent(CrashRepair.Try(config, t, p, a))
    ensures a.cut >= |CrashRepair.AllCalls(config, p, a)| ==> b.cut >= |CrashRepair.AllCalls(config, p, b)|
  {
    var off := CrashRepair.Attempt(0, a.now, []);
    var calls, quiet := CrashRepair.AllCalls(config, p, off), CrashRepair.AllCalls(config, p, a);
    OffAttempt(config, p, 0, a.now);
    EngagedCalls(config, p, a, off);
    var n := PrefixWithout(calls, Min(a.cut, |quiet|));
    b := off.(cut := n);
    OffAttempt(config, p, n, a.now);
    NotifiesDoNotMatter(config, Frame(t, None), Frame(t, None), calls[..n]);
  }

  // ---- Reconcile ----------------------------------------------------------

  predicate NoFlips(acts: seq<Reconcile.Act>) { forall i :: 0 <= i < |acts| ==> !acts[i].Flip? }

  // Nor does the worker make a ledger call.
  predicate AllSilent(acts: seq<Reconcile.Act>) {
    NoFlips(acts) && forall i :: 0 <= i < |acts| && acts[i].Outside? ==> !acts[i].call.Notify?
  }

  predicate InFanOut(run: Option<Reconcile.Run>) { run.Some? && run.value.phase.FanOut? }

  // Rows a fan-out that began before the switch was engaged may still add.
  predicate InFlight(run: Option<Reconcile.Run>, key: NoteKey) {
    InFanOut(run) && key.eventKey == run.value.phase.key && key.channel in run.value.phase.channels
  }

  // `apply` itself never notifies.
  predicate Sane(run: Option<Reconcile.Run>) {
    run.Some? && run.value.phase.Apply? ==> forall i :: 0 <= i < |run.value.phase.calls| ==>
      !run.value.phase.calls[i].Notify?
  }

  lemma StartIsSane(run: Reconcile.Run, e: Event)
    ensures run.phase.Apply? && run.phase.calls == ApplyCalls(e, run.now) ==> Sane(Some(run))
  {
    ApplyCallsInsert(e, run.now);
  }

  lemma ReadIsSane(config: Config, run: Reconcile.Run, events: map<string, EventRow>, engaged: bool)
    requires Reconcile.OnlyReads(run.phase)
    ensures Sane(Some(Reconcile.ReadTick(config, run, events, engaged)))
    ensures engaged ==> !Reconcile.ReadTick(config, run, events, engaged).phase.FanOut?
  {
    var next := Reconcile.ReadTick(config, run, events, engaged);
    match run.phase
    case Guard(item, _) => StartIsSane(next, item.event);
    case Gap => StartIsSane(next, Reconcile.Marker(run));
    case _ =>
  }

  lemma TickIsSane(config: Config, w: Reconcile.World)
    requires Sane(w.run)
    ensures Sane(Reconcile.TickWorld(config, w).run)
  {
    if w.run.Some? && Reconcile.OnlyReads(w.run.value.phase) {
      ReadIsSane(config, w.run.value, w.tables.events, w.engaged);
    }
  }

  predicate OnlyInFlight(was: map<NoteKey, Note>, now: map<NoteKey, Note>, run: Option<Reconcile.Run>) {
    && (forall k :: k in was ==> k in now && now[k] == was[k])
    && (forall k :: k in now && k !in was ==> InFlight(run, k))
  }

  lemma EngagedFanOut(config: Config, w: Reconcile.World)
    requires w.engaged && InFanOut(w.run) && w.run.value.phase.channels != []
    ensures var g := Reconcile.TickWorld(config, w);
      && g.engaged && OnlyInFlight(w.tables.ledger, g.tables.ledger, w.run)
      && (forall k :: InFlight(g.run, k) ==> InFlight(w.run, k))
  {
  }

  lemma EngagedTick(config: Config, w: Reconcile.World)
    requires w.engaged && Sane(w.run)
    ensures var g := Reconcile.TickWorld(config, w);
      && g.engaged && OnlyInFlight(w.tables.ledger, g.tables.ledger, w.run)
      && (forall k :: InFlight(g.run, k) ==> InFlight(w.run, k))
      && (InFanOut(g.run) ==> InFanOut(w.run))
  {
    if w.run.Some? {
      var p := w.run.value.phase;
      if Reconcile.OnlyReads(p) {
        ReadIsSane(config, w.run.value, w.tables.events, true);
      } else if p.Apply? {
        OneCallSilent(config, Frame(w.tables, p.mediaId), Frame(w.tables, p.mediaId), p.calls[0]);
      } else if p.FanOut? {
        EngagedFanOut(config, w);
      }
    }
  }

  lemma EngagedStep(config: Config, w: Reconcile.World, act: Reconcile.Act)
    requires w.engaged && Sane(w.run) && !act.Flip? && !act.Outside?
    ensures var g := Reconcile.Step(config, w, act);
      && g.engaged && Sane(g.run) && OnlyInFlight(w.tables.ledger, g.tables.ledger, w.run)
      && (forall k :: InFlight(g.run, k) ==> InFlight(w.run, k))
      && (InFanOut(g.run) ==> InFanOut(w.run))
  {
    match act
    case Tick =>
      TickIsSane(config, w);
      EngagedTick(config, w);
    case _ =>
  }

  // ---- The same run with the switch off -----------------------------------

  // `r` runs with the switch engaged, `s` with it off; `s` may be busy with a
  // fan-out that `r` has skipped.
  predicate RunsMatch(r: Option<Reconcile.Run>, s: Option<Reconcile.Run>) {
    && r.Some? == s.Some?
    && (r.Some? ==>
          && !r.value.phase.FanOut?
          && s.value.(phase := r.value.phase, suppressed := r.value.suppressed) == r.value
          && (s.value.phase == r.value.phase
                || (s.value.phase.FanOut? && r.value.phase == Reconcile.Continue(s.value.phase.next))))
  }

  // Equal but for the ledger and what reconcile added to it.
  predicate SameButLedgers(w: Reconcile.World, v: Reconcile.World) {
    && w.engaged && !v.engaged && Sane(w.run)
    && Silent(w.tables) == Silent(v.tables)
    && w.cursors == v.cursors && w.last == v.last && w.completed == v.completed && w.stored == v.stored
    && RunsMatch(w.run, v.run)
  }

  lemma SilentFrames(t: Tables, u: Tables, mediaId: Option<nat>)
    requires Silent(t) == Silent(u)
    ensures SilentFrame(Frame(t, mediaId)) == SilentFrame(Frame(u, mediaId)) && t.events == u.events
  {
  }

  lemma GapTogether(r: Reconcile.Run, s: Reconcile.Run, events: map<string, EventRow>)
    requires s.(phase := r.phase, suppressed := r.suppressed) == r
    ensures Reconcile.GapPhase(r, events) == Reconcile.GapPhase(s, events)
  {
  }

  lemma ReadTogether(config: Config, r: Reconcile.Run, s: Reconcile.Run, events: map<string, EventRow>)
    requires RunsMatch(Some(r), Some(s)) && Reconcile.OnlyReads(s.phase) && !s.phase.FanOut?
    ensures RunsMatch(Some(Reconcile.ReadTick(config, r, events, true)),
      Some(Reconcile.ReadTick(config, s, events, false)))
  {
    ReadIsSane(config, r, events, true);
    match s.phase
    case Scan(_) =>
    case Guard(_, _) =>
    case Apply(_, _, _, _, _, _, _) =>
    case Decide(_, _, _, _) =>
    case Gap => GapTogether(r, s, events);
  }

  lemma ApplyTogether(config: Config, w: Reconcile.World, v: Reconcile.World)
    requires SameButLedgers(w, v) && v.run.Some? && v.run.value.phase.Apply? && v.run.value.phase.calls != []
    ensures SameButLedgers(Reconcile.TickWorld(config, w), Reconcile.TickWorld(config, v))
  {
    var p := v.run.value.phase;
    TickIsSane(config, w);
    SilentFrames(w.tables, v.tables, p.mediaId);
    OneCallSilent(config, Frame(w.tables, p.mediaId), Frame(v.tables, p.mediaId), p.calls[0]);
    var f, g := Exec(config, Frame(w.tables, p.mediaId), p.calls[0]),
      Exec(config, Frame(v.tables, p.mediaId), p.calls[0]);
    assert Silent(f.tables) == Silent(g.tables) && f.mediaId == g.mediaId by { SameButLedger(f, g); }
  }

  // Outside a fan-out both worlds tick together.
  lemma TickTogether(config: Config, w: Reconcile.World, v: Reconcile.World)
    requires SameButLedgers(w, v) && !InFanOut(v.run)
    ensures SameButLedgers(Reconcile.TickWorld(config, w), Reconcile.TickWorld(config, v))
  {
    if v.run.Some? {
      var p := v.run.value.phase;
      if p.Apply? && p.calls != [] {
        ApplyTogether(config, w, v);
      } else {
        SilentFrames(w.tables, v.tables, None);
        TickIsSane(config, w);
        if Reconcile.OnlyReads(p) { ReadTogether(config, w.run.value, v.run.value, w.tables.events); }
      }
    }
  }

  // Inside one the engaged world has nothing to do.
  lemma FanOutAlone(config: Config, w: Reconcile.World, v: Reconcile.World)
    requires SameButLedgers(w, v) && InFanOut(v.run)
    ensures SameButLedgers(w, Reconcile.TickWorld(config, v))
  {
    var p := v.run.value.phase;
    if p.channels != [] {
      NotifyIsSilent(config, Frame(v.tables, None), Notify(NoteKey(p.key, p.channels[0]), v.run.value.now));
    }
  }

  lemma OutsideTogether(config: Config, w: Reconcile.World, v: Reconcile.World, act: Reconcile.Act)
    requires SameButLedgers(w, v) && act.Outside?
    ensures act.call.Notify? ==> SameButLedgers(w, Reconcile.Step(config, v, act))
    ensures SameButLedgers(Reconcile.Step(config, w, act), Reconcile.Step(config, v, act))
  {
    SilentFrames(w.tables, v.tables, act.mediaId);
    if act.call.Notify? {
      NotifyIsSilent(config, Frame(v.tables, act.mediaId), act.call);
      NotifyIsSilent(config, Frame(w.tables, act.mediaId), act.call);
    } else {
      OneCallSilent(config, Frame(w.tables, act.mediaId), Frame(v.tables, act.mediaId), act.call);
    }
  }

  // Everything but the ledger evolves exactly as with the switch off: what can
  // happen with it off can happen with it engaged.
  lemma {:induction false} OffToEngaged(config: Config, w: Reconcile.World, v: Reconcile.World,
                                        acts: seq<Reconcile.Act>)
    returns (quiet: seq<Reconcile.Act>)
    requires SameButLedgers(w, v) && NoFlips(acts)
    ensures AllSilent(quiet)
    ensures SameButLedgers(Reconcile.Steps(config, w, quiet), Reconcile.Steps(config, v, acts))
  {
    if acts == [] {
      quiet := [];
    } else {
      var act := acts[|acts| - 1];
      quiet := OffToEngaged(config, w, v, acts[..|acts| - 1]);
      var x, y := Reconcile.Steps(config, w, quiet), Reconcile.Steps(config, v, acts[..|acts| - 1]);
      if act.Tick? && InFanOut(y.run) {
        FanOutAlone(config, x, y);
      } else if act.Outside? && act.call.Notify? {
        OutsideTogether(config, x, y, act);
      } else {
        Reconcile.StepsAppend(config, w, quiet, act);
        quiet := quiet + [act];
        StepTogether(config, x, y, act);
      }
    }
  }

  lemma StepTogether(config: Config, w: Reconcile.World, v: Reconcile.World, act: Reconcile.Act)
    requires SameButLedgers(w, v) && !act.Flip? && !(act.Tick? && InFanOut(v.run))
    ensures SameButLedgers(Reconcile.Step(config, w, act), Reconcile.Step(config, v, act))
  {
    match act
    case Tick => TickTogether(config, w, v);
    case Outside(_, _) => OutsideTogether(config, w, v, act);
    case _ =>
  }

  lemma StepFirst(config: Config, w: Reconcile.World, act: Reconcile.Act, acts: seq<Reconcile.Act>)
    ensures Reconcile.Steps(config, w, [act] + acts) == Reconcile.Steps(config, Reconcile.Step(config, w, act), acts)
  {
    Reconcile.StepsSplit(config, w, [act], acts);
    Reconcile.StepsAppend(config, w, [], act);
    assert [] + [act] == [act];
  }

  // Ticks that finish the fan-out `v` is in, if any.
  lemma {:induction false} FinishFanOut(config: Config, w: Reconcile.World, v: Reconcile.World, left: nat)
    returns (ticks: seq<Reconcile.Act>)
    requires SameButLedgers(w, v)
    requires InFanOut(v.run) ==> left == |v.run.value.phase.channels|
    ensures NoFlips(ticks) && SameButLedgers(w, Reconcile.Steps(config, v, ticks))
      && !InFanOut(Reconcile.Steps(config, v, ticks).run)
    decreases left
  {
    ticks := [];
    if InFanOut(v.run) {
      FanOutAlone(config, w, v);
      var next := Reconcile.TickWorld(config, v);
      if left > 0 { ticks := FinishFanOut(config, w, next, left - 1); }
      StepFirst(config, v, Reconcile.Tick, ticks);
      ticks := [Reconcile.Tick] + ticks;
    }
  }

  // And what can happen with it engaged can happen with it off.
  lemma {:induction false} EngagedToOff(config: Config, w: Reconcile.World, v: Reconcile.World,
                                        acts: seq<Reconcile.Act>)
    returns (loud: seq<Reconcile.Act>)
    requires SameButLedgers(w, v) && NoFlips(acts)
    ensures NoFlips(loud)
    ensures SameButLedgers(Reconcile.Steps(config, w, acts), Reconcile.Steps(config, v, loud))
  {
    if acts == [] {
      loud := [];
    } else {
      var act := acts[|acts| - 1];
      loud := EngagedToOff(config, w, v, acts[..|acts| - 1]);
      var x, y := Reconcile.Steps(config, w, acts[..|acts| - 1]), Reconcile.Steps(config, v, loud);
      var ticks := FinishFanOut(config, x, y, if InFanOut(y.run) then |y.run.value.phase.channels| else 0);
      Reconcile.StepsSplit(config, v, loud, ticks);
      StepTogether(config, x, Reconcile.Steps(config, y, ticks), act);
      Reconcile.StepsAppend(config, v, loud + ticks, act);
      loud := loud + ticks + [act];
    }
  }

  // ---- The whole program over an interval ---------------------------------

  // The reconcile world holds the tables and the switch. `sends` counts the calls
  // of the notifier.
  datatype System = System(rec: Reconcile.World, worker: Option<Worker>, digestCursor: Option<Digest.Window>,
    sends: nat)

  datatype SystemAct =
    | Rec(act: Reconcile.Act)
    | WorkBegin(p: CrashRepair.Payload, now: Time)
    | WorkTick
    | WorkDie
    | Sync(id: Identity)
    | SendPass(plan: Q.PassInput<NoteKey>, now: Time)
    | DigestJob(call: Digest.Call)
    | Flip(engaged: bool)

  // A send pass that starts with the switch engaged defers what it claimed.
  function Outcomes(engaged: bool, outcomes: seq<Q.Outcome>): (r: seq<Q.Outcome>)
    ensures |r| == |outcomes|
  {
    if engaged then seq(|outcomes|, i => Q.Deferred) else outcomes
  }

  const CALLS_NOTIFIER := {Q.Raised, Q.Done, Q.RaisedUnmarked, Q.DoneUnmarked}

  // The worker's store calls are its own acts, and the switch is flipped by `Flip`.
  ghost function SystemStep(config: Config, policy: Q.Policy, w: System, act: SystemAct): System {
    var t := w.rec.tables;
    match act
    case Rec(a) => if a.Outside? || a.Flip? then w else w.(rec := Reconcile.Step(config, w.rec, a))
    case WorkBegin(p, now) =>
      if w.worker.Some? then w else w.(worker := Some(Fresh(p, now)))
    case WorkTick =>
      if w.worker.None? then w
      else
        var (u, worker) := WorkStep(config, t, w.rec.engaged, w.worker.value);
        w.(rec := w.rec.(tables := u), worker := worker)
    case WorkDie => w.(worker := None)
    case Sync(id) => w.(rec := w.rec.(tables := Exec(config, Frame(t, None), ObserveUser(id)).tables))
    case SendPass(plan, now) =>
      var outcomes := Outcomes(w.rec.engaged, plan.outcomes);
      w.(rec := w.rec.(tables := t.(ledger := Q.Pass(policy, t.ledger, plan.keys, outcomes, now))),
         sends := w.sends + Q.Count(outcomes, CALLS_NOTIFIER))
    case DigestJob(call) =>
      var d := Digest.RunDigest(Digest.State(t.ledger, w.digestCursor, [], []), call.(engaged := w.rec.engaged));
      w.(rec := w.rec.(tables := t.(ledger := d.ledger)), digestCursor := d.cursor)
    case Flip(engaged) => w.(rec := w.rec.(engaged := engaged))
  }

  ghost function SystemRun(config: Config, policy: Q.Policy, w: System, acts: seq<SystemAct>): System {
    if acts == [] then w
    else SystemStep(config, policy, SystemRun(config, policy, w, acts[..|acts| - 1]), acts[|acts| - 1])
  }

  // ---- Silence ----------------------------------------------------------------

  // Rows a fan-out of the worker that began before the switch was engaged may still add.
  predicate WorkInFlight(worker: Option<Worker>, key: NoteKey) {
    worker.Some?
    && exists i :: 0 <= i < |worker.value.calls| && worker.value.calls[i].Notify? && worker.value.calls[i].key == key
  }

  predicate FlightOf(w: System, key: NoteKey) { InFlight(w.rec.run, key) || WorkInFlight(w.worker, key) }

  // `apply` never notifies, in either place.
  predicate SaneSystem(w: System) {
    && Sane(w.rec.run)
    && (w.worker.Some? && w.worker.value.deciding.Some? ==>
          forall i :: 0 <= i < |w.worker.value.calls| ==> !w.worker.value.calls[i].Notify?)
  }

  predicate StaysEngaged(act: SystemAct) { act.Flip? ==> act.engaged }

  // Every row is there with its status and attempts; only its due time may have
  // been pushed back. New rows were in flight at the start.
  ghost predicate Muted(was: System, now: System) {
    && (forall k :: k in was.rec.tables.ledger ==>
          k in now.rec.tables.ledger && now.rec.tables.ledger[k].(due := 0) == was.rec.tables.ledger[k].(due := 0))
    && (forall k :: k in now.rec.tables.ledger && k !in was.rec.tables.ledger ==> FlightOf(was, k))
    && (forall k :: FlightOf(now, k) ==> FlightOf(was, k))
    && now.sends == was.sends
  }

  // Nothing dies, so nothing in flight is dropped.
  predicate Lives(act: SystemAct) { !act.WorkDie? && !(act.Rec? && act.act.Crash?) }

  ghost predicate Landing(was: System, now: System) {
    forall k :: FlightOf(was, k) ==> k in now.rec.tables.ledger || FlightOf(now, k)
  }

  lemma {:induction false} DeferralsOnlyMoveDue(policy: Q.Policy, rows: map<NoteKey, Note>, keys: seq<NoteKey>,
                                                outcomes: seq<Q.Outcome>, now: Time)
    requires |outcomes| <= |keys| && forall i :: 0 <= i < |outcomes| ==> outcomes[i] == Q.Deferred
    ensures var after := Q.Pass(policy, rows, keys, outcomes, now);
      after.Keys == rows.Keys && forall k :: k in rows ==> after[k].(due := 0) == rows[k].(due := 0)
    ensures Q.Count(outcomes, CALLS_NOTIFIER) == 0
  {
    if outcomes != [] { DeferralsOnlyMoveDue(policy, rows, keys, outcomes[..|outcomes| - 1], now); }
  }

  lemma WorkTickMuted(config: Config, policy: Q.Policy, w: System)
    requires w.rec.engaged && SaneSystem(w) && w.worker.Some?
    ensures var g := SystemStep(config, policy, w, WorkTick);
      g.rec.engaged && SaneSystem(g) && Muted(w, g) && Landing(w, g)
  {
    var worker := w.worker.value;
    var g := SystemStep(config, policy, w, WorkTick);
    if worker.calls != [] {
      var c := worker.calls[0];
      var f := Frame(w.rec.tables, worker.mediaId);
      assert forall i :: 0 <= i < |worker.calls| - 1 ==> worker.calls[1..][i] == worker.calls[i + 1];
      assert forall i :: 0 < i < |worker.calls| ==> worker.calls[i] == worker.calls[1..][i - 1];
      if !c.Notify? { OneCallSilent(config, f, f, c); }
    } else if worker.deciding.None? && worker.todo != [] {
      ApplyCallsInsert(worker.todo[0], worker.receivedAt);
    }
  }

  lemma RecMuted(config: Config, policy: Q.Policy, w: System, a: Reconcile.Act)
    requires w.rec.engaged && SaneSystem(w)
    ensures var g := SystemStep(config, policy, w, Rec(a));
      g.rec.engaged && SaneSystem(g) && Muted(w, g) && (!a.Crash? ==> Landing(w, g))
  {
    if !a.Outside? && !a.Flip? {
      EngagedStep(config, w.rec, a);
      if a.Tick? { TickLands(config, w.rec); }
    }
  }

  lemma TickLands(config: Config, w: Reconcile.World)
    ensures var g := Reconcile.TickWorld(config, w); forall k :: InFlight(w.run, k) ==>
      k in g.tables.ledger || InFlight(g.run, k)
  {
    if InFanOut(w.run) && w.run.value.phase.channels != [] {
      var cs := w.run.value.phase.channels;
      assert forall c :: c in cs ==> c == cs[0] || c in cs[1..];
    }
  }

  lemma StepMuted(config: Config, policy: Q.Policy, w: System, act: SystemAct)
    requires w.rec.engaged && SaneSystem(w) && StaysEngaged(act)
    ensures var g := SystemStep(config, policy, w, act);
      g.rec.engaged && SaneSystem(g) && Muted(w, g) && (Lives(act) ==> Landing(w, g))
  {
    match act
    case Rec(a) => RecMuted(config, policy, w, a);
    case WorkTick => if w.worker.Some? { WorkTickMuted(config, policy, w); }
    case SendPass(plan, now) =>
      DeferralsOnlyMoveDue(policy, w.rec.tables.ledger, plan.keys, Outcomes(true, plan.outcomes), now);
    case _ =>
  }

  // While the switch stays engaged, any interleaving of the worker's calls and
  // decisions, reconcile runs, crashes, digests and newly started send passes
  // calls the notifier never and leaves every row's status and attempts as they
  // were. The only new rows are those of a fan-out, of either kind, already past
  // its check; and unless a process dies they do arrive.
  lemma {:induction false} EngagedIntervalIsMute(config: Config, policy: Q.Policy, w: System, acts: seq<SystemAct>)
    requires w.rec.engaged && SaneSystem(w) && forall i :: 0 <= i < |acts| ==> StaysEngaged(acts[i])
    ensures var g := SystemRun(config, policy, w, acts);
      && g.rec.engaged && SaneSystem(g) && Muted(w, g)
      && ((forall i :: 0 <= i < |acts| ==> Lives(acts[i])) ==> Landing(w, g))
  {
    if acts != [] {
      var n := |acts| - 1;
      EngagedIntervalIsMute(config, policy, w, acts[..n]);
      StepMuted(config, policy, SystemRun(config, policy, w, acts[..n]), acts[n]);
    }
  }
}
