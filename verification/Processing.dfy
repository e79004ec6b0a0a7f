/** The worker on one payload, one store call or one decision at a time, so that
    anything may happen between any two of them. */
module Processing {
  import opened Types
  import opened Events
  import opened Correlate
  import opened CrashRepair

  // The worker inside an attempt: the events to come, the one it is applying and
  // will then decide on, the store calls of the current step that are left, and
  // the media id it holds.
  datatype Worker = Worker(
    todo: seq<Event>, deciding: Option<Event>, calls: seq<Call>, mediaId: Option<nat>, receivedAt: Time, now: Time)

  function Fresh(p: Payload, now: Time): Worker { Worker(p.events, None, [], None, p.receivedAt, now) }

  // The switch is read when an applied event is about to be fanned out.
  function WorkStep(config: Config, t: Tables, engaged: bool, worker: Worker): (Tables, Option<Worker>) {
    if worker.calls != [] then
      var f := Exec(config, Frame(t, worker.mediaId), worker.calls[0]);
      (f.tables, Some(worker.(calls := worker.calls[1..], mediaId := f.mediaId)))
    else if worker.deciding.Some? then
      var fan := FanOutCalls(config, worker.deciding.value, worker.now, engaged);
      (t, Some(worker.(calls := fan, deciding := None)))
    else if worker.todo != [] then
      var e := worker.todo[0];
      (t, Some(worker.(todo := worker.todo[1..], deciding := Some(e), calls := ApplyCalls(e, worker.receivedAt))))
    else (t, None)
  }

  // Ticks with nothing in between, each with what the switch reads at it.
  function WorkSteps(config: Config, t: Tables, worker: Worker, readings: seq<bool>): (Tables, Option<Worker>) {
    if readings == [] then (t, Some(worker))
    else
      var n := |readings| - 1;
      var (u, next) := WorkSteps(config, t, worker, readings[..n]);
      if next.None? then (u, next) else WorkStep(config, u, readings[n], next.value)
  }

  // ---- Ticks are an attempt -----------------------------------------------

  // The calls of the events decided on, with what the switch read for each.
  function Decided(config: Config, p: Payload, now: Time, engaged: seq<bool>): seq<Call>
    requires |engaged| <= |p.events|
  {
    if engaged == [] then []
    else
      var n := |engaged| - 1;
      Decided(config, p, now, engaged[..n]) + EventCalls(config, p.events[n], p.receivedAt, now, engaged[n])
  }

  // The calls of the steps begun.
  function Begun(config: Config, p: Payload, now: Time, engaged: seq<bool>, deciding: bool): seq<Call>
    requires |engaged| + (if deciding then 1 else 0) <= |p.events|
  {
    Decided(config, p, now, engaged) + (if deciding then ApplyCalls(p.events[|engaged|], p.receivedAt) else [])
  }

  predicate Made(config: Config, t: Tables, p: Payload, now: Time, engaged: seq<bool>, made: seq<Call>,
                 u: Tables, worker: Option<Worker>)
  {
    && |engaged| <= |p.events|
    && u == ExecAll(config, Frame(t, None), made).tables
    && match worker {
         case None => |engaged| == |p.events| && made == Decided(config, p, now, engaged)
         case Some(k) =>
           && k.mediaId == ExecAll(config, Frame(t, None), made).mediaId && k.receivedAt == p.receivedAt && k.now == now
           && (k.deciding.Some? ==> |engaged| < |p.events| && k.deciding.value == p.events[|engaged|])
           && k.todo == p.events[|engaged| + (if k.deciding.Some? then 1 else 0)..]
           && made + k.calls == Begun(config, p, now, engaged, k.deciding.Some?)
       }
  }

  lemma CallMade(config: Config, t: Tables, made: seq<Call>, c: Call)
    ensures ExecAll(config, Frame(t, None), made + [c]) == Exec(config, ExecAll(config, Frame(t, None), made), c)
  {
  }

  lemma DecidedMore(config: Config, p: Payload, now: Time, engaged: seq<bool>, reading: bool)
    requires |engaged| < |p.events|
    ensures Decided(config, p, now, engaged + [reading]) == Decided(config, p, now, engaged)
      + ApplyCalls(p.events[|engaged|], p.receivedAt) + FanOutCalls(config, p.events[|engaged|], now, reading)
  {
    assert (engaged + [reading])[..|engaged|] == engaged;
  }

  lemma FirstMoves(made: seq<Call>, left: seq<Call>)
    requires left != []
    ensures (made + [left[0]]) + left[1..] == made + left
  {
  }

  lemma CallTickMakes(config: Config, t: Tables, p: Payload, now: Time, engaged: seq<bool>, made: seq<Call>,
                      u: Tables, worker: Worker, reading: bool)
    requires Made(config, t, p, now, engaged, made, u, Some(worker)) && worker.calls != []
    ensures var (v, next) := WorkStep(config, u, reading, worker);
      Made(config, t, p, now, engaged, made + [worker.calls[0]], v, next)
  {
    CallMade(config, t, made, worker.calls[0]);
    FirstMoves(made, worker.calls);
  }

  lemma DecideTickMakes(config: Config, t: Tables, p: Payload, now: Time, engaged: seq<bool>, made: seq<Call>,
                        u: Tables, worker: Worker, reading: bool)
    requires Made(config, t, p, now, engaged, made, u, Some(worker)) && worker.calls == [] && worker.deciding.Some?
    ensures var (v, next) := WorkStep(config, u, reading, worker);
      Made(config, t, p, now, engaged + [reading], made, v, next)
  {
    DecidedMore(config, p, now, engaged, reading);
    assert made + [] == made;
  }

  lemma NextTickMakes(config: Config, t: Tables, p: Payload, now: Time, engaged: seq<bool>, made: seq<Call>,
                      u: Tables, worker: Worker, reading: bool)
    requires Made(config, t, p, now, engaged, made, u, Some(worker)) && worker.calls == [] && worker.deciding.None?
    requires worker.todo != []
    ensures var (v, next) := WorkStep(config, u, reading, worker); Made(config, t, p, now, engaged, made, v, next)
  {
    assert made + [] == made;
    assert worker.todo[0] == p.events[|engaged|] && worker.todo[1..] == p.events[|engaged| + 1..];
    assert Begun(config, p, now, engaged, true) == made + ApplyCalls(p.events[|engaged|], p.receivedAt);
  }

  lemma EndTickMakes(config: Config, t: Tables, p: Payload, now: Time, engaged: seq<bool>, made: seq<Call>,
                     u: Tables, worker: Worker)
    requires Made(config, t, p, now, engaged, made, u, Some(worker)) && worker.calls == [] && worker.deciding.None?
    requires worker.todo == []
    ensures Made(config, t, p, now, engaged, made, u, None)
  {
    assert made + [] == made;
  }

  lemma {:induction false} TicksMake(config: Config, t: Tables, p: Payload, now: Time, readings: seq<bool>)
    returns (engaged: seq<bool>, made: seq<Call>)
    ensures var (u, worker) := WorkSteps(config, t, Fresh(p, now), readings);
      Made(config, t, p, now, engaged, made, u, worker)
    ensures forall i :: 0 <= i < |engaged| ==> engaged[i] in readings
  {
    if readings == [] {
      engaged, made := [], [];
    } else {
      var n := |readings| - 1;
      engaged, made := TicksMake(config, t, p, now, readings[..n]);
      var (u, worker) := WorkSteps(config, t, Fresh(p, now), readings[..n]);
      if worker.Some? {
        if worker.value.calls != [] {
          CallTickMakes(config, t, p, now, engaged, made, u, worker.value, readings[n]);
          made := made + [worker.value.calls[0]];
        } else if worker.value.deciding.Some? {
          DecideTickMakes(config, t, p, now, engaged, made, u, worker.value, readings[n]);
          engaged := engaged + [readings[n]];
        } else if worker.value.todo != [] {
          NextTickMakes(config, t, p, now, engaged, made, u, worker.value, readings[n]);
        } else {
          EndTickMakes(config, t, p, now, engaged, made, u, worker.value);
        }
      }
    }
  }

  lemma {:induction false} FlattenPrefix(parts: seq<seq<Call>>, n: nat)
    requires n <= |parts|
    ensures Flatten(parts[..n]) <= Flatten(parts)
  {
    if n == |parts| {
      assert parts[..n] == parts;
    } else {
      FlattenPrefix(parts[..|parts| - 1], n);
      assert parts[..|parts| - 1][..n] == parts[..n];
    }
  }

  lemma {:induction false} DecidedIsFlatten(config: Config, p: Payload, now: Time, engaged: seq<bool>,
                                            parts: seq<seq<Call>>)
    requires |engaged| <= |parts| == |p.events|
    requires forall i :: 0 <= i < |engaged| ==>
      parts[i] == EventCalls(config, p.events[i], p.receivedAt, now, engaged[i])
    ensures Flatten(parts[..|engaged|]) == Decided(config, p, now, engaged)
  {
    if engaged != [] {
      var n := |engaged| - 1;
      DecidedIsFlatten(config, p, now, engaged[..n], parts);
      assert parts[..n + 1][..n] == parts[..n];
    }
  }

  // The calls of the steps begun begin the attempt's calls.
  lemma BegunBegins(config: Config, p: Payload, a: Attempt, deciding: bool)
    requires |a.engaged| + (if deciding then 1 else 0) <= |p.events|
    ensures Begun(config, p, a.now, a.engaged, deciding) <= AllCalls(config, p, a)
    ensures |a.engaged| == |p.events| ==> Decided(config, p, a.now, a.engaged) == AllCalls(config, p, a)
  {
    var parts, n := Parts(config, p, a), |a.engaged|;
    DecidedIsFlatten(config, p, a.now, a.engaged, parts);
    FlattenPrefix(parts, n);
    if deciding { PartBegins(parts, n, ApplyCalls(p.events[n], p.receivedAt)); }
    if n == |p.events| { assert parts[..n] == parts; }
  }

  lemma PartBegins(parts: seq<seq<Call>>, n: nat, begin: seq<Call>)
    requires n < |parts| && begin <= parts[n]
    ensures Flatten(parts[..n]) + begin <= Flatten(parts)
  {
    FlattenPrefix(parts, n + 1);
    assert parts[..n + 1][..n] == parts[..n];
    PrefixWithin(Flatten(parts[..n]), begin, parts[n], Flatten(parts));
  }

  lemma PrefixWithin(a: seq<Call>, b: seq<Call>, c: seq<Call>, all: seq<Call>)
    requires b <= c && a + c <= all
    ensures a + b <= all
  {
    assert a + b == (a + c)[..|a| + |b|];
  }

  lemma MadeBegins(config: Config, t: Tables, p: Payload, made: seq<Call>, a: Attempt, u: Tables,
                   worker: Option<Worker>)
    requires Made(config, t, p, a.now, a.engaged, made, u, worker)
    ensures made <= AllCalls(config, p, a)
    ensures worker.None? ==> made == AllCalls(config, p, a)
  {
    BegunBegins(config, p, a, worker.Some? && worker.value.deciding.Some?);
  }

  // However many ticks a worker has made, whatever the switch read meanwhile, it
  // has made an attempt cut off after some store call.
  lemma WorkerMakesAttempt(config: Config, t: Tables, p: Payload, now: Time, readings: seq<bool>) returns (a: Attempt)
    ensures Try(config, t, p, a) == WorkSteps(config, t, Fresh(p, now), readings).0
    ensures WorkSteps(config, t, Fresh(p, now), readings).1.None? ==> a.cut == |AllCalls(config, p, a)|
    ensures forall i :: 0 <= i < |a.engaged| ==> a.engaged[i] in readings
  {
    var engaged, made := TicksMake(config, t, p, now, readings);
    a := Attempt(|made|, now, engaged);
    var (u, worker) := WorkSteps(config, t, Fresh(p, now), readings);
    MadeBegins(config, t, p, made, a, u, worker);
    assert AllCalls(config, p, a)[..|made|] == made;
  }
}
