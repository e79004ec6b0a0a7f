/** Retries while the rest of the program goes on: between any two steps of the
    worker other rows are handled, reconcile runs and notifications are sent.
 */
module Interference {
  import opened Types
  import opened Events
  import opened Correlate
  import opened CrashRepair
  import opened Processing
  import Chains
  import Media
  import Q = WorkQueue

  // What the worker does about the payload, and what anyone else does meanwhile.
  datatype Turn =
    | Begin(now: Time)
    | Tick(engaged: bool)
    | Die
    | Elsewhere(call: Call, mediaId: Option<nat>)
    | Send(plan: Q.PassInput<NoteKey>, now: Time)

  datatype State = State(tables: Tables, worker: Option<Worker>)

  function Take(config: Config, policy: Q.Policy, p: Payload, s: State, turn: Turn): State {
    match turn
    case Begin(now) => if s.worker.Some? then s else s.(worker := Some(Fresh(p, now)))
    case Tick(engaged) =>
      if s.worker.None? then s
      else var (t, worker) := WorkStep(config, s.tables, engaged, s.worker.value); State(t, worker)
    case Die => s.(worker := None)
    case Elsewhere(call, mediaId) => s.(tables := Exec(config, Frame(s.tables, mediaId), call).tables)
    case Send(plan, now) =>
      s.(tables := s.tables.(ledger := Q.Pass(policy, s.tables.ledger, plan.keys, plan.outcomes, now)))
  }

  function TakeAll(config: Config, policy: Q.Policy, p: Payload, s: State, turns: seq<Turn>): State {
    if turns == [] then s
    else Take(config, policy, p, TakeAll(config, policy, p, s, turns[..|turns| - 1]), turns[|turns| - 1])
  }

  lemma {:induction false} TakeAllSplits(config: Config, policy: Q.Policy, p: Payload, s: State, a: seq<Turn>,
                                         b: seq<Turn>)
    ensures TakeAll(config, policy, p, s, a + b) == TakeAll(config, policy, p, TakeAll(config, policy, p, s, a), b)
  {
    if b == [] {
      assert a + b == a;
    } else {
      assert (a + b)[..|a + b| - 1] == a + b[..|b| - 1];
      TakeAllSplits(config, policy, p, s, a, b[..|b| - 1]);
    }
  }

  // ---- Nothing is taken back -------------------------------------------------

  // Stored events and the members behind identities never change, ledger rows and
  // set media columns never go, and chains only move forward.
  ghost predicate Keeps(t: Tables, u: Tables) {
    && (forall k :: k in t.events ==> k in u.events && u.events[k] == t.events[k])
    && t.ledger.Keys <= u.ledger.Keys && Media.Keeps(t.media, u.media)
    && SameMembers(t.identities, u.identities) && t.identities.Keys <= u.identities.Keys
    && (Chains.Sound(t.chains) ==> Chains.Sound(u.chains)) && Chains.Forward(t.chains, u.chains)
  }

  lemma CallKeeps(config: Config, f: Frame, c: Call)
    ensures Keeps(f.tables, Exec(config, f, c).tables)
  {
    if c.ResolveMedia? { Media.FindOrCreateKeeps(f.tables.media, c.ref); }
    if c.AdvanceChain? && IsLifecycle(c.event.kind) {
      Chains.AdvanceIsForward(f.tables.chains, MoveOf(config, f, c.event, c.receivedAt));
    }
  }

  lemma {:induction false} PassKeepsKeys(policy: Q.Policy, rows: map<NoteKey, Note>, keys: seq<NoteKey>,
                                         outcomes: seq<Q.Outcome>, now: Time)
    requires |outcomes| <= |keys|
    ensures Q.Pass(policy, rows, keys, outcomes, now).Keys == rows.Keys
  {
    if outcomes != [] { PassKeepsKeys(policy, rows, keys, outcomes[..|outcomes| - 1], now); }
  }

  lemma TurnKeeps(config: Config, policy: Q.Policy, p: Payload, s: State, turn: Turn)
    ensures Keeps(s.tables, Take(config, policy, p, s, turn).tables)
  {
    match turn
    case Tick(_) =>
      if s.worker.Some? && s.worker.value.calls != [] {
        CallKeeps(config, Frame(s.tables, s.worker.value.mediaId), s.worker.value.calls[0]);
      }
    case Elsewhere(call, mediaId) => CallKeeps(config, Frame(s.tables, mediaId), call);
    case Send(plan, now) => PassKeepsKeys(policy, s.tables.ledger, plan.keys, plan.outcomes, now);
    case _ =>
  }

  lemma KeepsOn(t: Tables, u: Tables, v: Tables)
    requires Keeps(t, u) && Keeps(u, v)
    ensures Keeps(t, v)
  {
  }

  lemma {:induction false} TurnsKeep(config: Config, policy: Q.Policy, p: Payload, s: State, turns: seq<Turn>)
    ensures Keeps(s.tables, TakeAll(config, policy, p, s, turns).tables)
  {
    if turns != [] {
      var n := |turns| - 1;
      TurnsKeep(config, policy, p, s, turns[..n]);
      var before := TakeAll(config, policy, p, s, turns[..n]);
      TurnKeeps(config, policy, p, before, turns[n]);
      KeepsOn(s.tables, before.tables, Take(config, policy, p, before, turns[n]).tables);
    }
  }

  // ---- Nothing is left out ---------------------------------------------------

  // The chain's media is the payload's, and the chain was open in `was`, or not
  // there yet.
  predicate OfMedia(was: seq<Chains.Chain>, t: Tables, p: Payload, i: nat)
    requires i < |t.chains|
  {
    && NeedsMedia(p) && t.chains[i].media.Some? && Media.Names(t.media, t.chains[i].media.value, p.media.value)
    && (i < |was| ==> was[i].closedAt.None?)
  }

  predicate Reached(chain: Chains.Chain, e: Event)
    requires IsLifecycle(e.kind)
  {
    chain.closedAt.Some? || Chains.Rank(Chains.StateOf(e.kind, e.partial)) <= Chains.Rank(chain.state)
  }

  predicate ReflectedBy(was: seq<Chains.Chain>, t: Tables, p: Payload, e: Event, i: nat)
    requires IsLifecycle(e.kind) && i < |t.chains|
  {
    && ((e.requestId.Some? && t.chains[i].requestId == e.requestId) || OfMedia(was, t, p, i))
    && Reached(t.chains[i], e)
  }

  // The chain of the request, or one of the payload's media that was not closed
  // in `was`, has come at least as far as the event says, or is closed.
  predicate Reflects(was: seq<Chains.Chain>, t: Tables, p: Payload, e: Event)
    requires IsLifecycle(e.kind)
  {
    exists i :: 0 <= i < |t.chains| && ReflectedBy(was, t, p, e, i)
  }

  // The store call `c` need not be made any more.
  predicate Served(was: seq<Chains.Chain>, p: Payload, t: Tables, c: Call) {
    match c
    case InsertEvent(e, _) => e.key in t.events
    case AdvanceChain(e, _) => IsLifecycle(e.kind) ==> Reflects(was, t, p, e)
    case Notify(key, _) => key in t.ledger
    case ObserveUser(id) => id in t.identities
    case ResolveMedia(_) => true
  }

  lemma ServedStays(was: seq<Chains.Chain>, p: Payload, t: Tables, u: Tables, c: Call)
    requires Keeps(t, u) && Served(was, p, t, c)
    ensures Served(was, p, u, c)
  {
    if c.AdvanceChain? && IsLifecycle(c.event.kind) {
      var i :| 0 <= i < |t.chains| && ReflectedBy(was, t, p, c.event, i);
      assert ReflectedBy(was, u, p, c.event, i);
    }
  }

  // The id is that of a row the payload names.
  predicate Held(p: Payload, t: Tables, id: Option<nat>) {
    id.Some? ==> NeedsMedia(p) && Media.Names(t.media, id.value, p.media.value)
  }

  // Moving the chain of a lifecycle event reflects it.
  lemma MoveServes(config: Config, was: seq<Chains.Chain>, f: Frame, p: Payload, e: Event, receivedAt: Time)
    requires IsLifecycle(e.kind) && e.requestId.Some? && Held(p, f.tables, f.mediaId)
    requires Chains.Forward(was, f.tables.chains)
    ensures Reflects(was, Exec(config, f, AdvanceChain(e, receivedAt)).tables, p, e)
  {
    var t, m := Exec(config, f, AdvanceChain(e, receivedAt)).tables, MoveOf(config, f, e, receivedAt);
    var at := Chains.Target(f.tables.chains, m);
    assert ReflectedBy(was, t, p, e, if at.None? then |f.tables.chains| else at.value);
  }

  lemma CallServes(config: Config, was: seq<Chains.Chain>, f: Frame, p: Payload, c: Call)
    requires WellFormed(p) && Belongs(config, p, c) && Held(p, f.tables, f.mediaId)
    requires Chains.Forward(was, f.tables.chains)
    ensures Served(was, p, Exec(config, f, c).tables, c)
  {
    if c.AdvanceChain? { MoveServes(config, was, f, p, c.event, c.receivedAt); }
  }

  lemma CallHolds(config: Config, f: Frame, p: Payload, c: Call)
    requires Belongs(config, p, c) && Held(p, f.tables, f.mediaId)
    ensures var g := Exec(config, f, c); Held(p, g.tables, g.mediaId)
  {
    if c.ResolveMedia? { Media.FoundIsNamed(f.tables.media, c.ref); }
  }

  predicate Covered(was: seq<Chains.Chain>, p: Payload, t: Tables, left: seq<Call>, calls: seq<Call>) {
    forall c :: c in calls ==> Served(was, p, t, c) || c in left
  }

  // Without the id in hand, it is looked up before any event is stored.
  predicate Ready(p: Payload, worker: Worker) {
    worker.mediaId.None? && NeedsMedia(p) && worker.calls != [] && !worker.calls[0].ResolveMedia? ==>
      forall c :: c in worker.calls ==> !c.InsertEvent?
  }

  // The worker is at the payload, and what it has passed is served or about to be.
  predicate AtWork(config: Config, p: Payload, t: Tables, worker: Worker) {
    && worker.receivedAt == p.receivedAt && Held(p, t, worker.mediaId) && Ready(p, worker)
    && (forall c :: c in worker.calls ==> Belongs(config, p, c))
    && (worker.deciding.Some? ==> worker.deciding.value in p.events)
    && (forall e :: e in worker.todo ==> e in p.events)
  }

  predicate Passed(config: Config, was: seq<Chains.Chain>, p: Payload, t: Tables, worker: Worker, e: Event) {
    e in worker.todo || (
      && Covered(was, p, t, worker.calls, ApplyCalls(e, p.receivedAt))
      && (worker.deciding == Some(e) || Covered(was, p, t, worker.calls, FanOutCalls(config, e, worker.now, false))))
  }

  predicate OnTheWay(config: Config, was: seq<Chains.Chain>, p: Payload, t: Tables, worker: Worker) {
    && AtWork(config, p, t, worker) && Chains.Forward(was, t.chains)
    && forall e :: e in p.events ==> Passed(config, was, p, t, worker, e)
  }

  predicate EventDelivered(config: Config, was: seq<Chains.Chain>, p: Payload, t: Tables, e: Event) {
    && e.key in t.events && (IsLifecycle(e.kind) ==> Reflects(was, t, p, e))
    && (e.user.Some? && e.user.value.identity.Some? ==> e.user.value.identity.value in t.identities)
    && forall ch :: ch in ChannelsFor(config.rules, e.kind, e.source) ==> NoteKey(e.key, ch) in t.ledger
  }

  // Every event is stored, its identity known, its lifecycle reflected, and a row is
  // there for every routed channel.
  predicate Delivered(config: Config, was: seq<Chains.Chain>, p: Payload, t: Tables) {
    forall e :: e in p.events ==> EventDelivered(config, was, p, t, e)
  }

  lemma CoveredStays(was: seq<Chains.Chain>, p: Payload, t: Tables, u: Tables, left: seq<Call>, calls: seq<Call>)
    requires Keeps(t, u) && Covered(was, p, t, left, calls)
    ensures Covered(was, p, u, left, calls)
  {
    forall c | c in calls && Served(was, p, t, c) ensures Served(was, p, u, c) { ServedStays(was, p, t, u, c); }
  }

  lemma CoveredServes(was: seq<Chains.Chain>, p: Payload, t: Tables, left: seq<Call>, calls: seq<Call>)
    requires left != [] && Served(was, p, t, left[0]) && Covered(was, p, t, left, calls)
    ensures Covered(was, p, t, left[1..], calls)
  {
    assert forall c :: c in left ==> c == left[0] || c in left[1..];
  }

  lemma PassedStays(config: Config, was: seq<Chains.Chain>, p: Payload, t: Tables, u: Tables, worker: Worker, e: Event)
    requires Keeps(t, u) && Passed(config, was, p, t, worker, e)
    ensures Passed(config, was, p, u, worker, e)
  {
    if e !in worker.todo {
      CoveredStays(was, p, t, u, worker.calls, ApplyCalls(e, p.receivedAt));
      if worker.deciding != Some(e) {
        CoveredStays(was, p, t, u, worker.calls, FanOutCalls(config, e, worker.now, false));
      }
    }
  }

  lemma EventStaysDelivered(config: Config, was: seq<Chains.Chain>, p: Payload, t: Tables, u: Tables, e: Event)
    requires Keeps(t, u) && EventDelivered(config, was, p, t, e)
    ensures EventDelivered(config, was, p, u, e)
  {
    ServedStays(was, p, t, u, AdvanceChain(e, 0));
  }

  lemma FanOutServed(config: Config, was: seq<Chains.Chain>, p: Payload, t: Tables, e: Event, now: Time)
    requires Covered(was, p, t, [], FanOutCalls(config, e, now, false))
    ensures forall ch :: ch in ChannelsFor(config.rules, e.kind, e.source) ==> NoteKey(e.key, ch) in t.ledger
  {
    var fan, channels := FanOutCalls(config, e, now, false), ChannelsFor(config.rules, e.kind, e.source);
    forall ch | ch in channels
      ensures NoteKey(e.key, ch) in t.ledger
    {
      var j :| 0 <= j < |channels| && channels[j] == ch;
      assert fan[j] == Notify(NoteKey(e.key, ch), now) && fan[j] in fan;
    }
  }

  lemma ApplyServed(was: seq<Chains.Chain>, p: Payload, t: Tables, e: Event)
    requires Covered(was, p, t, [], ApplyCalls(e, p.receivedAt))
    ensures e.key in t.events && (IsLifecycle(e.kind) ==> Reflects(was, t, p, e))
    ensures HasIdentity(e) ==> e.user.value.identity.value in t.identities
  {
    assert HasIdentity(e) ==> ObserveUser(e.user.value.identity.value) in ApplyCalls(e, p.receivedAt);
    assert InsertEvent(e, p.receivedAt) in ApplyCalls(e, p.receivedAt);
    assert IsLifecycle(e.kind) ==> AdvanceChain(e, p.receivedAt) in ApplyCalls(e, p.receivedAt);
  }

  // ---- A tick of the attempt ---------------------------------------------------

  lemma CallTickOnTheWay(config: Config, was: seq<Chains.Chain>, p: Payload, t: Tables, worker: Worker)
    requires WellFormed(p) && OnTheWay(config, was, p, t, worker) && worker.calls != []
    ensures var f := Exec(config, Frame(t, worker.mediaId), worker.calls[0]);
      OnTheWay(config, was, p, f.tables, worker.(calls := worker.calls[1..], mediaId := f.mediaId))
  {
    var c, f := worker.calls[0], Frame(t, worker.mediaId);
    var g := Exec(config, f, c);
    var next := worker.(calls := worker.calls[1..], mediaId := g.mediaId);
    CallKeeps(config, f, c);
    CallServes(config, was, f, p, c);
    CallHolds(config, f, p, c);
    forall e | e in p.events
      ensures Passed(config, was, p, g.tables, next, e)
    {
      PassedStays(config, was, p, t, g.tables, worker, e);
      if e !in worker.todo {
        CoveredServes(was, p, g.tables, worker.calls, ApplyCalls(e, p.receivedAt));
        if worker.deciding != Some(e) {
          CoveredServes(was, p, g.tables, worker.calls, FanOutCalls(config, e, worker.now, false));
        }
      }
    }
  }

  lemma DecideTickOnTheWay(config: Config, was: seq<Chains.Chain>, p: Payload, t: Tables, worker: Worker)
    requires WellFormed(p) && OnTheWay(config, was, p, t, worker) && worker.calls == [] && worker.deciding.Some?
    ensures OnTheWay(config, was, p, t,
      worker.(calls := FanOutCalls(config, worker.deciding.value, worker.now, false), deciding := None))
  {
    FanOutBelongs(config, p, worker.deciding.value, worker.now, false);
  }

  lemma NextTickOnTheWay(config: Config, was: seq<Chains.Chain>, p: Payload, t: Tables, worker: Worker)
    requires WellFormed(p) && OnTheWay(config, was, p, t, worker) && worker.calls == [] && worker.deciding.None?
      && worker.todo != []
    ensures var e := worker.todo[0];
      OnTheWay(config, was, p, t, worker.(todo := worker.todo[1..], deciding := Some(e),
        calls := ApplyCalls(e, worker.receivedAt)))
  {
    var todo := worker.todo;
    ApplyIsProgram(config, p, todo[0]);
    assert forall e :: e in todo ==> e == todo[0] || e in todo[1..];
    assert forall e :: e in todo[1..] ==> e in todo;
  }

  lemma EndDelivers(config: Config, was: seq<Chains.Chain>, p: Payload, t: Tables, worker: Worker)
    requires OnTheWay(config, was, p, t, worker) && worker.calls == [] && worker.deciding.None? && worker.todo == []
    ensures Delivered(config, was, p, t)
  {
    forall e | e in p.events
      ensures EventDelivered(config, was, p, t, e)
    {
      assert Passed(config, was, p, t, worker, e);
      ApplyServed(was, p, t, e);
      FanOutServed(config, was, p, t, e, worker.now);
    }
  }

  predicate Going(config: Config, was: seq<Chains.Chain>, p: Payload, s: State) {
    Delivered(config, was, p, s.tables) || (s.worker.Some? && OnTheWay(config, was, p, s.tables, s.worker.value))
  }

  // A turn that neither ends the attempt nor finds the switch engaged.
  predicate Spares(turn: Turn) { !turn.Die? && (turn.Tick? ==> !turn.engaged) }

  lemma TickGoesOn(config: Config, policy: Q.Policy, was: seq<Chains.Chain>, p: Payload, s: State)
    requires WellFormed(p) && s.worker.Some? && OnTheWay(config, was, p, s.tables, s.worker.value)
    ensures Going(config, was, p, Take(config, policy, p, s, Tick(false)))
  {
    var worker := s.worker.value;
    if worker.calls != [] {
      CallTickOnTheWay(config, was, p, s.tables, worker);
    } else if worker.deciding.Some? {
      DecideTickOnTheWay(config, was, p, s.tables, worker);
    } else if worker.todo != [] {
      NextTickOnTheWay(config, was, p, s.tables, worker);
    } else {
      EndDelivers(config, was, p, s.tables, worker);
    }
  }

  lemma StaysDelivered(config: Config, was: seq<Chains.Chain>, p: Payload, t: Tables, u: Tables)
    requires Keeps(t, u) && Delivered(config, was, p, t)
    ensures Delivered(config, was, p, u)
  {
    forall e | e in p.events
      ensures EventDelivered(config, was, p, u, e)
    {
      EventStaysDelivered(config, was, p, t, u, e);
    }
  }

  lemma TurnGoesOn(config: Config, policy: Q.Policy, was: seq<Chains.Chain>, p: Payload, s: State, turn: Turn)
    requires WellFormed(p) && Going(config, was, p, s) && Spares(turn)
    ensures Going(config, was, p, Take(config, policy, p, s, turn))
  {
    var g := Take(config, policy, p, s, turn);
    TurnKeeps(config, policy, p, s, turn);
    if Delivered(config, was, p, s.tables) {
      StaysDelivered(config, was, p, s.tables, g.tables);
    } else if turn.Tick? {
      TickGoesOn(config, policy, was, p, s);
    } else {
      forall e | e in p.events
        ensures Passed(config, was, p, g.tables, s.worker.value, e)
      {
        PassedStays(config, was, p, s.tables, g.tables, s.worker.value, e);
      }
    }
  }

  lemma {:induction false} TurnsGoOn(config: Config, policy: Q.Policy, was: seq<Chains.Chain>, p: Payload, s: State,
                                     turns: seq<Turn>)
    requires WellFormed(p) && Going(config, was, p, s) && forall i :: 0 <= i < |turns| ==> Spares(turns[i])
    ensures Going(config, was, p, TakeAll(config, policy, p, s, turns))
  {
    if turns != [] {
      var n := |turns| - 1;
      TurnsGoOn(config, policy, was, p, s, turns[..n]);
      TurnGoesOn(config, policy, was, p, TakeAll(config, policy, p, s, turns[..n]), turns[n]);
    }
  }

  // ---- Nothing is made up ----------------------------------------------------

  predicate InsertedElsewhere(turns: seq<Turn>, key: string) {
    exists i :: 0 <= i < |turns| && turns[i].Elsewhere? && turns[i].call.InsertEvent? && turns[i].call.event.key == key
  }

  predicate NotedElsewhere(turns: seq<Turn>, key: NoteKey) {
    exists i :: 0 <= i < |turns| && turns[i].Elsewhere? && turns[i].call.Notify? && turns[i].call.key == key
  }

  ghost predicate EventsExplained(config: Config, p: Payload, was: map<string, EventRow>, t: Tables, turns: seq<Turn>)
  {
    forall k :: k in t.events && k !in was ==>
      InsertedElsewhere(turns, k) ||
      exists e :: e in p.events && e.key == k && Tells(config, t, t.events[k], e, p.receivedAt)
  }

  ghost predicate LedgerExplained(config: Config, p: Payload, was: map<NoteKey, Note>, now: map<NoteKey, Note>,
                                  turns: seq<Turn>)
  {
    forall k :: k in now && k !in was ==> NotedElsewhere(turns, k) || Owes(config, p, k)
  }

  lemma ElsewhereMore(turns: seq<Turn>, turn: Turn)
    ensures forall k :: InsertedElsewhere(turns, k) ==> InsertedElsewhere(turns + [turn], k)
    ensures forall k :: NotedElsewhere(turns, k) ==> NotedElsewhere(turns + [turn], k)
    ensures turn.Elsewhere? && turn.call.InsertEvent? ==> InsertedElsewhere(turns + [turn], turn.call.event.key)
    ensures turn.Elsewhere? && turn.call.Notify? ==> NotedElsewhere(turns + [turn], turn.call.key)
  {
    var more := turns + [turn];
    assert forall i :: 0 <= i < |turns| ==> more[i] == turns[i];
    assert more[|turns|] == turn;
  }

  lemma OwnCallExplained(config: Config, p: Payload, f: Frame, c: Call)
    requires WellFormed(p) && Belongs(config, p, c) && Held(p, f.tables, f.mediaId)
    requires c.InsertEvent? && NeedsMedia(p) ==> f.mediaId.Some?
    ensures EventsExplained(config, p, f.tables.events, Exec(config, f, c).tables, [])
    ensures LedgerExplained(config, p, f.tables.ledger, Exec(config, f, c).tables.ledger, [])
  {
    if c.InsertEvent? && c.event.key !in f.tables.events { InsertTells(config, f, c.event, c.receivedAt); }
  }

  lemma TickStaysAtWork(config: Config, p: Payload, t: Tables, engaged: bool, worker: Worker)
    requires WellFormed(p) && AtWork(config, p, t, worker)
    ensures var (u, next) := WorkStep(config, t, engaged, worker); next.Some? ==> AtWork(config, p, u, next.value)
  {
    if worker.calls != [] {
      CallHolds(config, Frame(t, worker.mediaId), p, worker.calls[0]);
      assert forall c :: c in worker.calls[1..] ==> c in worker.calls;
    } else if worker.deciding.Some? {
      FanOutBelongs(config, p, worker.deciding.value, worker.now, engaged);
    } else if worker.todo != [] {
      ApplyIsProgram(config, p, worker.todo[0]);
      assert forall e :: e in worker.todo[1..] ==> e in worker.todo;
    }
  }

  ghost predicate Accounted(config: Config, p: Payload, s: State, g: State, turns: seq<Turn>) {
    && (g.worker.Some? ==> AtWork(config, p, g.tables, g.worker.value))
    && EventsExplained(config, p, s.tables.events, g.tables, turns)
    && LedgerExplained(config, p, s.tables.ledger, g.tables.ledger, turns)
  }

  lemma EventsExplainedOn(config: Config, p: Payload, was: map<string, EventRow>, t: Tables, u: Tables,
                          turns: seq<Turn>, turn: Turn)
    requires EventsExplained(config, p, was, t, turns) && Keeps(t, u)
    requires EventsExplained(config, p, t.events, u, [turn])
    ensures EventsExplained(config, p, was, u, turns + [turn])
  {
    ElsewhereMore(turns, turn);
    forall k | k in u.events && k !in was && !InsertedElsewhere(turns + [turn], k)
      ensures exists e :: e in p.events && e.key == k && Tells(config, u, u.events[k], e, p.receivedAt)
    {
      if k in t.events {
        var e :| e in p.events && e.key == k && Tells(config, t, t.events[k], e, p.receivedAt);
        TellsStays(config, t, u, t.events[k], e, p.receivedAt);
      } else {
        assert !InsertedElsewhere([turn], k);
      }
    }
  }

  lemma ExplainedOn(config: Config, p: Payload, s: State, g: State, h: State, turns: seq<Turn>, turn: Turn)
    requires Accounted(config, p, s, g, turns) && (h.worker.Some? ==> AtWork(config, p, h.tables, h.worker.value))
    requires Keeps(g.tables, h.tables)
    requires EventsExplained(config, p, g.tables.events, h.tables, [turn])
    requires LedgerExplained(config, p, g.tables.ledger, h.tables.ledger, [turn])
    ensures Accounted(config, p, s, h, turns + [turn])
  {
    ElsewhereMore(turns, turn);
    EventsExplainedOn(config, p, s.tables.events, g.tables, h.tables, turns, turn);
  }

  lemma TurnExplained(config: Config, policy: Q.Policy, p: Payload, s: State, turn: Turn)
    requires WellFormed(p) && (s.worker.Some? ==> AtWork(config, p, s.tables, s.worker.value))
    ensures var g := Take(config, policy, p, s, turn);
      && (g.worker.Some? ==> AtWork(config, p, g.tables, g.worker.value))
      && EventsExplained(config, p, s.tables.events, g.tables, [turn])
      && LedgerExplained(config, p, s.tables.ledger, g.tables.ledger, [turn])
  {
    ElsewhereMore([], turn);
    assert [] + [turn] == [turn];
    TurnKeeps(config, policy, p, s, turn);
    match turn
    case Tick(engaged) =>
      if s.worker.Some? {
        var worker := s.worker.value;
        TickStaysAtWork(config, p, s.tables, engaged, worker);
        if worker.calls != [] { OwnCallExplained(config, p, Frame(s.tables, worker.mediaId), worker.calls[0]); }
      }
    case Send(plan, now) => PassKeepsKeys(policy, s.tables.ledger, plan.keys, plan.outcomes, now);
    case _ =>
  }

  lemma {:induction false} TurnsExplained(config: Config, policy: Q.Policy, p: Payload, s: State, turns: seq<Turn>)
    requires WellFormed(p) && s.worker.None?
    ensures Accounted(config, p, s, TakeAll(config, policy, p, s, turns), turns)
  {
    if turns != [] {
      var n := |turns| - 1;
      TurnsExplained(config, policy, p, s, turns[..n]);
      var before := TakeAll(config, policy, p, s, turns[..n]);
      TurnExplained(config, policy, p, before, turns[n]);
      TurnKeeps(config, policy, p, before, turns[n]);
      ExplainedOn(config, p, s, before, Take(config, policy, p, before, turns[n]), turns[..n], turns[n]);
      assert turns[..n] + [turns[n]] == turns;
    }
  }

  // Not stored before, nor by anyone else.
  predicate OnlyOurs(was: Tables, turns: seq<Turn>, key: string) {
    key !in was.events && !InsertedElsewhere(turns, key)
  }

  // ---- The result --------------------------------------------------------------

  lemma AttemptDelivers(config: Config, policy: Q.Policy, p: Payload, s: State, now: Time, attempt: seq<Turn>)
    requires WellFormed(p) && s.worker.None? && forall i :: 0 <= i < |attempt| ==> Spares(attempt[i])
    requires TakeAll(config, policy, p, Take(config, policy, p, s, Begin(now)), attempt).worker.None?
    ensures Delivered(config, s.tables.chains, p,
      TakeAll(config, policy, p, Take(config, policy, p, s, Begin(now)), attempt).tables)
  {
    var begun := Take(config, policy, p, s, Begin(now));
    assert OnTheWay(config, s.tables.chains, p, begun.tables, begun.worker.value);
    TurnsGoOn(config, policy, s.tables.chains, p, begun, attempt);
  }

  // Whatever other work does between the worker's store calls, and however many
  // attempts died before, once one attempt has ended by itself with the switch
  // off every event is stored, its rows are there, and its lifecycle is reflected,
  // by the request's own chain or by one of its media not closed when the attempt
  // began; and so it stays. A row not stored before nor by others says what its
  // event says, and no row is there that nobody asked for.
  lemma RetriesDeliver(config: Config, policy: Q.Policy, p: Payload, s: State, before: seq<Turn>, now: Time,
                       attempt: seq<Turn>, after: seq<Turn>)
    requires WellFormed(p) && s.worker.None? && TakeAll(config, policy, p, s, before).worker.None?
    requires forall i :: 0 <= i < |attempt| ==> Spares(attempt[i])
    requires TakeAll(config, policy, p, s, before + [Begin(now)] + attempt).worker.None?
    ensures var turns := before + [Begin(now)] + attempt + after; var g := TakeAll(config, policy, p, s, turns).tables;
      && Delivered(config, TakeAll(config, policy, p, s, before).tables.chains, p, g) && Keeps(s.tables, g)
      && LedgerExplained(config, p, s.tables.ledger, g.ledger, turns)
      && EventsExplained(config, p, s.tables.events, g, turns)
      && (forall i :: 0 <= i < |p.events| && OnlyOurs(s.tables, turns, p.events[i].key) ==>
            p.events[i].key in g.events && Tells(config, g, g.events[p.events[i].key], p.events[i], p.receivedAt))
  {
    var turns := before + [Begin(now)] + attempt + after;
    var then_ := TakeAll(config, policy, p, s, before);
    TakeAllSplits(config, policy, p, s, before, [Begin(now)]);
    TakeAllSplits(config, policy, p, s, before + [Begin(now)], attempt);
    TakeAllSplits(config, policy, p, s, before + [Begin(now)] + attempt, after);
    TakeOne(config, policy, p, then_, Begin(now));
    AttemptDelivers(config, policy, p, then_, now, attempt);
    var ended := TakeAll(config, policy, p, s, before + [Begin(now)] + attempt);
    var g := TakeAll(config, policy, p, s, turns).tables;
    TurnsKeep(config, policy, p, ended, after);
    StaysDelivered(config, then_.tables.chains, p, ended.tables, g);
    TurnsKeep(config, policy, p, s, turns);
    TurnsExplained(config, policy, p, s, turns);
    forall i | 0 <= i < |p.events| && OnlyOurs(s.tables, turns, p.events[i].key)
      ensures p.events[i].key in g.events && Tells(config, g, g.events[p.events[i].key], p.events[i], p.receivedAt)
    {
      RowIsItsEvents(config, then_.tables.chains, p, s.tables, g, turns, i);
    }
  }

  lemma TakeOne(config: Config, policy: Q.Policy, p: Payload, s: State, turn: Turn)
    ensures TakeAll(config, policy, p, s, [turn]) == Take(config, policy, p, s, turn)
  {
    assert [turn][..0] == [];
  }

  lemma RowIsItsEvents(config: Config, chains: seq<Chains.Chain>, p: Payload, was: Tables, g: Tables, turns: seq<Turn>,
                       i: nat)
    requires WellFormed(p) && i < |p.events| && OnlyOurs(was, turns, p.events[i].key)
    requires Delivered(config, chains, p, g) && EventsExplained(config, p, was.events, g, turns)
    ensures p.events[i].key in g.events && Tells(config, g, g.events[p.events[i].key], p.events[i], p.receivedAt)
  {
    var key := p.events[i].key;
    assert EventDelivered(config, chains, p, g, p.events[i]);
    var e :| e in p.events && e.key == key && Tells(config, g, g.events[key], e, p.receivedAt);
    var j :| 0 <= j < |p.events| && p.events[j] == e;
    assert i == j;
  }
}
