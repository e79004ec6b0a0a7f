/** The outbox worker: a due row's payload is normalized, correlated and fanned
    out, and the row is finished, retried or dead-lettered. */
module Worker {
  import opened Types
  import opened Events
  import opened Correlate
  import opened Db
  import opened Engine
  import opened Pipeline
  import Chains
  import CrashRepair
  import Interference
  import Retention
  import Silence = KillSwitch
  import Q = WorkQueue

  // An attempt with one reading of the switch that ends after `cut` store calls.
  function CutOff(p: CrashRepair.Payload, cut: nat, now: Time, engaged: bool): CrashRepair.Attempt {
    CrashRepair.Attempt(cut, now, seq(|p.events|, _ => engaged))
  }

  // One that runs to its end.
  function Whole(config: Config, p: CrashRepair.Payload, now: Time, engaged: bool): CrashRepair.Attempt {
    var a := CutOff(p, 0, now, engaged);
    a.(cut := |CrashRepair.AllCalls(config, p, a)|)
  }

  lemma WholeIsWhole(config: Config, p: CrashRepair.Payload, now: Time, engaged: bool)
    ensures var a := Whole(config, p, now, engaged);
      a.cut == |CrashRepair.AllCalls(config, p, a)| && (!engaged ==> CrashRepair.Clean(config, p, a))
  {
    var a := Whole(config, p, now, engaged);
    assert CrashRepair.Parts(config, p, a) == CrashRepair.Parts(config, p, a.(cut := 0));
  }

  // One event's part of an attempt.
  function EventDone(config: Config, f: Frame, body: Event, receivedAt: Time, now: Time, engaged: bool): Frame {
    ExecAll(config, f, CrashRepair.EventCalls(config, body, receivedAt, now, engaged))
  }

  // The same attempt, event by event: the first `n` of them.
  function FirstEvents(config: Config, f: Frame, p: CrashRepair.Payload, now: Time, engaged: bool, n: nat): Frame
    requires n <= |p.events|
  {
    if n == 0 then f
    else EventDone(config, FirstEvents(config, f, p, now, engaged, n - 1), p.events[n - 1], p.receivedAt, now, engaged)
  }

  lemma OnePartMore(config: Config, f: Frame, parts: seq<seq<Call>>, n: nat)
    requires 0 < n <= |parts|
    ensures ExecAll(config, f, CrashRepair.Flatten(parts[..n])) ==
            ExecAll(config, ExecAll(config, f, CrashRepair.Flatten(parts[..n - 1])), parts[n - 1])
  {
    assert parts[..n][..n - 1] == parts[..n - 1];
    ExecAllSplits(config, f, CrashRepair.Flatten(parts[..n - 1]), parts[n - 1]);
  }

  predicate IsParts(config: Config, p: CrashRepair.Payload, now: Time, engaged: bool, parts: seq<seq<Call>>) {
    && |parts| == |p.events|
    && forall i :: 0 <= i < |parts| ==>
       parts[i] == CrashRepair.EventCalls(config, p.events[i], p.receivedAt, now, engaged)
  }

  lemma FirstEventsStep(config: Config, f: Frame, p: CrashRepair.Payload, now: Time, engaged: bool, n: nat,
                        part: seq<Call>)
    requires 0 < n <= |p.events|
    requires part == CrashRepair.EventCalls(config, p.events[n - 1], p.receivedAt, now, engaged)
    ensures FirstEvents(config, f, p, now, engaged, n) ==
      ExecAll(config, FirstEvents(config, f, p, now, engaged, n - 1), part)
  {
  }

  lemma OneEventMore(config: Config, f: Frame, p: CrashRepair.Payload, now: Time, engaged: bool, parts: seq<seq<Call>>,
                     n: nat)
    requires 0 < n <= |parts| == |p.events|
    requires parts[n - 1] == CrashRepair.EventCalls(config, p.events[n - 1], p.receivedAt, now, engaged)
    requires FirstEvents(config, f, p, now, engaged, n - 1) == ExecAll(config, f, CrashRepair.Flatten(parts[..n - 1]))
    ensures FirstEvents(config, f, p, now, engaged, n) == ExecAll(config, f, CrashRepair.Flatten(parts[..n]))
  {
    OnePartMore(config, f, parts, n);
    FirstEventsStep(config, f, p, now, engaged, n, parts[n - 1]);
  }

  lemma {:induction false} FirstEventsFlatten(config: Config, f: Frame, p: CrashRepair.Payload, now: Time,
                                              engaged: bool, parts: seq<seq<Call>>, n: nat)
    requires n <= |parts| && IsParts(config, p, now, engaged, parts)
    ensures FirstEvents(config, f, p, now, engaged, n) == ExecAll(config, f, CrashRepair.Flatten(parts[..n]))
  {
    if n > 0 {
      FirstEventsFlatten(config, f, p, now, engaged, parts, n - 1);
      OneEventMore(config, f, p, now, engaged, parts, n);
    }
  }

  lemma WholeRuns(config: Config, t: Tables, p: CrashRepair.Payload, now: Time, engaged: bool)
    ensures CrashRepair.Try(config, t, p, Whole(config, p, now, engaged)) ==
      FirstEvents(config, Frame(t, None), p, now, engaged, |p.events|).tables
  {
    var a := Whole(config, p, now, engaged);
    WholeIsWhole(config, p, now, engaged);
    var parts, calls := CrashRepair.Parts(config, p, a), CrashRepair.AllCalls(config, p, a);
    FirstEventsFlatten(config, Frame(t, None), p, now, engaged, parts, |parts|);
    assert parts[..|parts|] == parts && calls[..|calls|] == calls;
  }

  lemma {:induction false} FanOutIgnoresMedia(config: Config, f: Frame, calls: seq<Call>)
    requires forall i :: 0 <= i < |calls| ==> calls[i].Notify?
    ensures ExecAll(config, f, calls) == Frame(ExecAll(config, Frame(f.tables, None), calls).tables, f.mediaId)
  {
    if calls != [] { FanOutIgnoresMedia(config, f, calls[..|calls| - 1]); }
  }

  // An event's calls are its application followed by its fan-out.
  lemma EventInSteps(config: Config, f: Frame, body: Event, receivedAt: Time, now: Time, engaged: bool)
    ensures var g := Applied(config, f, body, receivedAt);
      EventDone(config, f, body, receivedAt, now, engaged) ==
      Frame(ExecAll(config, Frame(g.tables, None), FanOutCalls(config, body, now, engaged)).tables, g.mediaId)
  {
    ApplyInSteps(config, f, body, receivedAt);
    ExecAllSplits(config, f, ApplyCalls(body, receivedAt), FanOutCalls(config, body, now, engaged));
    FanOutIgnoresMedia(config, Applied(config, f, body, receivedAt), FanOutCalls(config, body, now, engaged));
  }

  method ApplyBody(store: Store, correlator: Correlator, body: Event, media: MediaHandle, receivedAt: Time, now: Time)
    requires correlator.store == store
    modifies store`media, store`identities, store`events, store`chains, media
    ensures Frame(store.Snapshot(), media.mediaId) ==
      Applied(store.config, old(Frame(store.Snapshot(), media.mediaId)), body, receivedAt)
  {
    var e := new CanonicalEvent(body, media);
    e.receivedAt := Some(receivedAt);
    var isNew := correlator.Apply(e, now);
  }

  method ProcessEvent(store: Store, correlator: Correlator, kill: KillSwitch, body: Event, media: MediaHandle,
                      receivedAt: Time, now: Time)
    requires correlator.store == store && kill.store == store
    modifies store`media, store`identities, store`events, store`chains, store`ledger, media
    ensures Frame(store.Snapshot(), media.mediaId) ==
      EventDone(store.config, old(Frame(store.Snapshot(), media.mediaId)), body, receivedAt, now,
        Silence.Engaged(kill.envOverride, store.audit))
  {
    EventInSteps(store.config, Frame(store.Snapshot(), media.mediaId), body, receivedAt, now,
      Silence.Engaged(kill.envOverride, store.audit));
    ApplyBody(store, correlator, body, media, receivedAt, now);
    var created := EnqueueForEvent(store, kill, body, now);
  }

  // Event `i` of a payload whose first `i` events are done.
  method ProcessNext(store: Store, correlator: Correlator, kill: KillSwitch, p: CrashRepair.Payload, i: nat,
                     media: MediaHandle, now: Time, ghost start: Frame)
    requires correlator.store == store && kill.store == store && i < |p.events|
    requires Frame(store.Snapshot(), media.mediaId) ==
      FirstEvents(store.config, start, p, now, Silence.Engaged(kill.envOverride, store.audit), i)
    modifies store`media, store`identities, store`events, store`chains, store`ledger, media
    ensures Frame(store.Snapshot(), media.mediaId) ==
      FirstEvents(store.config, start, p, now, Silence.Engaged(kill.envOverride, store.audit), i + 1)
  {
    ProcessEvent(store, correlator, kill, p.events[i], media, p.receivedAt, now);
  }

  method ProcessEvents(store: Store, correlator: Correlator, kill: KillSwitch, p: CrashRepair.Payload,
                       media: MediaHandle, now: Time)
    requires correlator.store == store && kill.store == store
    modifies store`media, store`identities, store`events, store`chains, store`ledger, media
    ensures Frame(store.Snapshot(), media.mediaId) ==
      FirstEvents(store.config, old(Frame(store.Snapshot(), media.mediaId)), p, now,
        Silence.Engaged(kill.envOverride, store.audit), |p.events|)
  {
    ghost var start, config := Frame(store.Snapshot(), media.mediaId), store.config;
    ghost var engaged := Silence.Engaged(kill.envOverride, store.audit);
    var i := 0;
    while i < |p.events|
      modifies store`media, store`identities, store`events, store`chains, store`ledger, media
      invariant 0 <= i <= |p.events|
      invariant Frame(store.Snapshot(), media.mediaId) == FirstEvents(config, start, p, now, engaged, i)
    {
      ProcessNext(store, correlator, kill, p, i, media, now, start);
      i := i + 1;
    }
  }

  // Every event is applied and then fanned out, new or not; the result is an
  // uninterrupted attempt.
  method Process(store: Store, correlator: Correlator, kill: KillSwitch, p: CrashRepair.Payload, now: Time)
    requires correlator.store == store && kill.store == store
    modifies store`media, store`identities, store`events, store`chains, store`ledger
    ensures store.Snapshot() ==
      CrashRepair.Try(store.config, old(store.Snapshot()), p,
        Whole(store.config, p, now, Silence.Engaged(kill.envOverride, store.audit)))
  {
    WholeRuns(store.config, store.Snapshot(), p, now, Silence.Engaged(kill.envOverride, store.audit));
    var media := new MediaHandle();
    ProcessEvents(store, correlator, kill, p, media, now);
  }

  // What `Process` leaves after any number of cut-off attempts is what it would
  // have left at first.
  lemma ProcessRepairs(config: Config, t0: Tables, p: CrashRepair.Payload, attempts: seq<CrashRepair.Attempt>,
                       first: Time, now: Time)
    requires CrashRepair.WellFormed(p) && CrashRepair.Safe(config, t0, p) && Chains.Sound(t0.chains)
    ensures var t := CrashRepair.TryAll(config, t0, p, attempts);
      CrashRepair.SameTables(CrashRepair.Try(config, t, p, Whole(config, p, now, false)),
                             CrashRepair.Try(config, t0, p, Whole(config, p, first, false)))
  {
    WholeIsWhole(config, p, now, false);
    WholeIsWhole(config, p, first, false);
    CrashRepair.RetriesRepairExactly(config, t0, p, attempts, Whole(config, p, now, false),
      Whole(config, p, first, false));
  }

  // ---- An attempt that raises -------------------------------------------------

  // One store call of `process`, with what the running code holds in hand.
  method Perform(store: Store, correlator: Correlator, media: MediaHandle, c: Call)
    requires correlator.store == store
    modifies store`media, store`identities, store`events, store`chains, store`ledger, media
    ensures Frame(store.Snapshot(), media.mediaId) == Exec(store.config, old(Frame(store.Snapshot(), media.mediaId)), c)
  {
    match c {
      case ResolveMedia(ref) =>
        if media.mediaId.None? {
          var id := store.FindOrCreateMedia(ref);
          media.mediaId := Some(id);
        }
      case ObserveUser(id) =>
        if ResolveIdentity(store.config, store.identities, id).None? {
          var isNew := store.ObserveIdentity(id);
        }
      case InsertEvent(body, receivedAt) =>
        var e := InHand(store, body, media, receivedAt);
        var inserted := correlator.Insert(e);
      case AdvanceChain(body, receivedAt) =>
        if IsLifecycle(body.kind) {
          var e := InHand(store, body, media, receivedAt);
          correlator.AdvanceChain(e);
        }
      case Notify(key, now) =>
        var created := store.EnqueueNotification(key, now);
    }
  }

  // The event as it stands once its user has been looked up.
  method InHand(store: Store, body: Event, media: MediaHandle, receivedAt: Time) returns (e: CanonicalEvent)
    ensures fresh(e) && e.body == body && e.media == media && e.receivedAt == Some(receivedAt)
    ensures e.userId == UserOf(store.config, store.identities, body.user)
    ensures e.unmapped == (HasIdentity(body) && e.userId.None?)
  {
    e := new CanonicalEvent(body, media);
    e.receivedAt := Some(receivedAt);
    e.userId := UserOf(store.config, store.identities, body.user);
    e.unmapped := HasIdentity(body) && e.userId.None?;
  }

  // Call `i` of an attempt whose first `i` calls are made.
  method PerformNext(store: Store, correlator: Correlator, media: MediaHandle, calls: seq<Call>, i: nat,
                     ghost start: Frame)
    requires correlator.store == store && i < |calls|
    requires Frame(store.Snapshot(), media.mediaId) == ExecFirst(store.config, start, calls, i)
    modifies store`media, store`identities, store`events, store`chains, store`ledger, media
    ensures Frame(store.Snapshot(), media.mediaId) == ExecFirst(store.config, start, calls, i + 1)
  {
    OneCallMore(store.config, start, calls, i);
    Perform(store, correlator, media, calls[i]);
  }

  method PerformFirst(store: Store, correlator: Correlator, media: MediaHandle, calls: seq<Call>, n: nat)
    requires correlator.store == store && n <= |calls|
    modifies store`media, store`identities, store`events, store`chains, store`ledger, media
    ensures Frame(store.Snapshot(), media.mediaId) ==
      ExecFirst(store.config, old(Frame(store.Snapshot(), media.mediaId)), calls, n)
  {
    ghost var start, config := Frame(store.Snapshot(), media.mediaId), store.config;
    var i := 0;
    while i < n
      modifies store`media, store`identities, store`events, store`chains, store`ledger, media
      invariant 0 <= i <= n
      invariant Frame(store.Snapshot(), media.mediaId) == ExecFirst(config, start, calls, i)
    {
      PerformNext(store, correlator, media, calls, i, start);
      i := i + 1;
    }
  }

  // What is left of `process` when it raises after `cut` store calls.
  method ProcessUntil(store: Store, correlator: Correlator, kill: KillSwitch, p: CrashRepair.Payload, cut: nat,
                      now: Time)
    requires correlator.store == store && kill.store == store
    modifies store`media, store`identities, store`events, store`chains, store`ledger
    ensures store.Snapshot() ==
      CrashRepair.Try(store.config, old(store.Snapshot()), p,
                      CutOff(p, cut, now, Silence.Engaged(kill.envOverride, store.audit)))
  {
    var engaged := kill.Engaged();
    var calls := CrashRepair.AllCalls(store.config, p, CutOff(p, cut, now, engaged));
    var media := new MediaHandle();
    PerformFirst(store, correlator, media, calls, Min(cut, |calls|));
  }

  // ---- Ingest ---------------------------------------------------------------

  // A webhook that passed its checks: archived, then enqueued, dead if its body
  // does not parse.
  method ReceiveWebhook(store: Store, rawId: nat, rowId: nat, headers: string, body: string, parses: bool, now: Time)
    requires rawId !in store.raw && rowId !in store.outbox
    modifies store`raw, store`outbox
    ensures store.raw == old(store.raw)[rawId := Retention.Raw(now, body, headers)]
    ensures store.outbox == Retention.Enqueued(old(store.outbox), rowId, rawId, !parses, now)
    ensures Retention.Linked(old(store.Archive())) ==> Retention.Linked(store.Archive())
  {
    store.ArchiveRaw(rawId, headers, body, now);
    var ok := store.EnqueueOutbox(rowId, rawId, !parses, now);
  }

  // ---- The outbox pass ----------------------------------------------------

  // What becomes of a body: its events are processed, or something raises after
  // `cut` store calls. A body that does not parse raises with no events.
  datatype Parsed = Emits(events: seq<Event>) | Raises(events: seq<Event>, cut: nat)

  // The tables and the outcome of each claimed row, in order.
  datatype Work = Work(tables: Tables, outcomes: seq<Q.Outcome>)

  datatype Setting = Setting(config: Config, raw: map<nat, Retention.Raw>, parse: Retention.Raw -> Parsed, now: Time,
    engaged: bool)

  function Attempted(s: Setting, t: Tables, raw: Retention.Raw, events: seq<Event>): Tables {
    var p := CrashRepair.PayloadOf(events, raw.receivedAt);
    CrashRepair.Try(s.config, t, p, Whole(s.config, p, s.now, s.engaged))
  }

  function Broken(s: Setting, t: Tables, raw: Retention.Raw, events: seq<Event>, cut: nat): Tables {
    var p := CrashRepair.PayloadOf(events, raw.receivedAt);
    CrashRepair.Try(s.config, t, p, CutOff(p, cut, s.now, s.engaged))
  }

  function Handled(s: Setting, w: Work, rawId: nat): Work {
    if rawId !in s.raw then w.(outcomes := w.outcomes + [Q.Missing])
    else
      match s.parse(s.raw[rawId])
      case Raises(events, cut) => Work(Broken(s, w.tables, s.raw[rawId], events, cut), w.outcomes + [Q.Raised])
      case Emits(events) => Work(Attempted(s, w.tables, s.raw[rawId], events), w.outcomes + [Q.Done])
  }

  function HandledFirst(s: Setting, rows: Retention.Outbox, t: Tables, keys: seq<nat>, n: nat): (w: Work)
    requires n <= |keys| && forall k :: k in keys ==> k in rows
    ensures |w.outcomes| == n
    ensures Retention.Linked(Retention.Archive(s.raw, rows)) ==> Q.Missing !in w.outcomes
  {
    if n == 0 then Work(t, []) else Handled(s, HandledFirst(s, rows, t, keys, n - 1), rows[keys[n - 1]].item)
  }

  function HandledAll(s: Setting, rows: Retention.Outbox, t: Tables, keys: seq<nat>): (w: Work)
    requires forall k :: k in keys ==> k in rows
    ensures |w.outcomes| == |keys|
    ensures Retention.Linked(Retention.Archive(s.raw, rows)) ==> Q.Missing !in w.outcomes
  {
    HandledFirst(s, rows, t, keys, |keys|)
  }

  // ---- What a pass does to its rows ------------------------------------------

  // A row whose payload went through is finished; one whose payload raised, or is
  // not there, has an attempt more, and is dead or waits.
  predicate RowWorked(policy: Q.Policy, raw: map<nat, Retention.Raw>, parse: Retention.Raw -> Parsed, now: Time,
                      was: Q.Row<nat>, row: Q.Row<nat>)
  {
    row.item == was.item &&
    if was.item !in raw then row.status == Q.Dead && row.attempts == was.attempts + 1 && row.due == was.due
    else if parse(raw[was.item]).Emits? then
      row.status == Q.Finished && row.attempts == was.attempts && row.due == was.due
    else
      && row.attempts == was.attempts + 1
      && if was.attempts + 1 >= policy.maxAttempts then row.status == Q.Dead && row.due == was.due
         else row.status == was.status && row.due == now + Q.Backoff(policy.backoffBase, was.attempts)
  }

  predicate RowsWorked(policy: Q.Policy, raw: map<nat, Retention.Raw>, parse: Retention.Raw -> Parsed, now: Time,
                       keys: seq<nat>, rows: Retention.Outbox, after: Retention.Outbox)
  {
    && after.Keys == rows.Keys
    && forall k :: k in rows ==>
         if k in keys then RowWorked(policy, raw, parse, now, rows[k], after[k]) else after[k] == rows[k]
  }

  lemma HandledOutcome(s: Setting, w: Work, item: nat)
    ensures Handled(s, w, item).outcomes == w.outcomes +
      [if item !in s.raw then Q.Missing else if s.parse(s.raw[item]).Emits? then Q.Done else Q.Raised]
  {
  }

  lemma {:induction false} OutcomeOf(s: Setting, rows: Retention.Outbox, t: Tables, keys: seq<nat>, n: nat, j: nat)
    requires j < n <= |keys| && forall k :: k in keys ==> k in rows
    ensures var item := rows[keys[j]].item;
      HandledFirst(s, rows, t, keys, n).outcomes[j] ==
      if item !in s.raw then Q.Missing else if s.parse(s.raw[item]).Emits? then Q.Done else Q.Raised
  {
    HandledOutcome(s, HandledFirst(s, rows, t, keys, n - 1), rows[keys[n - 1]].item);
    if j < n - 1 { OutcomeOf(s, rows, t, keys, n - 1, j); }
  }

  lemma RowIsWorked(policy: Q.Policy, s: Setting, rows: Retention.Outbox, t: Tables, keys: seq<nat>, j: nat)
    requires policy.table == Q.Outbox && j < |keys| && forall k :: k in keys ==> k in rows
    ensures RowWorked(policy, s.raw, s.parse, s.now, rows[keys[j]],
      Q.Settle(policy, rows[keys[j]], HandledAll(s, rows, t, keys).outcomes[j], s.now))
  {
    OutcomeOf(s, rows, t, keys, |keys|, j);
  }

  lemma PassSettles(policy: Q.Policy, rows: Retention.Outbox, keys: seq<nat>, outcomes: seq<Q.Outcome>, now: Time,
                    k: nat)
    returns (j: nat)
    requires Q.Distinct(keys) && |outcomes| == |keys| && k in keys && k in rows
    ensures j < |keys| && keys[j] == k && k in Q.Pass(policy, rows, keys, outcomes, now)
    ensures Q.Pass(policy, rows, keys, outcomes, now)[k] == Q.Settle(policy, rows[k], outcomes[j], now)
  {
    Q.PassEffect(policy, rows, keys, outcomes, now);
    j :| 0 <= j < |keys| && keys[j] == k;
  }

  lemma PassSpares(policy: Q.Policy, rows: Retention.Outbox, keys: seq<nat>, outcomes: seq<Q.Outcome>, now: Time)
    requires Q.Distinct(keys) && |outcomes| == |keys|
    ensures var after := Q.Pass(policy, rows, keys, outcomes, now);
      after.Keys == rows.Keys && forall k :: k in rows && k !in keys ==> after[k] == rows[k]
  {
    Q.PassEffect(policy, rows, keys, outcomes, now);
    assert keys[..|outcomes|] == keys;
  }

  lemma PassWorks(policy: Q.Policy, s: Setting, rows: Retention.Outbox, t: Tables, keys: seq<nat>,
                  after: Retention.Outbox)
    requires policy.table == Q.Outbox && Q.Distinct(keys) && forall k :: k in keys ==> k in rows
    requires after == Q.Pass(policy, rows, keys, HandledAll(s, rows, t, keys).outcomes, s.now)
    ensures RowsWorked(policy, s.raw, s.parse, s.now, keys, rows, after)
  {
    PassSpares(policy, rows, keys, HandledAll(s, rows, t, keys).outcomes, s.now);
    forall k | k in keys
      ensures RowWorked(policy, s.raw, s.parse, s.now, rows[k], after[k])
    {
      var j := PassSettles(policy, rows, keys, HandledAll(s, rows, t, keys).outcomes, s.now, k);
      RowIsWorked(policy, s, rows, t, keys, j);
    }
  }

  // ---- What a pass delivers ---------------------------------------------------

  // The events of a raw row whose payload goes through.
  function EmittedBy(raw: map<nat, Retention.Raw>, parse: Retention.Raw -> Parsed, id: nat): seq<Event> {
    if id in raw && parse(raw[id]).Emits? then parse(raw[id]).events else []
  }

  // The event is stored and, with the switch off, there on every routed channel.
  predicate Arrived(config: Config, t: Tables, e: Event, engaged: bool) {
    && e.key in t.events
    && (!engaged ==> forall ch :: ch in ChannelsFor(config.rules, e.kind, e.source) ==> NoteKey(e.key, ch) in t.ledger)
  }

  lemma {:induction false} CallsKeep(config: Config, f: Frame, calls: seq<Call>)
    ensures Interference.Keeps(f.tables, ExecAll(config, f, calls).tables)
  {
    if calls != [] {
      var n := |calls| - 1;
      var before := ExecAll(config, f, calls[..n]);
      CallsKeep(config, f, calls[..n]);
      Interference.CallKeeps(config, before, calls[n]);
      Interference.KeepsOn(f.tables, before.tables, ExecAll(config, f, calls).tables);
    }
  }

  lemma {:induction false} NotesArrive(config: Config, f: Frame, key: string, channels: seq<string>, now: Time)
    ensures forall ch :: ch in channels ==>
      NoteKey(key, ch) in ExecAll(config, f, NotifyCalls(key, channels, now)).tables.ledger
  {
    if channels != [] {
      var n := |channels| - 1;
      NotesArrive(config, f, key, channels[..n], now);
      assert NotifyCalls(key, channels, now)[..n] == NotifyCalls(key, channels[..n], now);
    }
  }

  lemma EventArrives(config: Config, f: Frame, e: Event, receivedAt: Time, now: Time, engaged: bool)
    ensures Arrived(config, EventDone(config, f, e, receivedAt, now, engaged).tables, e, engaged)
    ensures Interference.Keeps(f.tables, EventDone(config, f, e, receivedAt, now, engaged).tables)
  {
    var g, calls := Applied(config, f, e, receivedAt), FanOutCalls(config, e, now, engaged);
    EventInSteps(config, f, e, receivedAt, now, engaged);
    AppliedStores(config, f, e, receivedAt);
    CallsKeep(config, Frame(g.tables, None), calls);
    NotesArrive(config, Frame(g.tables, None), e.key, ChannelsFor(config.rules, e.kind, e.source), now);
    CallsKeep(config, f, CrashRepair.EventCalls(config, e, receivedAt, now, engaged));
  }

  lemma ArrivedStays(config: Config, t: Tables, u: Tables, e: Event, engaged: bool)
    requires Arrived(config, t, e, engaged) && Interference.Keeps(t, u)
    ensures Arrived(config, u, e, engaged)
  {
  }

  lemma OneEventArrives(config: Config, f: Frame, p: CrashRepair.Payload, now: Time, engaged: bool, n: nat)
    returns (before: Frame, after: Frame)
    requires 0 < n <= |p.events|
    ensures before == FirstEvents(config, f, p, now, engaged, n - 1)
    ensures after == FirstEvents(config, f, p, now, engaged, n)
    ensures Interference.Keeps(before.tables, after.tables) && Arrived(config, after.tables, p.events[n - 1], engaged)
  {
    before := FirstEvents(config, f, p, now, engaged, n - 1);
    after := EventDone(config, before, p.events[n - 1], p.receivedAt, now, engaged);
    EventArrives(config, before, p.events[n - 1], p.receivedAt, now, engaged);
  }

  lemma {:induction false} EventIsThere(config: Config, f: Frame, p: CrashRepair.Payload, now: Time, engaged: bool,
                                        n: nat, i: nat)
    requires i < n <= |p.events|
    ensures Arrived(config, FirstEvents(config, f, p, now, engaged, n).tables, p.events[i], engaged)
  {
    var before, after := OneEventArrives(config, f, p, now, engaged, n);
    if i < n - 1 {
      EventIsThere(config, f, p, now, engaged, n - 1, i);
      ArrivedStays(config, before.tables, after.tables, p.events[i], engaged);
    }
  }

  lemma EventsArrive(config: Config, t: Tables, p: CrashRepair.Payload, now: Time, engaged: bool)
    ensures forall e :: e in p.events ==>
      Arrived(config, CrashRepair.Try(config, t, p, Whole(config, p, now, engaged)), e, engaged)
  {
    WholeRuns(config, t, p, now, engaged);
    forall e | e in p.events
      ensures Arrived(config, CrashRepair.Try(config, t, p, Whole(config, p, now, engaged)), e, engaged)
    {
      var i :| 0 <= i < |p.events| && p.events[i] == e;
      EventIsThere(config, Frame(t, None), p, now, engaged, |p.events|, i);
    }
  }

  lemma HandledKeeps(s: Setting, w: Work, rawId: nat)
    ensures Interference.Keeps(w.tables, Handled(s, w, rawId).tables)
    ensures forall e :: e in EmittedBy(s.raw, s.parse, rawId) ==>
      Arrived(s.config, Handled(s, w, rawId).tables, e, s.engaged)
  {
    CallsKeep(s.config, Frame(w.tables, None), []);
    if rawId in s.raw {
      var raw := s.raw[rawId];
      match s.parse(raw)
      case Emits(events) =>
        var p := CrashRepair.PayloadOf(events, raw.receivedAt);
        TryKeeps(s.config, w.tables, p, Whole(s.config, p, s.now, s.engaged));
        EventsArrive(s.config, w.tables, p, s.now, s.engaged);
      case Raises(events, cut) =>
        var p := CrashRepair.PayloadOf(events, raw.receivedAt);
        TryKeeps(s.config, w.tables, p, CutOff(p, cut, s.now, s.engaged));
    }
  }

  lemma TryKeeps(config: Config, t: Tables, p: CrashRepair.Payload, a: CrashRepair.Attempt)
    ensures Interference.Keeps(t, CrashRepair.Try(config, t, p, a))
  {
    var calls := CrashRepair.AllCalls(config, p, a);
    CallsKeep(config, Frame(t, None), calls[..Min(a.cut, |calls|)]);
  }

  lemma {:induction false} PassDelivers(s: Setting, rows: Retention.Outbox, t: Tables, keys: seq<nat>, n: nat, j: nat,
                                        e: Event)
    requires j < n <= |keys| && (forall k :: k in keys ==> k in rows)
      && e in EmittedBy(s.raw, s.parse, rows[keys[j]].item)
    ensures Arrived(s.config, HandledFirst(s, rows, t, keys, n).tables, e, s.engaged)
  {
    var before := HandledFirst(s, rows, t, keys, n - 1);
    HandledKeeps(s, before, rows[keys[n - 1]].item);
    if j < n - 1 {
      PassDelivers(s, rows, t, keys, n - 1, j, e);
      ArrivedStays(s.config, before.tables, HandledFirst(s, rows, t, keys, n).tables, e, s.engaged);
    }
  }

  lemma PassDeliversAll(s: Setting, rows: Retention.Outbox, t: Tables, keys: seq<nat>)
    requires forall k :: k in keys ==> k in rows
    ensures forall k, e :: k in keys && e in EmittedBy(s.raw, s.parse, rows[k].item) ==>
      Arrived(s.config, HandledAll(s, rows, t, keys).tables, e, s.engaged)
  {
    forall k, e | k in keys && e in EmittedBy(s.raw, s.parse, rows[k].item)
      ensures Arrived(s.config, HandledAll(s, rows, t, keys).tables, e, s.engaged)
    {
      var j :| 0 <= j < |keys| && keys[j] == k;
      PassDelivers(s, rows, t, keys, |keys|, j, e);
    }
  }

  method SettleRaised(store: Store, policy: Q.Policy, id: nat, row: Q.Row<nat>, now: Time)
    requires policy.table == Q.Outbox && id in store.outbox && store.outbox[id] == row
    modifies store`outbox
    ensures store.outbox == old(store.outbox)[id := Q.Settle(policy, row, Q.Raised, now)]
  {
    if row.attempts + 1 >= policy.maxAttempts {
      store.OutboxDead(id);
    } else {
      store.OutboxRetry(id, now + Q.Backoff(policy.backoffBase, row.attempts));
    }
  }

  method ProcessRow(store: Store, correlator: Correlator, kill: KillSwitch, policy: Q.Policy, id: nat, row: Q.Row<nat>,
                    parse: Retention.Raw -> Parsed, now: Time) returns (ghost outcome: Q.Outcome)
    requires correlator.store == store && kill.store == store && policy.table == Q.Outbox
    requires id in store.outbox && store.outbox[id] == row
    modifies store`media, store`identities, store`events, store`chains, store`ledger, store`outbox
    ensures var s := Setting(store.config, store.raw, parse, now, Silence.Engaged(kill.envOverride, store.audit));
      Work(store.Snapshot(), [outcome]) == Handled(s, Work(old(store.Snapshot()), []), row.item)
    ensures store.outbox == old(store.outbox)[id := Q.Settle(policy, row, outcome, now)]
    ensures RowWorked(policy, store.raw, parse, now, row, store.outbox[id])
  {
    if row.item !in store.raw {
      store.OutboxDead(id);
      return Q.Missing;
    }
    var raw := store.raw[row.item];
    match parse(raw) {
      case Raises(events, cut) =>
        ProcessUntil(store, correlator, kill, CrashRepair.PayloadOf(events, raw.receivedAt), cut, now);
        outcome := Q.Raised;
        SettleRaised(store, policy, id, row, now);
      case Emits(events) =>
        Process(store, correlator, kill, CrashRepair.PayloadOf(events, raw.receivedAt), now);
        store.OutboxDone(id);
        outcome := Q.Done;
    }
  }

  lemma HandledAgain(s: Setting, w: Work, one: Work, rawId: nat)
    requires one == Handled(s, Work(w.tables, []), rawId)
    ensures Handled(s, w, rawId) == Work(one.tables, w.outcomes + one.outcomes)
  {
  }

  // One more row: what the pass has done with it.
  lemma OneRowMore(policy: Q.Policy, s: Setting, rows: Retention.Outbox, t: Tables, keys: seq<nat>, w: Work,
                   after: Tables, outcome: Q.Outcome)
    requires Q.Distinct(keys) && (forall k :: k in keys ==> k in rows) && |w.outcomes| < |keys|
    requires w == HandledFirst(s, rows, t, keys, |w.outcomes|)
    requires Work(after, [outcome]) == Handled(s, Work(w.tables, []), rows[keys[|w.outcomes|]].item)
    ensures HandledFirst(s, rows, t, keys, |w.outcomes| + 1) == Work(after, w.outcomes + [outcome])
    ensures var key := keys[|w.outcomes|];
      Q.Pass(policy, rows, keys, w.outcomes + [outcome], s.now) ==
      Q.Pass(policy, rows, keys, w.outcomes, s.now)[key := Q.Settle(policy, rows[key], outcome, s.now)]
  {
    HandledAgain(s, w, Work(after, [outcome]), rows[keys[|w.outcomes|]].item);
    NotYetHandled(policy, rows, keys, w.outcomes, s.now);
    PassStep(policy, rows, keys, w.outcomes, outcome, s.now);
  }

  // The tables and the outbox once the first `n` claimed rows are handled.
  datatype Stage = Stage(tables: Tables, outbox: Retention.Outbox)

  function StageAt(policy: Q.Policy, s: Setting, rows: Retention.Outbox, t: Tables, keys: seq<nat>, n: nat): Stage
    requires n <= |keys| && forall k :: k in keys ==> k in rows
  {
    var w := HandledFirst(s, rows, t, keys, n);
    Stage(w.tables, Q.Pass(policy, rows, keys, w.outcomes, s.now))
  }

  method ProcessNextRow(store: Store, correlator: Correlator, kill: KillSwitch, policy: Q.Policy, keys: seq<nat>,
                        i: nat, row: Q.Row<nat>,
                        parse: Retention.Raw -> Parsed, now: Time, ghost s: Setting, ghost rows: Retention.Outbox,
                        ghost t: Tables)
    requires correlator.store == store && kill.store == store && policy.table == Q.Outbox
    requires s == Setting(store.config, store.raw, parse, now, Silence.Engaged(kill.envOverride, store.audit))
    requires Q.Distinct(keys) && (forall k :: k in keys ==> k in rows) && i < |keys| && row == rows[keys[i]]
    requires Stage(store.Snapshot(), store.outbox) == StageAt(policy, s, rows, t, keys, i)
    modifies store`media, store`identities, store`events, store`chains, store`ledger, store`outbox
    ensures Stage(store.Snapshot(), store.outbox) == StageAt(policy, s, rows, t, keys, i + 1)
  {
    ghost var w := HandledFirst(s, rows, t, keys, i);
    NotYetHandled(policy, rows, keys, w.outcomes, now);
    ghost var outcome := ProcessRow(store, correlator, kill, policy, keys[i], row, parse, now);
    OneRowMore(policy, s, rows, t, keys, w, store.Snapshot(), outcome);
  }

  method ProcessClaimed(store: Store, correlator: Correlator, kill: KillSwitch, policy: Q.Policy, keys: seq<nat>,
                        parse: Retention.Raw -> Parsed, now: Time)
    requires correlator.store == store && kill.store == store && policy.table == Q.Outbox
    requires Q.Distinct(keys) && forall k :: k in keys ==> k in store.outbox
    modifies store`media, store`identities, store`events, store`chains, store`ledger, store`outbox
    ensures var s := Setting(store.config, store.raw, parse, now, Silence.Engaged(kill.envOverride, store.audit));
      Stage(store.Snapshot(), store.outbox) ==
        StageAt(policy, s, old(store.outbox), old(store.Snapshot()), keys, |keys|)
  {
    ghost var s := Setting(store.config, store.raw, parse, now, Silence.Engaged(kill.envOverride, store.audit));
    ghost var t := store.Snapshot();
    var rows := store.outbox;
    var i := 0;
    while i < |keys|
      modifies store`media, store`identities, store`events, store`chains, store`ledger, store`outbox
      invariant 0 <= i <= |keys|
      invariant Stage(store.Snapshot(), store.outbox) == StageAt(policy, s, rows, t, keys, i)
    {
      ProcessNextRow(store, correlator, kill, policy, keys, i, rows[keys[i]], parse, now, s, rows, t);
      i := i + 1;
    }
  }

  // One pass handles every claimed row, whatever any of them does: it leaves
  // `limit` fewer rows due, or none.
  method ProcessOutboxOnce(store: Store, correlator: Correlator, kill: KillSwitch, policy: Q.Policy, limit: nat,
                           parse: Retention.Raw -> Parsed, now: Time)
    returns (handled: nat, ghost claim: seq<nat>)
    requires correlator.store == store && kill.store == store && policy.table == Q.Outbox
    modifies store`media, store`identities, store`events, store`chains, store`ledger, store`outbox
    ensures Q.IsClaim(claim, old(store.outbox), now, limit) && handled == |claim|
    ensures
      var s := Setting(store.config, store.raw, parse, now, Silence.Engaged(kill.envOverride, store.audit));
      var w := HandledAll(s, old(store.outbox), old(store.Snapshot()), claim);
      && store.Snapshot() == w.tables
      && store.outbox == Q.Pass(policy, old(store.outbox), claim, w.outcomes, now)
      && (Retention.Linked(old(store.Archive())) ==> Q.Missing !in w.outcomes)
    ensures RowsWorked(policy, store.raw, parse, now, claim, old(store.outbox), store.outbox)
    ensures forall k, e :: k in claim && e in EmittedBy(store.raw, parse, old(store.outbox)[k].item) ==>
      Arrived(store.config, store.Snapshot(), e, Silence.Engaged(kill.envOverride, store.audit))
    ensures policy.backoffBase > 0 ==>
      |Q.DueSet(store.outbox, now)| == Max(0, |Q.DueSet(old(store.outbox), now)| - limit)
  {
    ghost var s := Setting(store.config, store.raw, parse, now, Silence.Engaged(kill.envOverride, store.audit));
    ghost var t, rows := store.Snapshot(), store.outbox;
    var keys := store.ClaimOutboxDue(limit, now);
    claim, handled := keys, |keys|;
    ProcessClaimed(store, correlator, kill, policy, keys, parse, now);
    PassWorks(policy, s, rows, t, keys, store.outbox);
    PassDeliversAll(s, rows, t, keys);
    if policy.backoffBase > 0 { OutboxPassDrains(policy, s, rows, t, keys, limit); }
  }

  lemma OutboxPassDrains(policy: Q.Policy, s: Setting, rows: Retention.Outbox, t: Tables, keys: seq<nat>, limit: nat)
    requires policy.backoffBase > 0 && Q.IsClaim(keys, rows, s.now, limit)
    ensures var after := Q.Pass(policy, rows, keys, HandledAll(s, rows, t, keys).outcomes, s.now);
      |Q.DueSet(after, s.now)| == Max(0, |Q.DueSet(rows, s.now)| - limit)
  {
    OutcomesRecorded(s, rows, t, keys, |keys|);
    Q.WholePassDrains(policy, rows, Q.PassPlan(keys, HandledAll(s, rows, t, keys).outcomes), s.now, limit);
  }

  lemma {:induction false} OutcomesRecorded(s: Setting, rows: Retention.Outbox, t: Tables, keys: seq<nat>, n: nat)
    requires n <= |keys| && forall k :: k in keys ==> k in rows
    ensures Q.Recorded(HandledFirst(s, rows, t, keys, n).outcomes)
  {
    if n > 0 { OutcomesRecorded(s, rows, t, keys, n - 1); }
  }
}
