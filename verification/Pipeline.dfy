/** Fan-out of stored events into the notification ledger, and the pass that
    sends what is due. */
module Pipeline {
  import opened Types
  import opened Events
  import opened Correlate
  import opened Db
  import Limits
  import Silence = KillSwitch
  import Q = WorkQueue

  class KillSwitch {
    const store: Store
    const envOverride: bool

    constructor (store: Store, envOverride: bool)
      ensures this.store == store && this.envOverride == envOverride
    {
      this.store, this.envOverride := store, envOverride;
    }

    method Engaged() returns (engaged: bool)
      ensures engaged == Silence.Engaged(envOverride, store.audit)
      ensures engaged <==> envOverride || store.audit == [] || store.audit[|store.audit| - 1]
    {
      if envOverride { return true; }
      engaged := store.KillSwitchState();
    }

    method Set(engaged: bool)
      modifies store`audit
      ensures store.audit == old(store.audit) + [engaged]
      ensures Silence.Engaged(envOverride, store.audit) == (envOverride || engaged)
    {
      store.SetKillSwitch(engaged);
    }
  }

  // ---- Enqueueing -----------------------------------------------------------

  // Each channel has its row, due at once and untried if it is new; no other row
  // is made and none is touched.
  predicate FannedOut(was: map<NoteKey, Note>, rows: map<NoteKey, Note>, eventKey: string, channels: seq<string>,
                      now: Time)
  {
    && (forall ch :: ch in channels ==> NoteKey(eventKey, ch) in rows)
    && (forall k :: k in was ==> k in rows && rows[k] == was[k])
    && (forall k :: k in rows && k !in was ==>
          k.eventKey == eventKey && k.channel in channels && rows[k] == Q.Row((), Q.Pending, 0, now))
  }

  lemma FannedMore(was: map<NoteKey, Note>, rows: map<NoteKey, Note>, eventKey: string, channels: seq<string>, i: nat,
                   now: Time)
    requires i < |channels| && FannedOut(was, rows, eventKey, channels[..i], now)
    ensures FannedOut(was, Q.Enqueue(rows, NoteKey(eventKey, channels[i]), (), now), eventKey, channels[..i + 1], now)
  {
    assert channels[..i + 1] == channels[..i] + [channels[i]];
  }

  // The first `i` channels have been told.
  ghost predicate Told(store: Store, start: Frame, eventKey: string, channels: seq<string>, i: nat, now: Time)
    requires i <= |channels|
    reads store
  {
    && store.Snapshot() == ExecFirst(store.config, start, NotifyCalls(eventKey, channels, now), i).tables
    && FannedOut(start.tables.ledger, store.ledger, eventKey, channels[..i], now)
  }

  method NotifyChannel(store: Store, ghost start: Frame, eventKey: string, channels: seq<string>, i: nat, now: Time)
    returns (isNew: bool)
    requires i < |channels| && Told(store, start, eventKey, channels, i, now)
    modifies store`ledger
    ensures Told(store, start, eventKey, channels, i + 1, now)
    ensures |store.ledger| == |old(store.ledger)| + if isNew then 1 else 0
  {
    OneCallMore(store.config, start, NotifyCalls(eventKey, channels, now), i);
    FannedMore(start.tables.ledger, store.ledger, eventKey, channels, i, now);
    isNew := store.EnqueueNotification(NoteKey(eventKey, channels[i]), now);
  }

  // Creates a row per routed channel, unless the switch is engaged; returns how
  // many were new.
  method EnqueueForEvent(store: Store, kill: KillSwitch, e: Event, now: Time) returns (created: nat)
    requires kill.store == store
    modifies store`ledger
    ensures var calls := FanOutCalls(store.config, e, now, Silence.Engaged(kill.envOverride, store.audit));
      store.Snapshot() == ExecAll(store.config, Frame(old(store.Snapshot()), None), calls).tables
    ensures |store.ledger| == |old(store.ledger)| + created
    ensures if Silence.Engaged(kill.envOverride, store.audit) then store.ledger == old(store.ledger)
      else FannedOut(old(store.ledger), store.ledger, e.key, ChannelsFor(store.config.rules, e.kind, e.source), now)
  {
    created := 0;
    var channels := ChannelsFor(store.config.rules, e.kind, e.source);
    if channels == [] { return; }
    var engaged := kill.Engaged();
    if engaged { return; }
    ghost var start := Frame(store.Snapshot(), None);
    var i := 0;
    while i < |channels|
      modifies store`ledger
      invariant 0 <= i <= |channels| && |store.ledger| == |old(store.ledger)| + created
      invariant Told(store, start, e.key, channels, i, now)
    {
      var isNew := NotifyChannel(store, start, e.key, channels, i, now);
      if isNew { created := created + 1; }
      i := i + 1;
    }
    ghost var calls := NotifyCalls(e.key, channels, now);
    assert calls[..|channels|] == calls && channels[..|channels|] == channels;
  }

  // ---- Sending --------------------------------------------------------------

  // What the renderers and the channel adapter do: which ledger keys have a
  // special renderer, for which rendering raises, and which sends succeed.
  datatype Outside = Outside(special: set<NoteKey>, breaks: set<NoteKey>, accepts: set<NoteKey>)

  predicate HasMessage(events: map<string, EventRow>, out: Outside, key: NoteKey) {
    key in out.special || key.eventKey in events
  }

  // The outcome of each claimed row, in order, and the limiter's log. A
  // renderer that raises ends the pass: the list stays short.
  datatype Sending = Sending(outcomes: seq<Q.Outcome>, logs: map<string, seq<Time>>)

  function SendOutcome(events: map<string, EventRow>, limit: nat, now: Time, out: Outside, log: seq<Time>,
                       key: NoteKey): Q.Outcome
  {
    if !HasMessage(events, out, key) then Q.Missing
    else if !Limits.Allows(log, limit, now) then Q.Deferred
    else if key in out.accepts then Q.Done else Q.Raised
  }

  predicate Aborts(events: map<string, EventRow>, out: Outside, key: NoteKey)
  {
    HasMessage(events, out, key) && key in out.breaks
  }

  function LogAfter(events: map<string, EventRow>, limit: nat, now: Time, out: Outside, logs: map<string, seq<Time>>,
                    key: NoteKey): map<string, seq<Time>>
  {
    if HasMessage(events, out, key)
    then logs[key.channel := Limits.Admit(Limits.LogOf(logs, key.channel), limit, now)] else logs
  }

  function Sends(events: map<string, EventRow>, limit: nat, now: Time, out: Outside, logs: map<string, seq<Time>>,
                 keys: seq<NoteKey>): (s: Sending)
    ensures |s.outcomes| <= |keys|
  {
    if keys == [] then Sending([], logs)
    else
      var n := |keys| - 1;
      var before := Sends(events, limit, now, out, logs, keys[..n]);
      if |before.outcomes| < n || Aborts(events, out, keys[n]) then before
      else
        var log := Limits.LogOf(before.logs, keys[n].channel);
        Sending(before.outcomes + [SendOutcome(events, limit, now, out, log, keys[n])],
                LogAfter(events, limit, now, out, before.logs, keys[n]))
  }

  lemma SendsStep(events: map<string, EventRow>, limit: nat, now: Time, out: Outside, logs: map<string, seq<Time>>,
                  keys: seq<NoteKey>, i: nat)
    requires i < |keys| && |Sends(events, limit, now, out, logs, keys[..i]).outcomes| == i
      && !Aborts(events, out, keys[i])
    ensures var s := Sends(events, limit, now, out, logs, keys[..i]); var log := Limits.LogOf(s.logs, keys[i].channel);
      Sends(events, limit, now, out, logs, keys[..i + 1]) ==
        Sending(s.outcomes + [SendOutcome(events, limit, now, out, log, keys[i])],
                LogAfter(events, limit, now, out, s.logs, keys[i]))
  {
    assert keys[..i + 1][..i] == keys[..i];
  }

  // Nothing behind a raising renderer is sent.
  lemma {:induction false} SendsStops(events: map<string, EventRow>, limit: nat, now: Time, out: Outside,
                                      logs: map<string, seq<Time>>, keys: seq<NoteKey>, i: nat)
    requires i < |keys| && |Sends(events, limit, now, out, logs, keys[..i]).outcomes| == i
      && Aborts(events, out, keys[i])
    ensures Sends(events, limit, now, out, logs, keys) == Sends(events, limit, now, out, logs, keys[..i])
  {
    var n := |keys| - 1;
    if i < n {
      assert keys[..n][..i] == keys[..i];
      SendsStops(events, limit, now, out, logs, keys[..n], i);
    } else {
      assert keys[..n] == keys[..i];
    }
  }

  // The pass is whole if and only if no claimed row's renderer raises.
  lemma {:induction false} WholeIff(events: map<string, EventRow>, limit: nat, now: Time, out: Outside,
                                    logs: map<string, seq<Time>>,
                                    keys: seq<NoteKey>)
    ensures |Sends(events, limit, now, out, logs, keys).outcomes| == |keys| <==> Renders(events, out, keys)
  {
    if keys != [] {
      var n := |keys| - 1;
      WholeIff(events, limit, now, out, logs, keys[..n]);
      assert keys == keys[..n] + [keys[n]];
    }
  }

  predicate Renders(events: map<string, EventRow>, out: Outside, keys: seq<NoteKey>) {
    forall i :: 0 <= i < |keys| ==> !Aborts(events, out, keys[i])
  }

  // It handles a claimed row if and only if neither its renderer nor that of a row
  // before it raises.
  lemma {:induction false} HandledIff(events: map<string, EventRow>, limit: nat, now: Time, out: Outside,
                                      logs: map<string, seq<Time>>, keys: seq<NoteKey>, j: nat)
    requires j < |keys|
    ensures j < |Sends(events, limit, now, out, logs, keys).outcomes| <==> Renders(events, out, keys[..j + 1])
  {
    var n := |keys| - 1;
    if j < n {
      HandledIff(events, limit, now, out, logs, keys[..n], j);
      assert keys[..n][..j + 1] == keys[..j + 1];
    } else {
      WholeIff(events, limit, now, out, logs, keys);
      assert keys[..j + 1] == keys;
    }
  }

  // It gets no further than its first raising row.
  lemma {:induction false} StopsByThen(events: map<string, EventRow>, limit: nat, now: Time, out: Outside,
                                       logs: map<string, seq<Time>>,
                                       keys: seq<NoteKey>, j: nat)
    requires j < |keys| && Aborts(events, out, keys[j])
    ensures |Sends(events, limit, now, out, logs, keys).outcomes| <= j
  {
    var n := |keys| - 1;
    if j < n { StopsByThen(events, limit, now, out, logs, keys[..n], j); }
  }

  // The limiter really bounds what is sent: a pass calls the adapter for a
  // channel exactly as often as the channel's log grows.
  function CallsOn(keys: seq<NoteKey>, outcomes: seq<Q.Outcome>, channel: string): nat
    requires |outcomes| <= |keys|
  {
    if outcomes == [] then 0
    else
      var n := |outcomes| - 1;
      CallsOn(keys, outcomes[..n], channel) +
        (if keys[n].channel == channel && outcomes[n] in {Q.Done, Q.Raised} then 1 else 0)
  }

  lemma {:induction false} CallsPrefix(keys: seq<NoteKey>, more: seq<NoteKey>, outcomes: seq<Q.Outcome>,
                                       channel: string)
    requires |outcomes| <= |keys|
    ensures CallsOn(keys + more, outcomes, channel) == CallsOn(keys, outcomes, channel)
  {
    if outcomes != [] { CallsPrefix(keys, more, outcomes[..|outcomes| - 1], channel); }
  }

  lemma CallsAppend(keys: seq<NoteKey>, outcomes: seq<Q.Outcome>, o: Q.Outcome, channel: string)
    requires |outcomes| < |keys|
    ensures CallsOn(keys, outcomes + [o], channel) ==
      CallsOn(keys, outcomes, channel) +
        (if keys[|outcomes|].channel == channel && o in {Q.Done, Q.Raised} then 1 else 0)
  {
  }

  lemma OneCallIsLogged(events: map<string, EventRow>, limit: nat, now: Time, out: Outside,
                        logs: map<string, seq<Time>>, key: NoteKey, channel: string)
    ensures var o := SendOutcome(events, limit, now, out, Limits.LogOf(logs, key.channel), key);
      |Limits.LogOf(LogAfter(events, limit, now, out, logs, key), channel)| ==
      |Limits.LogOf(logs, channel)| + (if key.channel == channel && o in {Q.Done, Q.Raised} then 1 else 0)
  {
  }

  lemma {:induction false} EveryCallIsLogged(events: map<string, EventRow>, limit: nat, now: Time, out: Outside,
                                             logs: map<string, seq<Time>>,
                                             keys: seq<NoteKey>, channel: string)
    ensures var s := Sends(events, limit, now, out, logs, keys);
      |Limits.LogOf(s.logs, channel)| == |Limits.LogOf(logs, channel)| + CallsOn(keys, s.outcomes, channel)
  {
    if keys != [] {
      var n := |keys| - 1;
      var before := Sends(events, limit, now, out, logs, keys[..n]);
      EveryCallIsLogged(events, limit, now, out, logs, keys[..n], channel);
      assert keys == keys[..n] + [keys[n]];
      CallsPrefix(keys[..n], [keys[n]], before.outcomes, channel);
      if |before.outcomes| == n && !Aborts(events, out, keys[n]) {
        OneCallIsLogged(events, limit, now, out, before.logs, keys[n], channel);
        CallsAppend(keys, before.outcomes,
          SendOutcome(events, limit, now, out, Limits.LogOf(before.logs, keys[n].channel), keys[n]), channel);
      }
    }
  }

  // ---- What a pass does to its rows ------------------------------------------

  // The sends of the last minute.
  function Recent(log: seq<Time>, now: Time): nat { |Limits.Entries(log, now - 60_000_000, now)| }

  // What a pass does to one row: a row without a message is dead, one over the
  // rate waits a minute, one sent is finished, and one refused fails or is dead.
  predicate RowTreated(policy: Q.Policy, now: Time, was: Note, row: Note, message: bool, full: bool, accepted: bool) {
    if !message then row.status == Q.Dead && row.attempts == was.attempts + 1 && row.due == was.due
    else if full then row.status == was.status && row.attempts == was.attempts && row.due == now + 60_000_000
    else if accepted then row.status == Q.Finished && row.attempts == was.attempts + 1 && row.due == was.due
    else
      && row.attempts == was.attempts + 1
      && if was.attempts + 1 >= policy.maxAttempts then row.status == Q.Dead && row.due == was.due
         else row.status == Q.Failed && row.due == now + Q.Backoff(policy.backoffBase, was.attempts)
  }

  // The log of one channel grows by a send, no other changes.
  ghost predicate Logged(log: map<string, seq<Time>>, next: map<string, seq<Time>>, channel: string, sends: bool,
                         now: Time)
  {
    forall c :: Limits.LogOf(next, c) == Limits.LogOf(log, c) + if c == channel && sends then [now] else []
  }

  // What a pass does to row `j` of its claim. `trace` is the limiter's log before
  // each handled row and at the end; a send is logged when it is made.
  ghost predicate TreatedAt(events: map<string, EventRow>, limit: nat, policy: Q.Policy, now: Time, out: Outside,
                            keys: seq<NoteKey>, was: Note, row: Note, trace: seq<map<string, seq<Time>>>, j: nat)
    requires j < |keys| && j + 1 < |trace|
  {
    var message := keys[j] in out.special || keys[j].eventKey in events;
    var full := Recent(Limits.LogOf(trace[j], keys[j].channel), now) >= limit;
    && !(message && keys[j] in out.breaks)
    && RowTreated(policy, now, was, row, message, full, keys[j] in out.accepts)
    && Logged(trace[j], trace[j + 1], keys[j].channel, message && !full, now)
  }

  // A pass over the claim `keys`, up to the first row whose renderer raises.
  ghost predicate Treats(events: map<string, EventRow>, limit: nat, policy: Q.Policy, now: Time, out: Outside,
                         keys: seq<NoteKey>, rows: map<NoteKey, Note>, after: map<NoteKey, Note>,
                         trace: seq<map<string, seq<Time>>>)
    requires forall k :: k in keys ==> k in rows
  {
    && 0 < |trace| <= |keys| + 1 && after.Keys == rows.Keys
    && Spares(rows, after, keys[..|trace| - 1])
    && (|trace| <= |keys| ==>
          && (keys[|trace| - 1] in out.special || keys[|trace| - 1].eventKey in events)
          && keys[|trace| - 1] in out.breaks)
    && AllTreated(events, limit, policy, now, out, keys, rows, after, trace)
  }

  predicate Spares(rows: map<NoteKey, Note>, after: map<NoteKey, Note>, keys: seq<NoteKey>)
    requires after.Keys == rows.Keys
  {
    forall k :: k in rows && k !in keys ==> after[k] == rows[k]
  }

  ghost predicate AllTreated(events: map<string, EventRow>, limit: nat, policy: Q.Policy, now: Time, out: Outside,
                             keys: seq<NoteKey>, rows: map<NoteKey, Note>, after: map<NoteKey, Note>,
                             trace: seq<map<string, seq<Time>>>)
    requires 0 < |trace| <= |keys| + 1 && after.Keys == rows.Keys && forall k :: k in keys ==> k in rows
  {
    forall j :: 0 <= j < |trace| - 1 ==>
      TreatedAt(events, limit, policy, now, out, keys, rows[keys[j]], after[keys[j]], trace, j)
  }

  function LogsAt(events: map<string, EventRow>, limit: nat, now: Time, out: Outside, logs: map<string, seq<Time>>,
                  keys: seq<NoteKey>, j: nat): map<string, seq<Time>>
    requires j <= |keys|
  {
    Sends(events, limit, now, out, logs, keys[..j]).logs
  }

  // The outcome of row `j`, and what its attempt leaves of the log.
  lemma {:induction false} OutcomeAt(events: map<string, EventRow>, limit: nat, now: Time, out: Outside,
                                     logs: map<string, seq<Time>>, keys: seq<NoteKey>, j: nat)
    requires j < |Sends(events, limit, now, out, logs, keys).outcomes|
    ensures var log := LogsAt(events, limit, now, out, logs, keys, j);
      && !Aborts(events, out, keys[j])
      && Sends(events, limit, now, out, logs, keys).outcomes[j] ==
         SendOutcome(events, limit, now, out, Limits.LogOf(log, keys[j].channel), keys[j])
      && LogsAt(events, limit, now, out, logs, keys, j + 1) == LogAfter(events, limit, now, out, log, keys[j])
  {
    var n := |keys| - 1;
    assert keys[..n + 1] == keys;
    if j < n {
      OutcomeAt(events, limit, now, out, logs, keys[..n], j);
      assert keys[..n][..j] == keys[..j] && keys[..n][..j + 1] == keys[..j + 1];
    }
  }

  lemma {:induction false} LogsAtEnd(events: map<string, EventRow>, limit: nat, now: Time, out: Outside,
                                     logs: map<string, seq<Time>>, keys: seq<NoteKey>)
    ensures var s := Sends(events, limit, now, out, logs, keys);
      && s.logs == LogsAt(events, limit, now, out, logs, keys, |s.outcomes|)
      && (|s.outcomes| < |keys| ==> Aborts(events, out, keys[|s.outcomes|]))
  {
    if keys != [] {
      var n := |keys| - 1;
      LogsAtEnd(events, limit, now, out, logs, keys[..n]);
      var m := |Sends(events, limit, now, out, logs, keys[..n]).outcomes|;
      assert keys[..n][..m] == keys[..m] && keys[..n + 1] == keys;
    } else {
      assert keys[..0] == keys;
    }
  }

  lemma OutcomeTreats(events: map<string, EventRow>, limit: nat, policy: Q.Policy, now: Time, out: Outside,
                      log: seq<Time>, key: NoteKey, was: Note)
    requires policy.table == Q.Notifications
    ensures RowTreated(policy, now, was, Q.Settle(policy, was, SendOutcome(events, limit, now, out, log, key), now),
                       HasMessage(events, out, key), Recent(log, now) >= limit, key in out.accepts)
  {
    Limits.WithinCounts(log, now - 60_000_000, now);
  }

  lemma AttemptLogs(events: map<string, EventRow>, limit: nat, now: Time, out: Outside, logs: map<string, seq<Time>>,
                    key: NoteKey)
    ensures Logged(logs, LogAfter(events, limit, now, out, logs, key), key.channel,
      HasMessage(events, out, key) && Recent(Limits.LogOf(logs, key.channel), now) < limit, now)
  {
    Limits.WithinCounts(Limits.LogOf(logs, key.channel), now - 60_000_000, now);
  }

  lemma RowIsTreated(events: map<string, EventRow>, limit: nat, policy: Q.Policy, now: Time, out: Outside,
                     logs: map<string, seq<Time>>, keys: seq<NoteKey>, was: Note, trace: seq<map<string, seq<Time>>>,
                     j: nat)
    requires policy.table == Q.Notifications && j < |Sends(events, limit, now, out, logs, keys).outcomes|
    requires j + 1 < |trace| && trace[j] == LogsAt(events, limit, now, out, logs, keys, j)
    requires trace[j + 1] == LogsAt(events, limit, now, out, logs, keys, j + 1)
    ensures TreatedAt(events, limit, policy, now, out, keys, was,
      Q.Settle(policy, was, Sends(events, limit, now, out, logs, keys).outcomes[j], now), trace, j)
  {
    OutcomeAt(events, limit, now, out, logs, keys, j);
    OutcomeTreats(events, limit, policy, now, out, Limits.LogOf(trace[j], keys[j].channel), keys[j], was);
    AttemptLogs(events, limit, now, out, trace[j], keys[j]);
  }

  ghost predicate IsTrace(events: map<string, EventRow>, limit: nat, now: Time, out: Outside,
                          logs: map<string, seq<Time>>, keys: seq<NoteKey>, trace: seq<map<string, seq<Time>>>)
  {
    && |trace| == |Sends(events, limit, now, out, logs, keys).outcomes| + 1
    && forall j :: 0 <= j < |trace| ==> trace[j] == LogsAt(events, limit, now, out, logs, keys, j)
  }

  lemma RowsAreTreated(events: map<string, EventRow>, limit: nat, policy: Q.Policy, now: Time, out: Outside,
                       logs: map<string, seq<Time>>, keys: seq<NoteKey>, rows: map<NoteKey, Note>,
                       after: map<NoteKey, Note>, trace: seq<map<string, seq<Time>>>)
    requires policy.table == Q.Notifications && (forall k :: k in keys ==> k in rows) && after.Keys == rows.Keys
    requires IsTrace(events, limit, now, out, logs, keys, trace)
    requires var outcomes := Sends(events, limit, now, out, logs, keys).outcomes;
      forall j :: 0 <= j < |outcomes| ==> after[keys[j]] == Q.Settle(policy, rows[keys[j]], outcomes[j], now)
    ensures AllTreated(events, limit, policy, now, out, keys, rows, after, trace)
  {
    forall j | 0 <= j < |trace| - 1
      ensures TreatedAt(events, limit, policy, now, out, keys, rows[keys[j]], after[keys[j]], trace, j)
    {
      RowIsTreated(events, limit, policy, now, out, logs, keys, rows[keys[j]], trace, j);
    }
  }

  lemma TraceOf(events: map<string, EventRow>, limit: nat, now: Time, out: Outside, logs: map<string, seq<Time>>,
                keys: seq<NoteKey>)
    returns (trace: seq<map<string, seq<Time>>>)
    ensures IsTrace(events, limit, now, out, logs, keys, trace)
    ensures trace[0] == logs && trace[|trace| - 1] == Sends(events, limit, now, out, logs, keys).logs
    ensures |trace| <= |keys| ==> Aborts(events, out, keys[|trace| - 1])
  {
    var n := |Sends(events, limit, now, out, logs, keys).outcomes|;
    trace := seq(n + 1, j requires 0 <= j <= n => LogsAt(events, limit, now, out, logs, keys, j));
    LogsAtEnd(events, limit, now, out, logs, keys);
    assert keys[..0] == [];
  }

  lemma SendsTreat(events: map<string, EventRow>, limit: nat, policy: Q.Policy, now: Time, out: Outside,
                   logs: map<string, seq<Time>>, keys: seq<NoteKey>, rows: map<NoteKey, Note>,
                   after: map<NoteKey, Note>)
    returns (trace: seq<map<string, seq<Time>>>)
    requires policy.table == Q.Notifications && Q.Distinct(keys) && forall k :: k in keys ==> k in rows
    requires after == Q.Pass(policy, rows, keys, Sends(events, limit, now, out, logs, keys).outcomes, now)
    ensures Treats(events, limit, policy, now, out, keys, rows, after, trace)
    ensures trace[0] == logs && trace[|trace| - 1] == Sends(events, limit, now, out, logs, keys).logs
  {
    trace := TraceOf(events, limit, now, out, logs, keys);
    Q.PassEffect(policy, rows, keys, Sends(events, limit, now, out, logs, keys).outcomes, now);
    RowsAreTreated(events, limit, policy, now, out, logs, keys, rows, after, trace);
  }

  // What the ledger records of one row's outcome.
  method Record(store: Store, policy: Q.Policy, now: Time, key: NoteKey, attempts: nat, outcome: Q.Outcome)
    requires policy.table == Q.Notifications && key in store.ledger && store.ledger[key].attempts == attempts
    requires outcome in {Q.Missing, Q.Deferred, Q.Raised, Q.Done}
    modifies store`ledger
    ensures store.ledger == old(store.ledger)[key := Q.Settle(policy, old(store.ledger)[key], outcome, now)]
  {
    if outcome == Q.Missing {
      store.NotificationDead(key);
    } else if outcome == Q.Deferred {
      store.NotificationDefer(key, now + Q.DEFERRAL);
    } else if outcome == Q.Done {
      store.NotificationSent(key);
    } else if attempts + 1 >= policy.maxAttempts {
      store.NotificationDead(key);
    } else {
      store.NotificationRetry(key, now + Q.Backoff(policy.backoffBase, attempts));
    }
  }

  // Without a message the limiter is not asked, and over the limit the adapter
  // is not called.
  method Attempt(events: map<string, EventRow>, limiter: Limits.RateLimiter, now: Time, out: Outside, key: NoteKey)
    returns (outcome: Q.Outcome)
    requires limiter.Valid() && limiter.latest <= now
    modifies limiter
    ensures limiter.log == LogAfter(events, limiter.limit, now, out, old(limiter.log), key)
    ensures outcome == SendOutcome(events, limiter.limit, now, out, Limits.LogOf(old(limiter.log), key.channel), key)
    ensures outcome ==
      if key !in out.special && key.eventKey !in events then Q.Missing
      else if Recent(Limits.LogOf(old(limiter.log), key.channel), now) >= limiter.limit then Q.Deferred
      else if key in out.accepts then Q.Done else Q.Raised
    ensures limiter.latest <= now && limiter.Valid()
  {
    Limits.WithinCounts(Limits.LogOf(limiter.log, key.channel), now - 60_000_000, now);
    if !HasMessage(events, out, key) { return Q.Missing; }
    var ok := limiter.Allow(key.channel, now);
    if !ok { return Q.Deferred; }
    outcome := if key in out.accepts then Q.Done else Q.Raised;
  }

  lemma {:induction false} SendsRecorded(events: map<string, EventRow>, limit: nat, now: Time, out: Outside,
                                         logs: map<string, seq<Time>>, keys: seq<NoteKey>)
    ensures Q.Recorded(Sends(events, limit, now, out, logs, keys).outcomes)
  {
    if keys != [] { SendsRecorded(events, limit, now, out, logs, keys[..|keys| - 1]); }
  }

  lemma SendPassDrains(policy: Q.Policy, rows: map<NoteKey, Note>, keys: seq<NoteKey>, outcomes: seq<Q.Outcome>,
                       now: Time, limit: nat)
    requires policy.backoffBase > 0 && Q.IsClaim(keys, rows, now, limit) && |outcomes| == |keys| && Q.Recorded(outcomes)
    ensures |Q.DueSet(Q.Pass(policy, rows, keys, outcomes, now), now)| == Max(0, |Q.DueSet(rows, now)| - limit)
  {
    Q.WholePassDrains(policy, rows, Q.PassPlan(keys, outcomes), now, limit);
  }

  lemma DeferralDrains(policy: Q.Policy, rows: map<NoteKey, Note>, keys: seq<NoteKey>, now: Time, limit: nat)
    requires policy.backoffBase > 0 && Q.IsClaim(keys, rows, now, limit)
    ensures var outcomes := Silence.Outcomes(true, seq(|keys|, _ => Q.Done));
      |Q.DueSet(Q.Pass(policy, rows, keys, outcomes, now), now)| == Max(0, |Q.DueSet(rows, now)| - limit)
  {
    SendPassDrains(policy, rows, keys, Silence.Outcomes(true, seq(|keys|, _ => Q.Done)), now, limit);
  }

  lemma NothingClaimed(policy: Q.Policy, rows: map<NoteKey, Note>, now: Time, limit: nat)
    requires Q.IsClaim([], rows, now, limit)
    ensures |Q.DueSet(rows, now)| == Max(0, |Q.DueSet(rows, now)| - limit)
    ensures AllDeferred(rows, rows, [], now)
    ensures Q.Pass(policy, rows, [], Silence.Outcomes(true, seq(0, _ => Q.Done)), now) == rows
  {
    assert Silence.Outcomes(true, seq(0, _ => Q.Done)) == [];
  }

  lemma NothingTreated(events: map<string, EventRow>, limit: nat, policy: Q.Policy, now: Time, out: Outside,
                       logs: map<string, seq<Time>>, rows: map<NoteKey, Note>)
    ensures Treats(events, limit, policy, now, out, [], rows, rows, [logs])
    ensures var s := Sends(events, limit, now, out, logs, []);
      s.logs == logs && s.outcomes == [] && Q.Pass(policy, rows, [], s.outcomes, now) == rows
  {
  }

  // A pass over the due rows: with the switch engaged it defers them all;
  // otherwise each gets the outcome `Sends` gives it, and everything behind a
  // raising renderer is left as it was.
  method SendDueOnce(store: Store, limiter: Limits.RateLimiter, kill: KillSwitch, policy: Q.Policy, limit: nat,
                     now: Time, out: Outside)
    returns (sent: nat, raised: bool, ghost claim: seq<NoteKey>, ghost trace: seq<map<string, seq<Time>>>)
    requires kill.store == store && policy.table == Q.Notifications && limiter.Valid() && limiter.latest <= now
    modifies store`ledger, limiter
    ensures limiter.Valid() && limiter.latest <= now
    ensures Q.IsClaim(claim, old(store.ledger), now, limit)
    ensures Silence.Engaged(kill.envOverride, store.audit) ==>
      AllDeferred(old(store.ledger), store.ledger, claim, now)
    ensures !Silence.Engaged(kill.envOverride, store.audit) ==>
      && Treats(store.events, limiter.limit, policy, now, out, claim, old(store.ledger), store.ledger, trace)
      && trace[0] == old(limiter.log) && trace[|trace| - 1] == limiter.log
    ensures Silence.Engaged(kill.envOverride, store.audit) ==>
      && sent == 0 && !raised && limiter.log == old(limiter.log)
      && store.ledger == Q.Pass(policy, old(store.ledger), claim,
         Silence.Outcomes(true, seq(|claim|, _ => Q.Done)), now)
    ensures !Silence.Engaged(kill.envOverride, store.audit) ==>
      var s := Sends(store.events, limiter.limit, now, out, old(limiter.log), claim);
      && sent == Q.Count(s.outcomes, {Q.Done}) && raised == !Renders(store.events, out, claim) && limiter.log == s.logs
      && store.ledger == Q.Pass(policy, old(store.ledger), claim, s.outcomes, now)
    ensures policy.backoffBase > 0 ==>
      Silence.Engaged(kill.envOverride, store.audit) || Renders(store.events, out, claim) ==>
      |Q.DueSet(store.ledger, now)| == Max(0, |Q.DueSet(old(store.ledger), now)| - limit)
  {
    sent, raised, trace := 0, false, [limiter.log];
    var keys := store.ClaimNotificationsDue(limit, now);
    claim := keys;
    if keys == [] {
      NothingClaimed(policy, store.ledger, now, limit);
      NothingTreated(store.events, limiter.limit, policy, now, out, limiter.log, store.ledger);
      return;
    }
    var engaged := kill.Engaged();
    if engaged {
      HoldBack(store, policy, keys, now, limit);
    } else {
      sent, raised, trace := SendOpen(store, limiter, policy, keys, now, out, limit);
    }
  }

  // The pass with the switch engaged.
  method HoldBack(store: Store, policy: Q.Policy, keys: seq<NoteKey>, now: Time, ghost limit: nat)
    requires Q.IsClaim(keys, store.ledger, now, limit)
    modifies store`ledger
    ensures AllDeferred(old(store.ledger), store.ledger, keys, now)
    ensures store.ledger == Q.Pass(policy, old(store.ledger), keys,
                                   Silence.Outcomes(true, seq(|keys|, _ => Q.Done)), now)
    ensures policy.backoffBase > 0 ==>
      |Q.DueSet(store.ledger, now)| == Max(0, |Q.DueSet(old(store.ledger), now)| - limit)
  {
    ghost var rows := store.ledger;
    DeferAll(store, policy, keys, now);
    if policy.backoffBase > 0 { DeferralDrains(policy, rows, keys, now, limit); }
  }

  // The pass with the switch off.
  method SendOpen(store: Store, limiter: Limits.RateLimiter, policy: Q.Policy, keys: seq<NoteKey>, now: Time,
                  out: Outside, ghost limit: nat)
    returns (sent: nat, raised: bool, ghost trace: seq<map<string, seq<Time>>>)
    requires policy.table == Q.Notifications && limiter.Valid() && limiter.latest <= now
    requires Q.IsClaim(keys, store.ledger, now, limit)
    modifies store`ledger, limiter
    ensures limiter.latest <= now && limiter.Valid()
    ensures Treats(store.events, limiter.limit, policy, now, out, keys, old(store.ledger), store.ledger, trace)
    ensures trace[0] == old(limiter.log) && trace[|trace| - 1] == limiter.log
    ensures var s := Sends(store.events, limiter.limit, now, out, old(limiter.log), keys);
      && sent == Q.Count(s.outcomes, {Q.Done}) && raised == !Renders(store.events, out, keys) && limiter.log == s.logs
      && store.ledger == Q.Pass(policy, old(store.ledger), keys, s.outcomes, now)
    ensures policy.backoffBase > 0 && Renders(store.events, out, keys) ==>
      |Q.DueSet(store.ledger, now)| == Max(0, |Q.DueSet(old(store.ledger), now)| - limit)
  {
    ghost var logs, rows := limiter.log, store.ledger;
    sent, raised := SendClaimed(store, limiter, policy, keys, now, out);
    trace := SendsTreat(store.events, limiter.limit, policy, now, out, logs, keys, rows, store.ledger);
    WholeIff(store.events, limiter.limit, now, out, logs, keys);
    if policy.backoffBase > 0 && !raised {
      SendsRecorded(store.events, limiter.limit, now, out, logs, keys);
      SendPassDrains(policy, rows, keys, Sends(store.events, limiter.limit, now, out, logs, keys).outcomes, now, limit);
    }
  }

  // The first `n` claimed rows.
  function SendsFirst(events: map<string, EventRow>, limit: nat, now: Time, out: Outside, logs: map<string, seq<Time>>,
                      keys: seq<NoteKey>, n: nat): Sending
    requires n <= |keys|
  {
    Sends(events, limit, now, out, logs, keys[..n])
  }

  lemma SendsEnds(events: map<string, EventRow>, limit: nat, now: Time, out: Outside, logs: map<string, seq<Time>>,
                  keys: seq<NoteKey>)
    ensures SendsFirst(events, limit, now, out, logs, keys, 0) == Sending([], logs)
    ensures SendsFirst(events, limit, now, out, logs, keys, |keys|) == Sends(events, limit, now, out, logs, keys)
  {
    assert keys[..|keys|] == keys;
  }

  lemma SendsStopped(events: map<string, EventRow>, limit: nat, now: Time, out: Outside, logs: map<string, seq<Time>>,
                     keys: seq<NoteKey>, i: nat, s: Sending)
    requires i < |keys| && s == SendsFirst(events, limit, now, out, logs, keys, i) && |s.outcomes| == i
    requires Aborts(events, out, keys[i])
    ensures s == Sends(events, limit, now, out, logs, keys)
  {
    SendsStops(events, limit, now, out, logs, keys, i);
  }

  method AttemptNext(events: map<string, EventRow>, limiter: Limits.RateLimiter, keys: seq<NoteKey>, i: nat, now: Time,
                     out: Outside, ghost logs: map<string, seq<Time>>, ghost s: Sending)
    returns (outcome: Q.Outcome, ghost more: Sending)
    requires limiter.Valid() && limiter.latest <= now && i < |keys| && !Aborts(events, out, keys[i])
    requires s == SendsFirst(events, limiter.limit, now, out, logs, keys, i) && |s.outcomes| == i
      && limiter.log == s.logs
    modifies limiter
    ensures limiter.latest <= now && limiter.Valid()
    ensures more == SendsFirst(events, limiter.limit, now, out, logs, keys, i + 1)
    ensures more == Sending(s.outcomes + [outcome], limiter.log)
    ensures outcome in {Q.Missing, Q.Deferred, Q.Raised, Q.Done}
  {
    SendsStep(events, limiter.limit, now, out, logs, keys, i);
    outcome := Attempt(events, limiter, now, out, keys[i]);
    more := Sending(s.outcomes + [outcome], limiter.log);
  }

  // Row `i` of a claim whose first `i` rows are handled, unless its renderer raises.
  method SendNext(store: Store, limiter: Limits.RateLimiter, policy: Q.Policy, keys: seq<NoteKey>, i: nat,
                  claimed: map<NoteKey, Note>, now: Time, out: Outside, ghost logs: map<string, seq<Time>>,
                  ghost s: Sending)
    returns (outcome: Q.Outcome, ghost more: Sending)
    requires policy.table == Q.Notifications && limiter.Valid() && limiter.latest <= now
    requires Q.Distinct(keys) && (forall k :: k in keys ==> k in claimed) && i < |keys|
      && !Aborts(store.events, out, keys[i])
    requires s == SendsFirst(store.events, limiter.limit, now, out, logs, keys, i) && |s.outcomes| == i
      && limiter.log == s.logs
    requires store.ledger == Q.Pass(policy, claimed, keys, s.outcomes, now)
    modifies store`ledger, limiter
    ensures limiter.latest <= now && limiter.Valid()
    ensures more == SendsFirst(store.events, limiter.limit, now, out, logs, keys, i + 1)
    ensures |more.outcomes| == i + 1 && limiter.log == more.logs
    ensures Q.Count(more.outcomes, {Q.Done}) == Q.Count(s.outcomes, {Q.Done}) + (if outcome == Q.Done then 1 else 0)
    ensures store.ledger == Q.Pass(policy, claimed, keys, more.outcomes, now)
  {
    NotYetHandled(policy, claimed, keys, s.outcomes, now);
    outcome, more := AttemptNext(store.events, limiter, keys, i, now, out, logs, s);
    Record(store, policy, now, keys[i], claimed[keys[i]].attempts, outcome);
    PassStep(policy, claimed, keys, s.outcomes, outcome, now);
    Q.CountAppend(s.outcomes, outcome, {Q.Done});
  }

  method SendClaimed(store: Store, limiter: Limits.RateLimiter, policy: Q.Policy, keys: seq<NoteKey>, now: Time,
                     out: Outside)
    returns (sent: nat, raised: bool)
    requires policy.table == Q.Notifications && limiter.Valid() && limiter.latest <= now
    requires Q.Distinct(keys) && forall k :: k in keys ==> k in store.ledger
    modifies store`ledger, limiter
    ensures var s := Sends(store.events, limiter.limit, now, out, old(limiter.log), keys);
      && sent == Q.Count(s.outcomes, {Q.Done}) && raised == (|s.outcomes| < |keys|) && limiter.log == s.logs
      && store.ledger == Q.Pass(policy, old(store.ledger), keys, s.outcomes, now)
    ensures limiter.latest <= now && limiter.Valid()
  {
    sent, raised := 0, false;
    var claimed := store.ledger;
    ghost var logs, events := limiter.log, store.events;
    ghost var s := Sending([], logs);
    SendsEnds(events, limiter.limit, now, out, logs, keys);
    var i := 0;
    while i < |keys|
      modifies store`ledger, limiter
      invariant 0 <= i <= |keys| && s == SendsFirst(events, limiter.limit, now, out, logs, keys, i) && |s.outcomes| == i
      invariant limiter.log == s.logs && sent == Q.Count(s.outcomes, {Q.Done})
      invariant store.ledger == Q.Pass(policy, claimed, keys, s.outcomes, now)
      invariant limiter.latest <= now && limiter.Valid()
    {
      if Aborts(store.events, out, keys[i]) {
        SendsStopped(events, limiter.limit, now, out, logs, keys, i, s);
        raised := true;
        return;
      }
      var outcome;
      outcome, s := SendNext(store, limiter, policy, keys, i, claimed, now, out, logs, s);
      if outcome == Q.Done { sent := sent + 1; }
      i := i + 1;
    }
  }

  lemma PassStep<K, P>(policy: Q.Policy, rows: map<K, Q.Row<P>>, keys: seq<K>, outcomes: seq<Q.Outcome>, o: Q.Outcome,
                       now: Time)
    requires |outcomes| < |keys| && keys[|outcomes|] in Q.Pass(policy, rows, keys, outcomes, now)
    ensures var before, key := Q.Pass(policy, rows, keys, outcomes, now), keys[|outcomes|];
      Q.Pass(policy, rows, keys, outcomes + [o], now) == before[key := Q.Settle(policy, before[key], o, now)]
  {
  }

  lemma NotYetHandled<K, P>(policy: Q.Policy, rows: map<K, Q.Row<P>>, keys: seq<K>, outcomes: seq<Q.Outcome>, now: Time)
    requires Q.Distinct(keys) && |outcomes| < |keys| && keys[|outcomes|] in rows
    ensures var before, key := Q.Pass(policy, rows, keys, outcomes, now), keys[|outcomes|];
      key in before && before[key] == rows[key]
  {
    Q.PassEffect(policy, rows, keys, outcomes, now);
  }

  predicate AllDeferred(rows: map<NoteKey, Note>, after: map<NoteKey, Note>, keys: seq<NoteKey>, now: Time) {
    && after.Keys == rows.Keys
    && forall k :: k in rows ==> after[k] == if k in keys then rows[k].(due := now + 60_000_000) else rows[k]
  }

  method DeferAll(store: Store, policy: Q.Policy, keys: seq<NoteKey>, now: Time)
    requires Q.Distinct(keys) && forall k :: k in keys ==> k in store.ledger
    modifies store`ledger
    ensures store.ledger ==
      Q.Pass(policy, old(store.ledger), keys, Silence.Outcomes(true, seq(|keys|, _ => Q.Done)), now)
    ensures AllDeferred(old(store.ledger), store.ledger, keys, now)
  {
    ghost var was := store.ledger;
    ghost var outcomes: seq<Q.Outcome> := [];
    var i := 0;
    while i < |keys|
      modifies store`ledger
      invariant 0 <= i <= |keys| && |outcomes| == i
      invariant forall j :: 0 <= j < i ==> outcomes[j] == Q.Deferred
      invariant store.ledger == Q.Pass(policy, was, keys, outcomes, now)
    {
      assert keys[i] in keys;
      NotYetHandled(policy, was, keys, outcomes, now);
      PassStep(policy, was, keys, outcomes, Q.Deferred, now);
      store.NotificationDefer(keys[i], now + Q.DEFERRAL);
      outcomes := outcomes + [Q.Deferred];
      i := i + 1;
    }
    assert outcomes == Silence.Outcomes(true, seq(|keys|, _ => Q.Done));
    Q.PassEffect(policy, was, keys, outcomes, now);
    assert keys[..|outcomes|] == keys;
  }

  // ---- Starvation ------------------------------------------------------------

  // One pass over the ledger with the switch off.
  datatype Turn =
    | Pass(events: map<string, EventRow>, limit: nat, now: Time, out: Outside, logs: map<string, seq<Time>>,
      keys: seq<NoteKey>, most: nat)
    | Arrives(key: NoteKey, at: Time)

  function After(policy: Q.Policy, rows: map<NoteKey, Note>, t: Turn): map<NoteKey, Note> {
    match t
    case Pass(events, limit, now, out, logs, keys, _) =>
      Q.Pass(policy, rows, keys, Sends(events, limit, now, out, logs, keys).outcomes, now)
    case Arrives(key, at) => Q.Enqueue(rows, key, (), at)
  }

  function AfterAll(policy: Q.Policy, rows: map<NoteKey, Note>, turns: seq<Turn>): map<NoteKey, Note> {
    if turns == [] then rows else After(policy, AfterAll(policy, rows, turns[..|turns| - 1]), turns[|turns| - 1])
  }

  // Rows arrive, and passes claim what is due, whenever they run; the renderer of
  // `bad` keeps raising.
  ghost predicate Blocked(policy: Q.Policy, rows: map<NoteKey, Note>, turns: seq<Turn>, bad: NoteKey) {
    turns != [] ==>
      var n := |turns| - 1;
      && Blocked(policy, rows, turns[..n], bad)
      && (turns[n].Pass? ==>
            && Q.IsClaim(turns[n].keys, AfterAll(policy, rows, turns[..n]), turns[n].now, turns[n].most)
            && Aborts(turns[n].events, turns[n].out, bad))
  }

  // At or behind the row `bad` in due order.
  predicate NotBefore(rows: map<NoteKey, Note>, bad: NoteKey, key: NoteKey) {
    bad in rows && key in rows && (key == bad || rows[bad].due < rows[key].due)
  }

  // In a claim, `bad` comes before every row due later.
  lemma ClaimedBefore(rows: map<NoteKey, Note>, keys: seq<NoteKey>, now: Time, most: nat, bad: NoteKey, i: nat)
    returns (j: nat)
    requires Q.IsClaim(keys, rows, now, most) && i < |keys| && NotBefore(rows, bad, keys[i]) && Q.Live(rows[bad])
    ensures j <= i && keys[j] == bad
  {
    assert Q.Due(rows[keys[i]], now) && Q.Due(rows[bad], now);
    j :| 0 <= j < |keys| && keys[j] == bad;
  }

  // One pass leaves the row whose renderer raises, and every row due after it, as
  // they are.
  lemma PassSkips(policy: Q.Policy, rows: map<NoteKey, Note>, t: Turn, bad: NoteKey, key: NoteKey)
    requires t.Pass? && Q.IsClaim(t.keys, rows, t.now, t.most) && Aborts(t.events, t.out, bad)
    requires NotBefore(rows, bad, key) && Q.Live(rows[bad])
    ensures key in After(policy, rows, t) && After(policy, rows, t)[key] == rows[key]
  {
    var outcomes := Sends(t.events, t.limit, t.now, t.out, t.logs, t.keys).outcomes;
    Q.PassEffect(policy, rows, t.keys, outcomes, t.now);
    if key in t.keys[..|outcomes|] {
      var i :| 0 <= i < |outcomes| && t.keys[i] == key;
      var j := ClaimedBefore(rows, t.keys, t.now, t.most, bad, i);
      StopsByThen(t.events, t.limit, t.now, t.out, t.logs, t.keys, j);
      assert false;
    }
  }

  // Over any passes and arrivals, as long as one live row's renderer raises, that
  // row and every row due after it are never handled.
  lemma {:induction false} OneBadRendererBlocks(policy: Q.Policy, rows: map<NoteKey, Note>, turns: seq<Turn>,
                                                bad: NoteKey, key: NoteKey)
    requires Blocked(policy, rows, turns, bad) && NotBefore(rows, bad, key) && Q.Live(rows[bad])
    ensures var end := AfterAll(policy, rows, turns);
      key in end && end[key] == rows[key] && bad in end && end[bad] == rows[bad]
  {
    if turns != [] {
      var n := |turns| - 1;
      OneBadRendererBlocks(policy, rows, turns[..n], bad, key);
      var before := AfterAll(policy, rows, turns[..n]);
      if turns[n].Pass? {
        PassSkips(policy, before, turns[n], bad, key);
        PassSkips(policy, before, turns[n], bad, bad);
      }
    }
  }

  // The due rows that come before a time.
  function Front(rows: map<NoteKey, Note>, now: Time, due: Time): set<NoteKey> {
    set k | k in rows && Q.Due(rows[k], now) && rows[k].due < due
  }

  // A claim no larger than the front lies within it.
  lemma ClaimInFront(rows: map<NoteKey, Note>, keys: seq<NoteKey>, now: Time, most: nat, due: Time)
    requires Q.IsClaim(keys, rows, now, most) && most <= |Front(rows, now, due)|
    ensures |keys| == most && forall i :: 0 <= i < |keys| ==> keys[i] in Front(rows, now, due)
  {
    var front, claimed := Front(rows, now, due), set k | k in keys;
    Q.DistinctSize(keys);
    Larger(front, Q.DueSet(rows, now));
    forall i | 0 <= i < |keys|
      ensures keys[i] in front
    {
      if keys[i] !in front {
        assert front <= claimed - {keys[i]};
        Larger(front, claimed - {keys[i]});
      }
    }
  }

  // A larger one has all of it.
  lemma FrontInClaim(rows: map<NoteKey, Note>, keys: seq<NoteKey>, now: Time, most: nat, due: Time)
    requires Q.IsClaim(keys, rows, now, most) && |Front(rows, now, due)| < most
    ensures forall k :: k in Front(rows, now, due) ==> k in keys
  {
    var front, claimed := Front(rows, now, due), set k | k in keys;
    Q.DistinctSize(keys);
    forall k | k in front
      ensures k in keys
    {
      if k !in keys {
        assert claimed + {k} <= front && front <= Q.DueSet(rows, now);
        Larger(claimed + {k}, front);
        Larger(front, Q.DueSet(rows, now));
      }
    }
  }

  lemma Larger<T>(a: set<T>, b: set<T>)
    requires a <= b
    ensures |a| <= |b| && |b - a| == |b| - |a|
  {
    assert b == a + (b - a);
  }

  // A front row that is claimed is handled, if no front row's renderer raises.
  lemma RowIsHandled(rows: map<NoteKey, Note>, t: Turn, due: Time, j: nat)
    requires t.Pass? && Q.IsClaim(t.keys, rows, t.now, t.most) && j < |t.keys|
    requires t.keys[j] in Front(rows, t.now, due)
    requires forall k :: k in Front(rows, t.now, due) ==> !Aborts(t.events, t.out, k)
    ensures j < |Sends(t.events, t.limit, t.now, t.out, t.logs, t.keys).outcomes|
  {
    HandledIff(t.events, t.limit, t.now, t.out, t.logs, t.keys, j);
    assert forall i :: 0 <= i < j ==> rows[t.keys[i]].due <= rows[t.keys[j]].due;
  }

  // The rows the pass gets to.
  function Handled(t: Turn): set<NoteKey>
    requires t.Pass?
  {
    set k | k in t.keys[..|Sends(t.events, t.limit, t.now, t.out, t.logs, t.keys).outcomes|]
  }

  lemma FrontAfterPass(policy: Q.Policy, rows: map<NoteKey, Note>, t: Turn, due: Time)
    requires t.Pass? && Q.IsClaim(t.keys, rows, t.now, t.most) && policy.backoffBase > 0
    ensures Front(After(policy, rows, t), t.now, due) == Front(rows, t.now, due) - Handled(t)
  {
    var outcomes := Sends(t.events, t.limit, t.now, t.out, t.logs, t.keys).outcomes;
    SendsRecorded(t.events, t.limit, t.now, t.out, t.logs, t.keys);
    Q.PassEffect(policy, rows, t.keys, outcomes, t.now);
    Q.PassRemovesHandled(policy, rows, t.keys, outcomes, t.now);
    var next := After(policy, rows, t);
    assert forall k :: k in next ==> (Q.Due(next[k], t.now) <==> k in Q.DueSet(next, t.now));
    assert forall k :: k in rows ==> (Q.Due(rows[k], t.now) <==> k in Q.DueSet(rows, t.now));
  }

  lemma LimitIsHandled(rows: map<NoteKey, Note>, t: Turn, due: Time)
    requires t.Pass? && Q.IsClaim(t.keys, rows, t.now, t.most) && t.most <= |Front(rows, t.now, due)|
    requires forall k :: k in Front(rows, t.now, due) ==> !Aborts(t.events, t.out, k)
    ensures Handled(t) <= Front(rows, t.now, due) && |Handled(t)| == t.most
  {
    ClaimInFront(rows, t.keys, t.now, t.most, due);
    WholeIff(t.events, t.limit, t.now, t.out, t.logs, t.keys);
    assert t.keys[..|t.keys|] == t.keys;
    Q.DistinctSize(t.keys);
  }

  lemma FrontIsHandled(rows: map<NoteKey, Note>, t: Turn, due: Time)
    requires t.Pass? && Q.IsClaim(t.keys, rows, t.now, t.most) && |Front(rows, t.now, due)| < t.most
    requires forall k :: k in Front(rows, t.now, due) ==> !Aborts(t.events, t.out, k)
    ensures Front(rows, t.now, due) <= Handled(t)
  {
    FrontInClaim(rows, t.keys, t.now, t.most, due);
    forall k | k in Front(rows, t.now, due)
      ensures k in Handled(t)
    {
      var j :| 0 <= j < |t.keys| && t.keys[j] == k;
      RowIsHandled(rows, t, due, j);
      assert t.keys[..j + 1][j] == k;
    }
  }

  // One pass takes its limit off the front, or all of it.
  lemma FrontShrinks(policy: Q.Policy, rows: map<NoteKey, Note>, t: Turn, due: Time)
    requires t.Pass? && Q.IsClaim(t.keys, rows, t.now, t.most) && policy.backoffBase > 0
    requires forall k :: k in Front(rows, t.now, due) ==> !Aborts(t.events, t.out, k)
    ensures |Front(After(policy, rows, t), t.now, due)| == Max(0, |Front(rows, t.now, due)| - t.most)
  {
    FrontAfterPass(policy, rows, t, due);
    if t.most <= |Front(rows, t.now, due)| {
      LimitIsHandled(rows, t, due);
      Larger(Handled(t), Front(rows, t.now, due));
    } else {
      FrontIsHandled(rows, t, due);
      assert Front(rows, t.now, due) - Handled(t) == {};
    }
  }

  // Passes at one instant that find `bad` raising, and no row due before it.
  ghost predicate FirstRaising(policy: Q.Policy, rows: map<NoteKey, Note>, turns: seq<Turn>, bad: NoteKey, due: Time,
                               now: Time, most: nat)
  {
    turns != [] ==>
      var n := |turns| - 1;
      var before := AfterAll(policy, rows, turns[..n]);
      && FirstRaising(policy, rows, turns[..n], bad, due, now, most)
      && turns[n].Pass? && turns[n].now == now && turns[n].most == most && Q.IsClaim(turns[n].keys, before, now, most)
      && Aborts(turns[n].events, turns[n].out, bad)
      && forall k :: k in Front(before, now, due) ==> !Aborts(turns[n].events, turns[n].out, k)
  }

  lemma {:induction false} RaisingBlocks(policy: Q.Policy, rows: map<NoteKey, Note>, turns: seq<Turn>, bad: NoteKey,
                                         due: Time, now: Time, most: nat)
    requires FirstRaising(policy, rows, turns, bad, due, now, most)
    ensures Blocked(policy, rows, turns, bad)
  {
    if turns != [] { RaisingBlocks(policy, rows, turns[..|turns| - 1], bad, due, now, most); }
  }

  // What is due before the first raising row is not held up: of it, n passes at one
  // instant leave exactly max(0, front - n * limit) rows due, while that row stays.
  lemma {:induction false} FrontDrains(policy: Q.Policy, rows: map<NoteKey, Note>, turns: seq<Turn>, bad: NoteKey,
                                       now: Time, most: nat)
    requires policy.backoffBase > 0 && bad in rows && Q.Live(rows[bad])
    requires FirstRaising(policy, rows, turns, bad, rows[bad].due, now, most)
    ensures var end := AfterAll(policy, rows, turns);
      && bad in end && end[bad] == rows[bad]
      && |Front(end, now, rows[bad].due)| == Max(0, |Front(rows, now, rows[bad].due)| - |turns| * most)
  {
    RaisingBlocks(policy, rows, turns, bad, rows[bad].due, now, most);
    OneBadRendererBlocks(policy, rows, turns, bad, bad);
    if turns != [] {
      var n := |turns| - 1;
      FrontDrains(policy, rows, turns[..n], bad, now, most);
      FrontShrinks(policy, AfterAll(policy, rows, turns[..n]), turns[n], rows[bad].due);
      Q.Distribute(n, most);
    }
  }
}
