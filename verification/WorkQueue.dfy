/** The retry protocol shared by the two work tables: the ingest outbox and the
    notification ledger. A row is claimed when due, handled once per pass, and
    then finished, retried with backoff, deferred or dead-lettered.
 */
module WorkQueue {
  import opened Types

  datatype Table = Outbox | Notifications

  // `Finished` is 'done' in the outbox and 'sent' in the ledger. Only the
  // ledger uses `Failed`; a retried outbox row stays pending.
  datatype Status = Pending | Failed | Finished | Dead

  datatype Row<P> = Row(item: P, status: Status, attempts: nat, due: Time)

  // What became of a row that a pass took up. The `Unmarked` ones are process
  // deaths after the handler ran and before its result was recorded.
  datatype Outcome = Missing | Deferred | Raised | Done | RaisedUnmarked | DoneUnmarked

  datatype Policy = Policy(table: Table, maxAttempts: int, backoffBase: Time)

  const BACKOFF_CAP: Time := 3_600_000_000
  const DEFERRAL: Time := 60_000_000

  function Power2(n: nat): nat { if n == 0 then 1 else 2 * Power2(n - 1) }

  function Backoff(base: Time, attempts: nat): Time { Min(base * Power2(attempts), BACKOFF_CAP) }

  // The law of the waiting times: the base at first, twice as long each time, and
  // an hour at most.
  lemma BackoffLaw(base: Time, attempts: nat)
    ensures Backoff(base, 0) == Min(base, 3_600_000_000)
    ensures Backoff(base, attempts + 1) == Min(2 * Backoff(base, attempts), 3_600_000_000)
  {
    Twice(base, Power2(attempts));
    if base >= 1 { assert base * Power2(attempts) >= 0; }
  }

  lemma Twice(a: int, b: int)
    ensures a * (2 * b) == 2 * (a * b)
  {
  }

  // ---- Row transitions --------------------------------------------------

  // `INSERT OR IGNORE` under the table's unique key.
  function Enqueue<K, P>(rows: map<K, Row<P>>, key: K, item: P, now: Time): map<K, Row<P>> {
    if key in rows then rows else rows[key := Row(item, Pending, 0, now)]
  }

  function EnqueueDead<K, P>(rows: map<K, Row<P>>, key: K, item: P): map<K, Row<P>> {
    if key in rows then rows else rows[key := Row(item, Dead, 0, 0)]
  }

  function Killed<P>(row: Row<P>): Row<P> { row.(status := Dead, attempts := row.attempts + 1) }

  function Retried<P>(table: Table, row: Row<P>, due: Time): Row<P> {
    row.(status := if table == Notifications then Failed else row.status, attempts := row.attempts + 1, due := due)
  }

  function Completed<P>(table: Table, row: Row<P>): Row<P> {
    row.(status := Finished, attempts := if table == Notifications then row.attempts + 1 else row.attempts)
  }

  function Settle<P>(policy: Policy, row: Row<P>, outcome: Outcome, now: Time): Row<P> {
    match outcome
    case Missing => Killed(row)
    case Deferred => row.(due := now + DEFERRAL)
    case Raised =>
      if row.attempts + 1 >= policy.maxAttempts then Killed(row)
      else Retried(policy.table, row, now + Backoff(policy.backoffBase, row.attempts))
    case Done => Completed(policy.table, row)
    case RaisedUnmarked => row
    case DoneUnmarked => row
  }

  predicate Live<P>(row: Row<P>) { row.status in {Pending, Failed} }

  predicate Due<P>(row: Row<P>, now: Time) { Live(row) && row.due <= now }

  // ---- Histories --------------------------------------------------------

  // `history` records, per row, the outcome of every pass that took it up.
  datatype World<!K, P> = World(rows: map<K, Row<P>>, history: map<K, seq<Outcome>>)

  datatype Act<K, P> =
    | Add(key: K, item: P, now: Time)
    | AddDead(key: K, item: P)
    | Handle(key: K, outcome: Outcome, now: Time)

  function History<K, P>(w: World<K, P>, key: K): seq<Outcome> {
    if key in w.history then w.history[key] else []
  }

  // Only a due row is ever handled: that is what the claim query selects.
  function Step<K, P>(policy: Policy, w: World<K, P>, act: Act<K, P>): World<K, P> {
    match act
    case Add(key, item, now) => w.(rows := Enqueue(w.rows, key, item, now))
    case AddDead(key, item) => w.(rows := EnqueueDead(w.rows, key, item))
    case Handle(key, outcome, now) =>
      if key in w.rows && Due(w.rows[key], now) then
        World(w.rows[key := Settle(policy, w.rows[key], outcome, now)],
              w.history[key := History(w, key) + [outcome]])
      else w
  }

  function Run<K, P>(policy: Policy, w: World<K, P>, acts: seq<Act<K, P>>): World<K, P> {
    if acts == [] then w else Step(policy, Run(policy, w, acts[..|acts| - 1]), acts[|acts| - 1])
  }

  function Count(history: seq<Outcome>, kinds: set<Outcome>): nat {
    if history == [] then 0
    else Count(history[..|history| - 1], kinds) + (if history[|history| - 1] in kinds then 1 else 0)
  }

  lemma CountAppend(history: seq<Outcome>, o: Outcome, kinds: set<Outcome>)
    ensures Count(history + [o], kinds) == Count(history, kinds) + (if o in kinds then 1 else 0)
  {
  }

  function Budget(policy: Policy): nat { Max(1, policy.maxAttempts) }

  // A row's columns are determined by what happened to it.
  predicate Explained<P>(policy: Policy, row: Row<P>, history: seq<Outcome>) {
    var failures, done, missing := Count(history, {Raised}), Count(history, {Done}), Count(history, {Missing});
    match row.status
    case Pending =>
      && done == 0 && missing == 0 && row.attempts == failures < Budget(policy)
      && (policy.table == Notifications ==> failures == 0)
    case Failed =>
      policy.table == Notifications && done == 0 && missing == 0 && row.attempts == failures
        && 0 < failures < Budget(policy)
    case Finished =>
      && done == 1 && missing == 0 && failures < Budget(policy)
      && row.attempts == failures + (if policy.table == Notifications then 1 else 0)
    case Dead =>
      && done == 0 && row.attempts == failures + missing
      && (history == [] || (missing == 1 && failures < Budget(policy)) || (missing == 0 && failures == Budget(policy)))
  }

  predicate AllExplained<K, P>(policy: Policy, w: World<K, P>) {
    && w.history.Keys <= w.rows.Keys
    && forall k :: k in w.rows ==> Explained(policy, w.rows[k], History(w, k))
  }

  lemma SettleExplained<P>(policy: Policy, row: Row<P>, history: seq<Outcome>, outcome: Outcome, now: Time)
    requires Live(row) && Explained(policy, row, history)
    ensures Explained(policy, Settle(policy, row, outcome, now), history + [outcome])
  {
  }

  lemma {:induction false} RowsAreExplained<K, P>(policy: Policy, acts: seq<Act<K, P>>)
    ensures AllExplained(policy, Run(policy, World(map[], map[]), acts))
  {
    if acts != [] {
      var before, act := acts[..|acts| - 1], acts[|acts| - 1];
      RowsAreExplained<K, P>(policy, before);
      var w := Run(policy, World(map[], map[]), before);
      if act.Handle? && act.key in w.rows && Due(w.rows[act.key], act.now) {
        SettleExplained(policy, w.rows[act.key], History(w, act.key), act.outcome, act.now);
      }
    }
  }

  lemma {:induction false} CountSplits(history: seq<Outcome>, a: set<Outcome>, b: set<Outcome>)
    requires a !! b
    ensures Count(history, a + b) == Count(history, a) + Count(history, b)
  {
    if history != [] { CountSplits(history[..|history| - 1], a, b); }
  }

  // Over any run, a row's handler finishes at most once plus once per death
  // between finishing and recording it; without deaths, at most once.
  lemma {:induction false} AtMostOnce<K, P>(policy: Policy, acts: seq<Act<K, P>>, key: K)
    ensures var w := Run(policy, World(map[], map[]), acts); var h := History(w, key);
      Count(h, {Done, DoneUnmarked}) == Count(h, {DoneUnmarked}) +
        (if key in w.rows && w.rows[key].status == Finished then 1 else 0)
  {
    var w := Run(policy, World(map[], map[]), acts);
    RowsAreExplained<K, P>(policy, acts);
    CountSplits(History(w, key), {Done}, {DoneUnmarked});
    assert {Done} + {DoneUnmarked} == {Done, DoneUnmarked};
  }

  // Over any run, the handler is called at most `max(1, maxAttempts)` times
  // plus once per death; a row that was ever taken up is dead exactly when it
  // lost its source row or failed as often as the budget allows.
  lemma {:induction false} AttemptBudget<K, P>(policy: Policy, acts: seq<Act<K, P>>, key: K)
    ensures var w := Run(policy, World(map[], map[]), acts); var h := History(w, key);
      && Count(h, {Raised, Done, RaisedUnmarked, DoneUnmarked}) <= Budget(policy) +
         Count(h, {RaisedUnmarked, DoneUnmarked})
      && (key in w.rows && h != [] ==>
            (w.rows[key].status == Dead <==> Count(h, {Missing}) == 1 || Count(h, {Raised}) == Budget(policy)))
  {
    var w := Run(policy, World(map[], map[]), acts);
    var h := History(w, key);
    RowsAreExplained<K, P>(policy, acts);
    CountSplits(h, {Raised}, {Done});
    CountSplits(h, {Raised} + {Done}, {RaisedUnmarked, DoneUnmarked});
    assert {Raised} + {Done} + {RaisedUnmarked, DoneUnmarked} == {Raised, Done, RaisedUnmarked, DoneUnmarked};
  }

  // Finished and dead rows never change again, and rows are never lost.
  lemma {:induction false} FinalRowsStay<K, P>(policy: Policy, w: World<K, P>, acts: seq<Act<K, P>>, key: K)
    requires key in w.rows && !Live(w.rows[key])
    ensures var end := Run(policy, w, acts);
      key in end.rows && end.rows[key] == w.rows[key] && History(end, key) == History(w, key)
  {
    if acts != [] { FinalRowsStay(policy, w, acts[..|acts| - 1], key); }
  }

  // ---- Passes -----------------------------------------------------------

  function DueSet<K, P>(rows: map<K, Row<P>>, now: Time): set<K> {
    set k | k in rows && Due(rows[k], now)
  }

  predicate Distinct<K(==)>(keys: seq<K>) {
    forall i, j :: 0 <= i < j < |keys| ==> keys[i] != keys[j]
  }

  // What the claim query returns: the `limit` due rows that are due first.
  ghost predicate IsClaim<K(!new), P>(keys: seq<K>, rows: map<K, Row<P>>, now: Time, limit: nat) {
    && Distinct(keys)
    && (forall i :: 0 <= i < |keys| ==> keys[i] in rows && Due(rows[keys[i]], now))
    && |keys| == Min(limit, |DueSet(rows, now)|)
    && (forall i, j :: 0 <= i < j < |keys| ==> rows[keys[i]].due <= rows[keys[j]].due)
    && (forall k, i :: k in rows && Due(rows[k], now) && k !in keys && 0 <= i < |keys| ==>
          rows[keys[i]].due <= rows[k].due)
  }

  // A due row that is not claimed had no room and is due no earlier.
  lemma ClaimIsFull<K(!new), P>(keys: seq<K>, rows: map<K, Row<P>>, now: Time, limit: nat, k: K)
    requires IsClaim(keys, rows, now, limit) && k in rows && Due(rows[k], now) && k !in keys
    ensures |keys| == limit && forall i :: 0 <= i < |keys| ==> rows[keys[i]].due <= rows[k].due
  {
    DistinctSize(keys);
    var claimed := set c | c in keys;
    assert claimed + {k} <= DueSet(rows, now);
    Subset(claimed + {k}, DueSet(rows, now));
  }

  lemma Subset<T>(a: set<T>, b: set<T>)
    requires a <= b
    ensures |a| <= |b|
  {
    assert b == a + (b - a);
  }

  // A pass over claimed rows; fewer outcomes than rows means it was cut short.
  function Pass<K, P>(policy: Policy, rows: map<K, Row<P>>, keys: seq<K>, outcomes: seq<Outcome>,
                      now: Time): map<K, Row<P>>
    requires |outcomes| <= |keys|
  {
    if outcomes == [] then rows
    else
      var last := |outcomes| - 1;
      var before := Pass(policy, rows, keys, outcomes[..last], now);
      if keys[last] in before then before[keys[last] := Settle(policy, before[keys[last]], outcomes[last], now)]
      else before
  }

  lemma {:induction false} PassEffect<K, P>(policy: Policy, rows: map<K, Row<P>>, keys: seq<K>, outcomes: seq<Outcome>,
                                            now: Time)
    requires |outcomes| <= |keys| && Distinct(keys)
    ensures var after := Pass(policy, rows, keys, outcomes, now);
      && after.Keys == rows.Keys
      && (forall i :: 0 <= i < |outcomes| && keys[i] in rows ==>
            after[keys[i]] == Settle(policy, rows[keys[i]], outcomes[i], now))
      && (forall k :: k in rows && k !in keys[..|outcomes|] ==> after[k] == rows[k])
  {
    if outcomes != [] {
      var last := |outcomes| - 1;
      PassEffect(policy, rows, keys, outcomes[..last], now);
      assert keys[..last + 1] == keys[..last] + [keys[last]];
    }
  }

  // Recorded, with a positive backoff.
  predicate Recorded(outcomes: seq<Outcome>) {
    forall i :: 0 <= i < |outcomes| ==> outcomes[i] in {Missing, Deferred, Raised, Done}
  }

  lemma BackoffPositive(base: Time, attempts: nat)
    requires base > 0
    ensures Backoff(base, attempts) > 0
  {
    PowerPositive(attempts);
    assert base * Power2(attempts) >= 1 by {
      assert base >= 1 && Power2(attempts) >= 1;
      assert (base - 1) * Power2(attempts) >= 0;
    }
  }

  lemma {:induction false} PowerPositive(n: nat)
    ensures Power2(n) >= 1
  {
    if n > 0 { PowerPositive(n - 1); }
  }

  // Whatever the outcomes, exactly the rows a pass got to leave the due set.
  lemma PassRemovesHandled<K, P>(policy: Policy, rows: map<K, Row<P>>, keys: seq<K>, outcomes: seq<Outcome>, now: Time)
    requires |outcomes| <= |keys| && Distinct(keys) && Recorded(outcomes) && policy.backoffBase > 0
    requires forall i :: 0 <= i < |keys| ==> keys[i] in rows && Due(rows[keys[i]], now)
    ensures DueSet(Pass(policy, rows, keys, outcomes, now), now) ==
      DueSet(rows, now) - (set k | k in keys[..|outcomes|])
  {
    var after := Pass(policy, rows, keys, outcomes, now);
    PassEffect(policy, rows, keys, outcomes, now);
    forall i | 0 <= i < |outcomes|
      ensures keys[i] in after && !Due(after[keys[i]], now)
    {
      BackoffPositive(policy.backoffBase, rows[keys[i]].attempts);
    }
  }

  lemma {:induction false} DistinctSize<K>(keys: seq<K>)
    requires Distinct(keys)
    ensures |set k | k in keys| == |keys|
  {
    if keys != [] {
      var last := |keys| - 1;
      DistinctSize(keys[..last]);
      assert (set k | k in keys) == (set k | k in keys[..last]) + {keys[last]};
    }
  }

  function HandleActs<K, P>(keys: seq<K>, outcomes: seq<Outcome>, now: Time): seq<Act<K, P>>
    requires |outcomes| <= |keys|
  {
    seq(|outcomes|, i requires 0 <= i < |outcomes| => Handle(keys[i], outcomes[i], now))
  }

  // A pass is a run of the protocol, so the results on histories cover passes.
  lemma {:induction false} PassIsRun<K, P>(policy: Policy, w: World<K, P>, keys: seq<K>, outcomes: seq<Outcome>,
                                           now: Time)
    requires |outcomes| <= |keys| && Distinct(keys)
    requires forall i :: 0 <= i < |keys| ==> keys[i] in w.rows && Due(w.rows[keys[i]], now)
    ensures Run(policy, w, HandleActs(keys, outcomes, now)).rows == Pass(policy, w.rows, keys, outcomes, now)
  {
    if outcomes != [] {
      var last := |outcomes| - 1;
      PassIsRun(policy, w, keys, outcomes[..last], now);
      PassEffect(policy, w.rows, keys, outcomes[..last], now);
      var acts, before := HandleActs<K, P>(keys, outcomes, now), HandleActs<K, P>(keys, outcomes[..last], now);
      assert acts[..last] == before && acts[last] == Handle(keys[last], outcomes[last], now);
      HandleDue(policy, Run(policy, w, before), keys[last], outcomes[last], now);
    }
  }

  lemma HandleDue<K, P>(policy: Policy, w: World<K, P>, key: K, outcome: Outcome, now: Time)
    requires key in w.rows && Due(w.rows[key], now)
    ensures Step(policy, w, Handle(key, outcome, now)).rows == w.rows[key := Settle(policy, w.rows[key], outcome, now)]
  {
  }

  datatype PassPlan<K> = PassPlan(keys: seq<K>, outcomes: seq<Outcome>)

  type PassInput<K> = p: PassPlan<K> | |p.outcomes| <= |p.keys| witness PassPlan([], [])

  function Passes<K, P>(policy: Policy, rows: map<K, Row<P>>, inputs: seq<PassInput<K>>, now: Time): map<K, Row<P>>
    decreases inputs
  {
    if inputs == [] then rows
    else Passes(policy, Pass(policy, rows, inputs[0].keys, inputs[0].outcomes, now), inputs[1..], now)
  }

  // Consecutive whole passes at one instant, each over the rows then due.
  ghost predicate WholePasses<K(!new), P>(policy: Policy, rows: map<K, Row<P>>, inputs: seq<PassInput<K>>, now: Time,
                                            limit: nat)
    decreases inputs
  {
    inputs != [] ==>
      var p := inputs[0];
      && IsClaim(p.keys, rows, now, limit) && |p.outcomes| == |p.keys| && Recorded(p.outcomes)
      && WholePasses(policy, Pass(policy, rows, p.keys, p.outcomes, now), inputs[1..], now, limit)
  }

  lemma WholePassDrains<K(!new), P>(policy: Policy, rows: map<K, Row<P>>, p: PassInput<K>, now: Time, limit: nat)
    requires policy.backoffBase > 0 && IsClaim(p.keys, rows, now, limit)
    requires |p.outcomes| == |p.keys| && Recorded(p.outcomes)
    ensures var next := Pass(policy, rows, p.keys, p.outcomes, now);
      next.Keys == rows.Keys && |DueSet(next, now)| == Max(0, |DueSet(rows, now)| - limit)
  {
    PassEffect(policy, rows, p.keys, p.outcomes, now);
    PassRemovesHandled(policy, rows, p.keys, p.outcomes, now);
    assert p.keys[..|p.outcomes|] == p.keys;
    DistinctSize(p.keys);
    var claimed := set k | k in p.keys;
    assert claimed <= DueSet(rows, now);
  }

  // Passes at one instant drain the queue whatever fails: n of them leave
  // exactly max(0, due - n * limit) rows due, so the queue is empty after
  // ceil(due / limit) passes and not before. No row is gained or lost.
  lemma {:induction false} PassesDrain<K(!new), P>(policy: Policy, rows: map<K, Row<P>>, inputs: seq<PassInput<K>>,
                                                   now: Time, limit: nat)
    requires policy.backoffBase > 0 && WholePasses(policy, rows, inputs, now, limit)
    ensures var end := Passes(policy, rows, inputs, now);
      && end.Keys == rows.Keys
      && |DueSet(end, now)| == Max(0, |DueSet(rows, now)| - |inputs| * limit)
    decreases inputs
  {
    if inputs != [] {
      var p, rest := inputs[0], inputs[1..];
      var next := Pass(policy, rows, p.keys, p.outcomes, now);
      WholePassDrains(policy, rows, p, now, limit);
      PassesDrain(policy, next, rest, now, limit);
      Distribute(|rest|, limit);
    }
  }

  lemma Distribute(n: nat, limit: nat)
    ensures (n + 1) * limit == n * limit + limit && n * limit >= 0
  {
  }
}
