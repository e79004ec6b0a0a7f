/** The per-channel sliding-window rate limiter. */
module Limits {
  import opened Types

  const WINDOW: Time := 60_000_000

  predicate Sorted(log: seq<Time>) {
    forall i, j :: 0 <= i < j < |log| ==> log[i] <= log[j]
  }

  // How many sends of the log lie in the closed interval [from, to].
  function Within(log: seq<Time>, from: Time, to: Time): nat {
    if log == [] then 0
    else
      var last := |log| - 1;
      Within(log[..last], from, to) + (if from <= log[last] <= to then 1 else 0)
  }

  // The limiter by definition: count the whole log of allowed sends.
  predicate Allows(log: seq<Time>, limit: nat, now: Time) {
    Within(log, now - WINDOW, now) < limit
  }

  function Entries(log: seq<Time>, from: Time, to: Time): set<nat> { set i: nat | i < |log| && from <= log[i] <= to }

  // That is, how many of its entries.
  lemma {:induction false} WithinCounts(log: seq<Time>, from: Time, to: Time)
    ensures Within(log, from, to) == |Entries(log, from, to)|
  {
    if log == [] {
      assert Entries(log, from, to) == {};
    } else {
      var last := |log| - 1;
      WithinCounts(log[..last], from, to);
      if from <= log[last] <= to {
        assert Entries(log, from, to) == Entries(log[..last], from, to) + {last};
      } else {
        assert Entries(log, from, to) == Entries(log[..last], from, to);
      }
    }
  }

  function Admit(log: seq<Time>, limit: nat, now: Time): seq<Time> {
    if Allows(log, limit, now) then log + [now] else log
  }

  function LogOf(logs: map<string, seq<Time>>, channel: string): seq<Time> {
    if channel in logs then logs[channel] else []
  }

  // A log in time order whose every entry was allowed when it was made.
  predicate Admitted(log: seq<Time>, limit: nat) {
    log == [] ||
    var last := |log| - 1;
    && Admitted(log[..last], limit) && Allows(log[..last], limit, log[last])
    && (last > 0 ==> log[last - 1] <= log[last])
  }

  lemma {:induction false} AdmittedIsSorted(log: seq<Time>, limit: nat)
    requires Admitted(log, limit)
    ensures Sorted(log)
  {
    if log != [] {
      var last := |log| - 1;
      AdmittedIsSorted(log[..last], limit);
      assert forall i :: 0 <= i < last ==> log[i] == log[..last][i];
    }
  }

  lemma AdmitKeeps(log: seq<Time>, limit: nat, now: Time)
    requires Admitted(log, limit) && (log != [] ==> log[|log| - 1] <= now)
    ensures Admitted(Admit(log, limit, now), limit)
  {
  }

  lemma {:induction false} WithinMonotone(log: seq<Time>, from: Time, to: Time, from': Time, to': Time)
    requires from' <= from && to <= to'
    ensures Within(log, from, to) <= Within(log, from', to')
  {
    if log != [] { WithinMonotone(log[..|log| - 1], from, to, from', to'); }
  }

  // No closed window of one minute, wherever it lies, holds more sends than
  // the limit.
  lemma {:induction false} WindowBound(log: seq<Time>, limit: nat, from: Time)
    requires Admitted(log, limit)
    ensures Within(log, from, from + 60_000_000) <= limit
  {
    if log != [] {
      var last := |log| - 1;
      var before := log[..last];
      WindowBound(before, limit, from);
      if from <= log[last] <= from + WINDOW {
        AdmittedIsSorted(log, limit);
        assert forall i :: 0 <= i < last ==> before[i] == log[i];
        NothingLater(before, from, from + WINDOW, log[last]);
        WithinMonotone(before, from, log[last], log[last] - WINDOW, log[last]);
      }
    }
  }

  lemma {:induction false} NothingLater(log: seq<Time>, from: Time, to: Time, latest: Time)
    requires forall i :: 0 <= i < |log| ==> log[i] <= latest
    requires latest <= to
    ensures Within(log, from, to) == Within(log, from, latest)
  {
    if log != [] { NothingLater(log[..|log| - 1], from, to, latest); }
  }

  // A sorted log whose first `k` entries have expired and whose others have not.
  lemma {:induction false} RecentIsSuffix(log: seq<Time>, k: nat, now: Time)
    requires k <= |log|
    requires forall i :: 0 <= i < k ==> log[i] < now - WINDOW
    requires forall i :: k <= i < |log| ==> now - WINDOW <= log[i] <= now
    ensures Within(log, now - WINDOW, now) == |log| - k
  {
    if log != [] {
      var last := |log| - 1;
      RecentIsSuffix(log[..last], Min(k, last), now);
    }
  }

  // `q` is the end of the log `all` that has not expired by the time `at`.
  predicate Trimmed(q: seq<Time>, all: seq<Time>, at: Time) {
    && Sorted(all) && (all != [] ==> all[|all| - 1] <= at)
    && |q| <= |all| && q == all[|all| - |q|..]
    && forall i :: 0 <= i < |all| - |q| ==> all[i] < at - WINDOW
  }

  lemma TrimHead(q: seq<Time>, all: seq<Time>, now: Time)
    requires Trimmed(q, all, now) && q != [] && now - q[0] > WINDOW
    ensures Trimmed(q[1..], all, now)
  {
  }

  // Once nothing at its head has expired, the queue's length is the count the
  // definition asks for.
  lemma QueueDecides(q: seq<Time>, all: seq<Time>, limit: nat, now: Time)
    requires Trimmed(q, all, now) && (q != [] ==> now - q[0] <= WINDOW)
    ensures |q| < limit <==> Allows(all, limit, now)
  {
    var k := |all| - |q|;
    forall i | k <= i < |all|
      ensures now - WINDOW <= all[i] <= now
    {
      assert q[0] == all[k] <= all[i] <= all[|all| - 1];
    }
    RecentIsSuffix(all, k, now);
  }

  lemma TrimmedGrows(q: seq<Time>, all: seq<Time>, now: Time)
    requires Trimmed(q, all, now)
    ensures Trimmed(q + [now], all + [now], now)
  {
  }

  predicate ChannelOk(q: seq<Time>, all: seq<Time>, limit: nat, at: Time)
  {
    Admitted(all, limit) && Trimmed(q, all, at)
  }

  predicate Healthy(sent: map<string, seq<Time>>, log: map<string, seq<Time>>, limit: nat, at: Time) {
    sent.Keys == log.Keys && forall c :: c in log ==> ChannelOk(sent[c], log[c], limit, at)
  }

  lemma HealthyUpdate(sent: map<string, seq<Time>>, log: map<string, seq<Time>>, limit: nat, at: Time, now: Time,
                      channel: string,
                      q: seq<Time>, all: seq<Time>)
    requires Healthy(sent, log, limit, at) && at <= now && ChannelOk(q, all, limit, now)
    ensures Healthy(sent[channel := q], log[channel := all], limit, now)
  {
  }

  // What one decision leaves behind.
  lemma DecisionOk(q: seq<Time>, all: seq<Time>, limit: nat, now: Time)
    requires ChannelOk(q, all, limit, now) && (q != [] ==> now - q[0] <= WINDOW)
    ensures |q| < limit <==> Allows(all, limit, now)
    ensures ChannelOk(if |q| < limit then q + [now] else q, Admit(all, limit, now), limit, now)
  {
    QueueDecides(q, all, limit, now);
    AdmitKeeps(all, limit, now);
    TrimmedGrows(q, all, now);
  }

  // `popleft` until the head is recent.
  method Expire(queue: seq<Time>, now: Time, ghost all: seq<Time>, ghost limit: nat) returns (q: seq<Time>)
    requires ChannelOk(queue, all, limit, now)
    ensures ChannelOk(q, all, limit, now) && (q != [] ==> now - q[0] <= WINDOW)
  {
    q := queue;
    while q != [] && now - q[0] > WINDOW
      invariant ChannelOk(q, all, limit, now)
      decreases |q|
    {
      TrimHead(q, all, now);
      q := q[1..];
    }
  }

  // One decision on one channel's queue.
  method Decide(queue: seq<Time>, now: Time, ghost all: seq<Time>, limit: nat) returns (ok: bool, q: seq<Time>)
    requires ChannelOk(queue, all, limit, now)
    ensures ok == Allows(all, limit, now)
    ensures ChannelOk(q, Admit(all, limit, now), limit, now)
  {
    q := Expire(queue, now, all, limit);
    DecisionOk(q, all, limit, now);
    ok := |q| < limit;
    if ok { q := q + [now]; }
  }

  lemma QueueOf(sent: map<string, seq<Time>>, log: map<string, seq<Time>>, limit: nat, at: Time, now: Time,
                channel: string)
    requires Healthy(sent, log, limit, at) && at <= now
    ensures ChannelOk(LogOf(sent, channel), LogOf(log, channel), limit, now)
  {
  }

  method DecideFor(sent: map<string, seq<Time>>, ghost log: map<string, seq<Time>>, limit: nat, ghost at: Time,
                   channel: string, now: Time)
    returns (ok: bool, q: seq<Time>)
    requires Healthy(sent, log, limit, at) && at <= now
    ensures ok == Allows(LogOf(log, channel), limit, now)
    ensures Healthy(sent[channel := q], log[channel := Admit(LogOf(log, channel), limit, now)], limit, now)
  {
    QueueOf(sent, log, limit, at, now, channel);
    ok, q := Decide(LogOf(sent, channel), now, LogOf(log, channel), limit);
    HealthyUpdate(sent, log, limit, at, now, channel, q, Admit(LogOf(log, channel), limit, now));
  }

  /** In-process limiter. `log`, which the program does not keep, is every send
      it ever allowed; `sent` keeps only the part that can still matter. */
  class RateLimiter {
    const limit: nat
    var sent: map<string, seq<Time>>
    ghost var log: map<string, seq<Time>>
    ghost var latest: Time

    ghost predicate Valid()
      reads this
    {
      limit >= 1 && Healthy(sent, log, limit, latest)
    }

    constructor (perChannelPerMinute: int, ghost start: Time)
      ensures Valid() && limit == Max(1, perChannelPerMinute) && log == map[] && latest == start
    {
      limit := Max(1, perChannelPerMinute);
      sent := map[];
      log := map[];
      latest := start;
    }

    // With a clock that does not run backwards the trimmed queue decides
    // exactly as the whole log would.
    method Allow(channel: string, now: Time) returns (ok: bool)
      requires Valid() && latest <= now
      modifies this
      ensures log == old(log)[channel := Admit(old(LogOf(log, channel)), limit, now)]
      ensures ok == Allows(old(LogOf(log, channel)), limit, now)
      ensures Valid() && latest == now
    {
      var q;
      ok, q := DecideFor(sent, log, limit, latest, channel, now);
      ghost var grown := log[channel := Admit(LogOf(log, channel), limit, now)];
      var queues := sent[channel := q];
      sent, log, latest := queues, grown, now;
      assert Healthy(sent, log, limit, latest);
    }
  }
}
