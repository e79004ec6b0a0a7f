/** The store as the program holds it: tables that each call updates in place,
    one transaction a call. */
module Db {
  import opened Types
  import opened Events
  import opened Correlate
  import Media
  import Chains
  import Digest
  import Like
  import Reconcile
  import Retention
  import Q = WorkQueue

  // `SELECT ... WHERE due ORDER BY next_attempt_at LIMIT limit`
  method ClaimDue<K(==,!new), P>(rows: map<K, Q.Row<P>>, now: Time, limit: nat) returns (keys: seq<K>)
    ensures Q.IsClaim(keys, rows, now, limit)
  {
    var left := Q.DueSet(rows, now);
    keys := [];
    while left != {} && |keys| < limit
      invariant Q.Distinct(keys) && |keys| <= limit
      invariant forall i :: 0 <= i < |keys| ==> keys[i] in rows && Q.Due(rows[keys[i]], now) && keys[i] !in left
      invariant forall k :: k in left <==> k in rows && Q.Due(rows[k], now) && k !in keys
      invariant |keys| + |left| == |Q.DueSet(rows, now)|
      invariant forall i, j :: 0 <= i < j < |keys| ==> rows[keys[i]].due <= rows[keys[j]].due
      invariant forall k, i :: k in left && 0 <= i < |keys| ==> rows[keys[i]].due <= rows[k].due
      decreases |left|
    {
      var next := Earliest(rows, left);
      keys, left := keys + [next], left - {next};
    }
  }

  // Only rows that wait, or have failed, and have come due are claimed, the
  // earliest first; one of them is passed over only if there is no room.
  ghost predicate ClaimsWaiting<K(!new), P>(keys: seq<K>, rows: map<K, Q.Row<P>>, now: Time, limit: nat) {
    && |keys| <= limit
    && (forall k :: k in keys ==> k in rows && rows[k].status in {Q.Pending, Q.Failed} && rows[k].due <= now)
    && (forall i, j :: 0 <= i < j < |keys| ==> keys[i] != keys[j] && rows[keys[i]].due <= rows[keys[j]].due)
    && (forall k :: k in rows && rows[k].status in {Q.Pending, Q.Failed} && rows[k].due <= now && k !in keys ==>
          |keys| == limit && forall i :: 0 <= i < |keys| ==> rows[keys[i]].due <= rows[k].due)
  }

  lemma ClaimWaits<K(!new), P>(keys: seq<K>, rows: map<K, Q.Row<P>>, now: Time, limit: nat)
    requires Q.IsClaim(keys, rows, now, limit)
    ensures ClaimsWaiting(keys, rows, now, limit)
  {
    forall k | k in rows && rows[k].status in {Q.Pending, Q.Failed} && rows[k].due <= now && k !in keys
      ensures |keys| == limit && forall i :: 0 <= i < |keys| ==> rows[keys[i]].due <= rows[k].due
    {
      Q.ClaimIsFull(keys, rows, now, limit, k);
    }
  }

  method Earliest<K(==), P>(rows: map<K, Q.Row<P>>, among: set<K>) returns (first: K)
    requires among != {} && among <= rows.Keys
    ensures first in among && forall k :: k in among ==> rows[first].due <= rows[k].due
  {
    first :| first in among;
    var left := among - {first};
    while left != {}
      invariant left <= among && first in among
      invariant forall k :: k in among && k !in left ==> rows[first].due <= rows[k].due
      decreases |left|
    {
      var k :| k in left;
      if rows[k].due < rows[first].due { first := k; }
      left := left - {k};
    }
  }

  // `UPDATE ... WHERE id = key`
  function Updated<K, P>(rows: map<K, Q.Row<P>>, key: K, row: Q.Row<P> -> Q.Row<P>): map<K, Q.Row<P>> {
    if key in rows then rows[key := row(rows[key])] else rows
  }

  // The columns a backfill may set, in the order the code tries them.
  datatype Column = TmdbId | TvdbId | ImdbId | Title | Year

  function Filled(row: Media.Row, ref: MediaRef, c: Column): Media.Row {
    match c
    case TmdbId => row.(tmdb := Or(row.tmdb, ref.tmdb))
    case TvdbId => row.(tvdb := Or(row.tvdb, ref.tvdb))
    case ImdbId => row.(imdb := Or(row.imdb, ref.imdb))
    case Title => row.(title := Or(row.title, ref.title))
    case Year => row.(year := Or(row.year, ref.year))
  }

  function FilledAll(row: Media.Row, ref: MediaRef, columns: seq<Column>): Media.Row {
    if columns == [] then row else Filled(FilledAll(row, ref, columns[..|columns| - 1]), ref, columns[|columns| - 1])
  }

  lemma OneMore(row: Media.Row, ref: MediaRef, columns: seq<Column>, c: Column)
    ensures FilledAll(row, ref, columns + [c]) == Filled(FilledAll(row, ref, columns), ref, c)
  {
  }

  lemma FiveColumnsBackfill(row: Media.Row, ref: MediaRef)
    ensures FilledAll(row, ref, [TmdbId, TvdbId, ImdbId, Title, Year]) == Media.Backfill(row, ref)
  {
    OneMore(row, ref, [], TmdbId);
    OneMore(row, ref, [] + [TmdbId], TvdbId);
    OneMore(row, ref, [] + [TmdbId] + [TvdbId], ImdbId);
    OneMore(row, ref, [] + [TmdbId] + [TvdbId] + [ImdbId], Title);
    OneMore(row, ref, [] + [TmdbId] + [TvdbId] + [ImdbId] + [Title], Year);
    assert [TmdbId, TvdbId, ImdbId, Title, Year] == [] + [TmdbId] + [TvdbId] + [ImdbId] + [Title] + [Year];
  }

  lemma RemovalCount<K, V>(m: map<K, V>, keys: set<K>)
    requires keys <= m.Keys
    ensures |m - keys| + |keys| == |m|
  {
  }

  lemma SameCount<K, V>(m: map<K, V>, n: map<K, V>)
    requires m.Keys == n.Keys
    ensures |m| == |n|
  {
  }

  // ---- The statements of `prune` ------------------------------------------

  method DeleteDone(a: Retention.Archive, cutoff: Time) returns (b: Retention.Archive, done: nat)
    ensures b == Retention.DropDone(a, cutoff) && |b.outbox| + done == |a.outbox|
  {
    var rows := set k | k in a.outbox && a.outbox[k].status == Q.Finished
      && Retention.Expired(a.raw, a.outbox[k].item, cutoff);
    RemovalCount(a.outbox, rows);
    b, done := a.(outbox := a.outbox - rows), |rows|;
    assert b.outbox == Retention.DropDone(a, cutoff).outbox;
  }

  method DeleteUnreferenced(a: Retention.Archive, cutoff: Time) returns (b: Retention.Archive, pruned: nat)
    ensures b == Retention.DropUnreferenced(a, cutoff) && |b.raw| + pruned == |a.raw|
  {
    var rows := set id | id in a.raw && Retention.Expired(a.raw, id, cutoff) && !Retention.Referenced(a.outbox, id);
    RemovalCount(a.raw, rows);
    b, pruned := a.(raw := a.raw - rows), |rows|;
    assert b.raw == Retention.DropUnreferenced(a, cutoff).raw;
  }

  method RedactExpired(a: Retention.Archive, cutoff: Time) returns (b: Retention.Archive, redacted: nat)
    ensures b == Retention.RedactOld(a, cutoff) && |b.raw| == |a.raw|
    ensures redacted == |set id | id in a.raw && b.raw[id] != a.raw[id]|
  {
    var rows := set id | id in a.raw && a.raw[id].receivedAt < cutoff && a.raw[id].body != Retention.REDACTED_BODY;
    var raw := map id | id in a.raw :: if id in rows then a.raw[id].(body := Retention.REDACTED_BODY, headers := "{}")
      else a.raw[id];
    SameCount(raw, a.raw);
    b, redacted := a.(raw := raw), |rows|;
    assert b.raw == Retention.RedactOld(a, cutoff).raw;
    assert rows == set id | id in a.raw && b.raw[id] != a.raw[id];
  }

  // The numbers of raw rows removed, outbox rows removed and raw rows redacted;
  // the first two account for every row that is gone.
  method PruneStatements(raw: map<nat, Retention.Raw>, outbox: Retention.Outbox, cutoff: Time)
    returns (raw': map<nat, Retention.Raw>, outbox': Retention.Outbox, pruned: nat, done: nat, redacted: nat)
    ensures Retention.Archive(raw', outbox') == Retention.Prune(Retention.Archive(raw, outbox), cutoff)
    ensures |raw'| + pruned == |raw| && |outbox'| + done == |outbox|
  {
    var a := Retention.Archive(raw, outbox);
    a, done := DeleteDone(a, cutoff);
    a, pruned := DeleteUnreferenced(a, cutoff);
    a, redacted := RedactExpired(a, cutoff);
    raw', outbox' := a.raw, a.outbox;
  }

  // ---- The newest marker ---------------------------------------------------

  // The newest of `seen` and one more key.
  method Newest(events: map<string, EventRow>, ghost seen: set<string>, hit: Option<string>, k: string)
    returns (best: Option<string>)
    requires k in events && forall o :: o in seen ==> o in events
    requires Reconcile.IsNewest(events, seen, hit)
    ensures Reconcile.IsNewest(events, seen + {k}, best)
  {
    if hit.None? { return Some(k); }
    ghost var first := hit.value;
    forall o | o in seen
      ensures Reconcile.Newer(events, k, first) ==> o == k || Reconcile.Newer(events, k, o)
    {
      Reconcile.NewerIsAnOrder(events, k, first, o);
    }
    Reconcile.NewerIsAnOrder(events, k, first, k);
    best := if Reconcile.Newer(events, k, hit.value) then Some(k) else hit;
  }

  method NewestOf(events: map<string, EventRow>, keys: set<string>) returns (hit: Option<string>)
    requires forall k :: k in keys ==> k in events
    ensures Reconcile.IsNewest(events, keys, hit)
  {
    hit := None;
    var left := keys;
    ghost var seen: set<string> := {};
    while left != {}
      invariant seen <= keys && left == keys - seen
      invariant Reconcile.IsNewest(events, seen, hit)
      decreases |left|
    {
      var k :| k in left;
      hit := Newest(events, seen, hit, k);
      seen, left := seen + {k}, left - {k};
    }
    assert seen == keys;
  }

  class Store {
    // Routing rules and household members are synced at start.
    const config: Config
    var media: seq<Media.Row>
    var identities: map<Identity, Option<string>>
    var events: map<string, EventRow>
    var chains: seq<Chains.Chain>
    var ledger: map<NoteKey, Note>
    var raw: map<nat, Retention.Raw>
    var outbox: Retention.Outbox
    var cursors: map<string, Time>
    var digestCursor: Option<Digest.Window>
    var audit: seq<bool>

    constructor (config: Config, identities: map<Identity, Option<string>>)
      ensures this.config == config && this.identities == identities
      ensures media == [] && events == map[] && chains == [] && ledger == map[]
      ensures raw == map[] && outbox == map[] && cursors == map[] && digestCursor == None && audit == []
    {
      this.config, this.identities := config, identities;
      media, events, chains, ledger := [], map[], [], map[];
      raw, outbox, cursors, digestCursor, audit := map[], map[], map[], None, [];
    }

    // The tables correlation works on.
    function Snapshot(): Tables
      reads this
    {
      Tables(media, identities, events, chains, ledger)
    }

    function Archive(): Retention.Archive
      reads this
    {
      Retention.Archive(raw, outbox)
    }

    // ---- Media ------------------------------------------------------------

    method FindOrCreateMedia(ref: MediaRef) returns (id: nat)
      modifies `media
      ensures Media.Resolved(media, id) == Media.FindOrCreate(old(media), ref)
    {
      var hit: Option<nat> := None;
      var columns := [Media.Tmdb, Media.Tvdb, Media.Imdb];
      var i := 0;
      while i < |columns| && hit.None?
        modifies {}
        invariant 0 <= i <= |columns|
        invariant forall j :: 0 <= j < i - 1 ==> Media.ByColumn(media, ref, columns[j]).None?
        invariant hit == if i == 0 then None else Media.ByColumn(media, ref, columns[i - 1])
      {
        hit := Media.ByColumn(media, ref, columns[i]);
        i := i + 1;
      }
      if hit.None? && !Media.AnyId(ref) {
        hit := Media.ByTitle(media, ref);
      }
      assert hit == Media.Lookup(media, ref) by {
        assert columns[0] == Media.Tmdb && columns[1] == Media.Tvdb && columns[2] == Media.Imdb;
      }
      if hit.None? {
        id := |media|;
        media := media + [Media.Row(Media.RowKind(ref), ref.tmdb, ref.tvdb, ref.imdb, ref.title, ref.year)];
      } else {
        id := hit.value;
        assert id < |media|;
        var row := Backfilled(media[id], ref);
        media := media[id := row];
      }
    }

    static method Backfilled(was: Media.Row, ref: MediaRef) returns (row: Media.Row)
      ensures row == Media.Backfill(was, ref)
    {
      var columns := [TmdbId, TvdbId, ImdbId, Title, Year];
      row := was;
      var i := 0;
      while i < |columns|
        invariant 0 <= i <= |columns| && row == FilledAll(was, ref, columns[..i])
      {
        assert columns[..i + 1][..i] == columns[..i];
        row := Filled(row, ref, columns[i]);
        i := i + 1;
      }
      FiveColumnsBackfill(was, ref);
      assert columns[..|columns|] == columns;
    }

    // ---- Identities -------------------------------------------------------

    // `INSERT OR IGNORE`
    method ObserveIdentity(id: Identity) returns (isNew: bool)
      modifies `identities
      ensures isNew == (id !in old(identities))
      ensures identities == if isNew then old(identities)[id := None] else old(identities)
    {
      isNew := id !in identities;
      if isNew { identities := identities[id := None]; }
    }

    // ---- Events -----------------------------------------------------------

    // `INSERT OR IGNORE` under UNIQUE(source_event_key)
    method InsertEvent(key: string, row: EventRow) returns (inserted: bool)
      modifies `events
      ensures inserted == (key !in old(events))
      ensures events == if inserted then old(events)[key := row] else old(events)
    {
      inserted := key !in events;
      if inserted { events := events[key := row]; }
    }

    method GetEventByKey(key: string) returns (row: Option<EventRow>)
      ensures row == if key in events then Some(events[key]) else None
    {
      row := if key in events then Some(events[key]) else None;
    }

    method EventKeyLike(pattern: string) returns (found: bool)
      ensures found <==> exists k :: k in events && Like.Matches(pattern, k)
    {
      found := exists k :: k in events && Like.Matches(pattern, k);
    }

    // `SELECT ... WHERE type = 'reconcile.gap' AND source_event_key LIKE ?
    // ORDER BY received_at DESC LIMIT 1`
    method NewestMarker(source: string) returns (hit: Option<string>)
      ensures hit == Reconcile.NewestMarker(events, source)
    {
      var keys := Reconcile.MarkersOf(events, source);
      hit := NewestOf(events, keys);
      Reconcile.NewestIsUnique(events, keys, hit, Reconcile.NewestMarker(events, source));
    }

    // ---- Chains -----------------------------------------------------------

    method CreateChain(chain: Chains.Chain)
      modifies `chains
      ensures chains == old(chains) + [chain]
    {
      chains := chains + [chain];
    }

    // Columns given as None are left alone.
    method UpdateChain(id: nat, state: Chains.State, closedAt: Option<Time>, mediaId: Option<nat>,
                       requestedBy: Option<string>)
      requires id < |chains|
      modifies `chains
      ensures chains == old(chains)[id := old(chains)[id].(
          state := state,
          closedAt := if closedAt.Some? then closedAt else old(chains)[id].closedAt,
          media := if mediaId.Some? then mediaId else old(chains)[id].media,
          requestedBy := if requestedBy.Some? then requestedBy else old(chains)[id].requestedBy)]
    {
      var row := chains[id].(state := state);
      if closedAt.Some? { row := row.(closedAt := closedAt); }
      if mediaId.Some? { row := row.(media := mediaId); }
      if requestedBy.Some? { row := row.(requestedBy := requestedBy); }
      chains := chains[id := row];
    }

    // ---- Notifications ----------------------------------------------------

    method EnqueueNotification(key: NoteKey, now: Time) returns (created: bool)
      modifies `ledger
      ensures created == (key !in old(ledger))
      ensures ledger == Q.Enqueue(old(ledger), key, (), now)
      ensures ledger == if created then old(ledger)[key := Q.Row((), Q.Pending, 0, now)] else old(ledger)
    {
      created := key !in ledger;
      if created { ledger := ledger[key := Q.Row((), Q.Pending, 0, now)]; }
    }

    method ClaimNotificationsDue(limit: nat, now: Time) returns (keys: seq<NoteKey>)
      ensures Q.IsClaim(keys, ledger, now, limit) && ClaimsWaiting(keys, ledger, now, limit)
    {
      keys := ClaimDue(ledger, now, limit);
      ClaimWaits(keys, ledger, now, limit);
    }

    method NotificationSent(key: NoteKey)
      modifies `ledger
      ensures ledger == Updated(old(ledger), key, (row: Note) => Q.Completed(Q.Notifications, row))
    {
      if key in ledger {
        ledger := ledger[key := ledger[key].(status := Q.Finished, attempts := ledger[key].attempts + 1)];
      }
    }

    method NotificationRetry(key: NoteKey, nextAttemptAt: Time)
      modifies `ledger
      ensures ledger == Updated(old(ledger), key, (row: Note) => Q.Retried(Q.Notifications, row, nextAttemptAt))
    {
      if key in ledger {
        ledger := ledger[key :=
          ledger[key].(status := Q.Failed, attempts := ledger[key].attempts + 1, due := nextAttemptAt)];
      }
    }

    method NotificationDefer(key: NoteKey, nextAttemptAt: Time)
      modifies `ledger
      ensures ledger == Updated(old(ledger), key, (row: Note) => row.(due := nextAttemptAt))
    {
      if key in ledger { ledger := ledger[key := ledger[key].(due := nextAttemptAt)]; }
    }

    method NotificationDead(key: NoteKey)
      modifies `ledger
      ensures ledger == Updated(old(ledger), key, (row: Note) => Q.Killed(row))
    {
      if key in ledger {
        ledger := ledger[key := ledger[key].(status := Q.Dead, attempts := ledger[key].attempts + 1)];
      }
    }

    // ---- Raw events and the outbox ----------------------------------------

    method ArchiveRaw(id: nat, headers: string, body: string, receivedAt: Time)
      requires id !in raw
      modifies `raw
      ensures raw == old(raw)[id := Retention.Raw(receivedAt, body, headers)]
    {
      raw := raw[id := Retention.Raw(receivedAt, body, headers)];
    }

    // The foreign key refuses a raw id that is not there.
    method EnqueueOutbox(id: nat, rawId: nat, dead: bool, now: Time) returns (ok: bool)
      requires id !in outbox
      modifies `outbox
      ensures ok == (rawId in raw)
      ensures outbox == if ok then Retention.Enqueued(old(outbox), id, rawId, dead, now) else old(outbox)
      ensures ok ==> id in outbox && outbox[id].item == rawId && outbox[id].attempts == 0
      ensures ok && dead ==> outbox[id].status == Q.Dead
      ensures ok && !dead ==> outbox[id].status == Q.Pending && outbox[id].due == now
    {
      ok := rawId in raw;
      if ok { outbox := outbox[id := if dead then Q.Row(rawId, Q.Dead, 0, 0) else Q.Row(rawId, Q.Pending, 0, now)]; }
    }

    method ClaimOutboxDue(limit: nat, now: Time) returns (keys: seq<nat>)
      ensures Q.IsClaim(keys, outbox, now, limit) && ClaimsWaiting(keys, outbox, now, limit)
    {
      keys := ClaimDue(outbox, now, limit);
      ClaimWaits(keys, outbox, now, limit);
    }

    method OutboxDone(id: nat)
      modifies `outbox
      ensures outbox == Updated(old(outbox), id, (row: Q.Row<nat>) => Q.Completed(Q.Outbox, row))
    {
      if id in outbox { outbox := outbox[id := outbox[id].(status := Q.Finished)]; }
    }

    method OutboxRetry(id: nat, nextAttemptAt: Time)
      modifies `outbox
      ensures outbox == Updated(old(outbox), id, (row: Q.Row<nat>) => Q.Retried(Q.Outbox, row, nextAttemptAt))
    {
      if id in outbox {
        outbox := outbox[id := outbox[id].(attempts := outbox[id].attempts + 1, due := nextAttemptAt)];
      }
    }

    method OutboxDead(id: nat)
      modifies `outbox
      ensures outbox == Updated(old(outbox), id, (row: Q.Row<nat>) => Q.Killed(row))
    {
      if id in outbox { outbox := outbox[id := outbox[id].(status := Q.Dead, attempts := outbox[id].attempts + 1)]; }
    }

    // One transaction: its statements commit together.
    method Prune(retention: Time, now: Time) returns (pruned: nat, done: nat, redacted: nat)
      modifies `raw, `outbox
      ensures Archive() == Retention.Prune(old(Archive()), now - retention)
      ensures |raw| + pruned == |old(raw)| && |outbox| + done == |old(outbox)|
    {
      raw, outbox, pruned, done, redacted := PruneStatements(raw, outbox, now - retention);
    }

    // ---- Cursors and the kill switch --------------------------------------

    method GetCursor(job: string) returns (lastRun: Option<Time>)
      ensures lastRun == if job in cursors then Some(cursors[job]) else None
    {
      lastRun := if job in cursors then Some(cursors[job]) else None;
    }

    method SetCursor(job: string, lastRun: Time)
      modifies `cursors
      ensures cursors == old(cursors)[job := lastRun]
    {
      cursors := cursors[job := lastRun];
    }

    // The latest audit row; engaged when there is none.
    method KillSwitchState() returns (engaged: bool)
      ensures engaged == (audit == [] || audit[|audit| - 1])
    {
      engaged := if audit == [] then true else audit[|audit| - 1];
    }

    method SetKillSwitch(engaged: bool)
      modifies `audit
      ensures audit == old(audit) + [engaged]
    {
      audit := audit + [engaged];
    }
  }
}
