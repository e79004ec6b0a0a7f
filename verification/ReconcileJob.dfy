/** The reconcile job as the program runs it, loop by loop. Each method carries
    the machine of module Reconcile along as a ghost and advances it by ticks
    only, so what is proved of the machine's runs holds of the program's. */
module ReconcileJob {
  import opened Types
  import opened Events
  import opened Correlate
  import opened Db
  import opened Engine
  import opened Pipeline
  import opened Reconcile
  import opened ReconcileTicks
  import Arr
  import Like
  import Safety = ReconcileSafety
  import Seerr
  import Silence = KillSwitch
  import Tautulli

  // ---- The applier -----------------------------------------------------------

  ghost predicate Coupled(store: Store, kill: KillSwitch, w: World)
    reads store
  {
    && w.tables == store.Snapshot() && w.cursors == store.cursors
    && w.engaged == Silence.Engaged(kill.envOverride, store.audit)
  }

  // Stored event back to an event, as far as fanning it out needs.
  function EventFromRow(key: string, row: EventRow): Event {
    Event(row.source, key, row.origin, row.kind, Some(row.occurredAt), None, None, row.requestId, row.partial)
  }

  // Fans out the event the run has decided on.
  method FanOutDecided(store: Store, kill: KillSwitch, body: Event, now: Time, ghost w: World) returns (ghost g: World)
    requires kill.store == store && Coupled(store, kill, w) && w.run.Some? && w.run.value.phase.Decide?
    requires var p := w.run.value.phase;
      body.key == p.key && body.kind == p.kind && body.source == p.source && w.run.value.now == now
    modifies store`ledger
    ensures Coupled(store, kill, g) && Reaches(store.config, w, g)
    ensures Moved(w, g, Continue(w.run.value.phase.next), w.run.value.recovered)
  {
    var created := EnqueueForEvent(store, kill, body, now);
    g := NotifyTicks(store.config, w, body);
  }

  // Re-enqueues the rows of an event a crashed run stored but may not have
  // fanned out, and of no other.
  method RepairRow(store: Store, kill: KillSwitch, key: string, row: EventRow, windowStart: Time, now: Time,
                   ghost w: World, ghost next: Next)
    returns (ghost g: World)
    requires kill.store == store && Coupled(store, kill, w) && w.run.Some?
    requires w.run.value.phase == Repair(key, row, windowStart, next) && w.run.value.now == now
    modifies store`ledger
    ensures Coupled(store, kill, g) && Reaches(store.config, w, g)
    ensures Moved(w, g, Continue(next), w.run.value.recovered)
  {
    g := w;
    ReachesItself(store.config, w);
    if row.origin != Origin.Reconcile { return; }
    if row.receivedAt <= windowStart { return; }
    g := FanOutDecided(store, kill, EventFromRow(key, row), now, w);
  }

  // Neither a marker nor keyed as one.
  predicate IsPlain(source: string, key: string, kind: EventType) {
    kind != ReconcileGap && !(GapPrefix(source) <= key)
  }

  // The rows stored since are `n`, all of them plain.
  ghost predicate Gains(source: string, was: map<string, EventRow>, now: map<string, EventRow>, n: nat) {
    && was.Keys <= now.Keys && |now.Keys - was.Keys| == n
    && forall k :: k in now && k !in was ==> IsPlain(source, k, now[k].kind)
  }

  // No more than this one.
  predicate Stores(was: map<string, EventRow>, now: map<string, EventRow>, key: string, kind: EventType) {
    && now.Keys == was.Keys + {key} && (forall k :: k in was ==> now[k] == was[k])
    && (key !in was ==> now[key].kind == kind)
  }

  lemma OneKeyMore(a: set<string>, b: set<string>, c: set<string>, key: string)
    requires a <= b && c == b + {key}
    ensures |c - a| == if key in b then |b - a| else |b - a| + 1
  {
    if key in b { assert c == b; } else { assert c - a == (b - a) + {key}; }
  }

  lemma GainsOn(source: string, a: map<string, EventRow>, b: map<string, EventRow>, c: map<string, EventRow>, n: nat,
                key: string, kind: EventType)
    requires Gains(source, a, b, n) && Stores(b, c, key, kind) && IsPlain(source, key, kind)
    ensures Gains(source, a, c, if key in b then n else n + 1)
  {
    OneKeyMore(a.Keys, b.Keys, c.Keys, key);
    forall k | k in c && k !in a
      ensures IsPlain(source, k, c[k].kind)
    {
      if k in b { assert IsPlain(source, k, b[k].kind); }
    }
  }

  // Stores the event if it is new and, if so, fans it out; otherwise the run
  // stands where the lookup made before the call left it.
  method ApplyEvent(store: Store, correlator: Correlator, kill: KillSwitch, body: Event, now: Time,
                    ghost w: World, ghost record: Option<Arr.Record>, ghost known: Option<EventRow>, ghost next: Next)
    returns (inserted: bool, ghost g: World)
    requires correlator.store == store && kill.store == store && Coupled(store, kill, w) && w.run.Some?
    requires w.run.value.phase == StartApply(body, record, now, known, next) && w.run.value.now == now
    modifies store`media, store`identities, store`events, store`chains, store`ledger
    ensures Coupled(store, kill, g) && Reaches(store.config, w, g)
    ensures inserted == (body.key !in old(store.events))
    ensures Moved(w, g, if inserted then Continue(next) else Settled(body, false, known, w.run.value.windowStart, next),
                  Gained(w.run.value.recovered, inserted, next))
    ensures Stores(old(store.events), store.events, body.key, body.kind)
  {
    g := ApplyTicks(store.config, w, body, record, known, next);
    inserted := Correlated(store, correlator, body, now);
    if inserted {
      ghost var decided := g;
      g := FanOutDecided(store, kill, body, now, decided);
      ReachesOn(store.config, w, decided, g);
    }
  }

  method Correlated(store: Store, correlator: Correlator, body: Event, now: Time) returns (inserted: bool)
    requires correlator.store == store
    modifies store`media, store`identities, store`events, store`chains
    ensures store.Snapshot() == Applied(store.config, Frame(old(store.Snapshot()), None), body, now).tables
    ensures inserted == (body.key !in old(store.events))
    ensures Stores(old(store.events), store.events, body.key, body.kind)
  {
    AppliedStores(store.config, Frame(store.Snapshot(), None), body, now);
    var media := new MediaHandle();
    var e := new CanonicalEvent(body, media);
    e.receivedAt := Some(now);
    inserted := correlator.Apply(e, now);
  }

  // ---- The loop over an answer ---------------------------------------------

  // The item is stored, or a guard takes it for stored: by a key of its download,
  // or, for a deletion, by one of the same media at about the same time.
  ghost predicate Seen(events: map<string, EventRow>, item: Item) {
    || item.event.key in events
    || (item.event.kind == MediaDeleted && item.nearDelete)
    || (item.record.Some? && item.record.value.downloadId.Some? && item.record.value.downloadId.value != "" &&
        exists k :: k in events && Like.Matches(Arr.TwinPattern(item.event, item.record.value.downloadId.value), k))
  }

  // Whether the two guards recognise the item as stored under another key.
  method IsTwin(store: Store, item: Item) returns (twin: bool)
    ensures twin == (TwinStored(store.events, item) || NearDelete(item))
    ensures item.event.key in store.events || twin <==> Seen(store.events, item)
  {
    twin := false;
    if item.record.Some? && TruthyText(item.record.value.downloadId) {
      twin := store.EventKeyLike(Arr.TwinPattern(item.event, item.record.value.downloadId.value));
    }
    if item.event.kind == MediaDeleted && item.nearDelete { twin := true; }
  }

  method StoreUnlessTwin(store: Store, correlator: Correlator, kill: KillSwitch, item: Item, now: Time, ghost w: World,
                         ghost rest: seq<Item>)
    returns (gained: bool, ghost g: World)
    requires correlator.store == store && kill.store == store && Coupled(store, kill, w) && w.run.Some?
    requires item.event.key !in store.events && w.run.value.phase == Guard(item, rest) && w.run.value.now == now
    modifies store`media, store`identities, store`events, store`chains, store`ledger
    ensures Coupled(store, kill, g) && Reaches(store.config, w, g)
    ensures Moved(w, g, Scan(rest), Gained(w.run.value.recovered, gained, NextItems(rest)))
    ensures gained == !Seen(old(store.events), item)
    ensures if gained then Stores(old(store.events), store.events, item.event.key, item.event.kind)
      else store.events == old(store.events)
  {
    gained := false;
    var twin := IsTwin(store, item);
    g := GuardTick(store.config, w, item, rest);
    if !twin {
      ghost var guarded := g;
      gained, g := ApplyEvent(store, correlator, kill, item.event, now, guarded, item.record, None, NextItems(rest));
      Onward(store.config, w, guarded, g, Scan(rest), Gained(w.run.value.recovered, gained, NextItems(rest)));
    }
  }

  // One expected event: repaired if stored, skipped if a twin is, else stored.
  method ReconcileItem(store: Store, correlator: Correlator, kill: KillSwitch, item: Item, windowStart: Time, now: Time,
                       ghost w: World, ghost todo: seq<Item>)
    returns (gained: bool, ghost g: World)
    requires correlator.store == store && kill.store == store && Coupled(store, kill, w) && w.run.Some?
    requires todo != [] && todo[0] == item && w.run.value.phase == Scan(todo) && w.run.value.now == now
      && w.run.value.windowStart == windowStart
    modifies store`media, store`identities, store`events, store`chains, store`ledger
    ensures Coupled(store, kill, g) && Reaches(store.config, w, g)
    ensures Moved(w, g, Scan(todo[1..]), w.run.value.recovered + if gained then 1 else 0)
    ensures gained == !Seen(old(store.events), item)
    ensures if gained then Stores(old(store.events), store.events, item.event.key, item.event.kind)
      else store.events == old(store.events)
  {
    ghost var recovered, rest := w.run.value.recovered, todo[1..];
    gained := false;
    var existing := store.GetEventByKey(item.event.key);
    ghost var looked := ScanTick(store.config, w, todo);
    if existing.Some? {
      g := RepairRow(store, kill, item.event.key, existing.value, windowStart, now, looked, NextItems(rest));
      Onward(store.config, w, looked, g, Scan(rest), recovered);
      return;
    }
    gained, g := StoreUnlessTwin(store, correlator, kill, item, now, looked, rest);
    Onward(store.config, w, looked, g, Scan(rest), Gained(recovered, gained, NextItems(rest)));
  }

  predicate PlainItems(source: string, items: seq<Item>) {
    forall i :: 0 <= i < |items| ==> IsPlain(source, items[i].event.key, items[i].event.kind)
  }

  // The first `n` items are stored, or a guard took them for stored, and every row
  // stored since is one of theirs that was not.
  ghost predicate Covers(items: seq<Item>, n: nat, was: map<string, EventRow>, now: map<string, EventRow>)
    requires n <= |items|
  {
    && (forall i :: 0 <= i < n ==> Seen(now, items[i]))
    && forall k :: k in now && k !in was ==> exists i :: 0 <= i < n && IsRowOf(items[i], was, now, k)
  }

  ghost predicate IsRowOf(item: Item, was: map<string, EventRow>, now: map<string, EventRow>, k: string)
    requires k in now
  {
    item.event.key == k && item.event.kind == now[k].kind && !Seen(was, item)
  }

  lemma SeenStays(item: Item, was: map<string, EventRow>, now: map<string, EventRow>)
    requires was.Keys <= now.Keys && Seen(was, item)
    ensures Seen(now, item)
  {
  }

  lemma CoversOn(items: seq<Item>, i: nat, was: map<string, EventRow>, mid: map<string, EventRow>,
                 now: map<string, EventRow>)
    requires i < |items| && was.Keys <= mid.Keys && Covers(items, i, was, mid)
    requires if Seen(mid, items[i]) then now == mid else Stores(mid, now, items[i].event.key, items[i].event.kind)
    ensures Covers(items, i + 1, was, now)
  {
    forall j | 0 <= j <= i ensures Seen(now, items[j]) { if Seen(mid, items[j]) { SeenStays(items[j], mid, now); } }
    forall k | k in now && k !in was
      ensures exists j :: 0 <= j < i + 1 && IsRowOf(items[j], was, now, k)
    {
      if k in mid {
        var j :| 0 <= j < i && IsRowOf(items[j], was, mid, k);
        assert IsRowOf(items[j], was, now, k);
      } else {
        if Seen(was, items[i]) { SeenStays(items[i], was, mid); }
        assert IsRowOf(items[i], was, now, k);
      }
    }
  }

  // The first `n` items are done, `recovered` of them stored.
  ghost predicate Done(source: string, items: seq<Item>, n: nat, was: map<string, EventRow>,
                       now: map<string, EventRow>, recovered: nat)
    requires n <= |items|
  {
    Gains(source, was, now, recovered) && Covers(items, n, was, now)
  }

  // The run `w` began now stands at `g`, before item `i`.
  ghost predicate Midway(store: Store, kill: KillSwitch, items: seq<Item>, i: nat, recovered: nat, w: World, g: World,
                         was: map<string, EventRow>)
    requires i <= |items| && w.run.Some?
    reads store
  {
    && Coupled(store, kill, g) && Reaches(store.config, w, g) && Moved(w, g, Scan(items[i..]), recovered)
    && Done(w.run.value.source, items, i, was, store.events, recovered)
  }

  lemma AtFirst(store: Store, kill: KillSwitch, items: seq<Item>, w: World)
    requires Coupled(store, kill, w) && w.run.Some? && w.run.value.phase == Scan(items) && w.run.value.recovered == 0
    ensures Midway(store, kill, items, 0, 0, w, w, store.events)
  {
    ReachesItself(store.config, w);
    assert items[0..] == items;
  }

  lemma AtLast(store: Store, kill: KillSwitch, items: seq<Item>, recovered: nat, w: World, g: World,
               was: map<string, EventRow>)
    requires w.run.Some? && Midway(store, kill, items, |items|, recovered, w, g, was)
    ensures Moved(w, g, Scan([]), recovered)
  {
    assert items[|items|..] == [];
  }

  // Item `i` of an answer whose first `i` items are done.
  method ReconcileNext(store: Store, correlator: Correlator, kill: KillSwitch, items: seq<Item>, i: nat,
                       windowStart: Time, now: Time, recovered: nat, ghost w: World, ghost before: World,
                       ghost was: map<string, EventRow>)
    returns (more: nat, ghost g: World)
    requires correlator.store == store && kill.store == store && w.run.Some? && i < |items|
    requires w.run.value.now == now && w.run.value.windowStart == windowStart
    requires PlainItems(w.run.value.source, items)
    requires Midway(store, kill, items, i, recovered, w, before, was)
    modifies store`media, store`identities, store`events, store`chains, store`ledger
    ensures Midway(store, kill, items, i + 1, more, w, g, was)
  {
    ghost var stored := store.events;
    more := recovered;
    var gained;
    gained, g := ReconcileItem(store, correlator, kill, items[i], windowStart, now, before, items[i..]);
    CoversOn(items, i, was, stored, store.events);
    if gained {
      GainsOn(w.run.value.source, was, stored, store.events, recovered, items[i].event.key, items[i].event.kind);
      more := more + 1;
    }
    assert items[i..][1..] == items[i + 1..];
    Onward(store.config, w, before, g, Scan(items[i + 1..]), more);
  }

  // Returns how many events were recovered: the rows it has stored.
  method ReconcileItems(store: Store, correlator: Correlator, kill: KillSwitch, items: seq<Item>, windowStart: Time,
                        now: Time, ghost w: World)
    returns (recovered: nat, ghost g: World)
    requires correlator.store == store && kill.store == store && Coupled(store, kill, w) && w.run.Some?
    requires w.run.value.phase == Scan(items) && w.run.value.now == now && w.run.value.windowStart == windowStart
      && w.run.value.recovered == 0
    requires PlainItems(w.run.value.source, items)
    modifies store`media, store`identities, store`events, store`chains, store`ledger
    ensures Coupled(store, kill, g) && Reaches(store.config, w, g) && Moved(w, g, Scan([]), recovered)
    ensures Done(w.run.value.source, items, |items|, old(store.events), store.events, recovered)
  {
    recovered, g := 0, w;
    ghost var was := store.events;
    AtFirst(store, kill, items, w);
    var i := 0;
    while i < |items|
      modifies store`media, store`identities, store`events, store`chains, store`ledger
      invariant 0 <= i <= |items|
      invariant Midway(store, kill, items, i, recovered, w, g, was)
    {
      recovered, g :=
        ReconcileNext(store, correlator, kill, items, i, windowStart, now, recovered, w, g, was);
      i := i + 1;
    }
    AtLast(store, kill, items, recovered, w, g, was);
  }

  // ---- The gap marker --------------------------------------------------------

  // Marks the window if anything was recovered in it; otherwise repairs the
  // newest marker.
  method MarkGap(store: Store, correlator: Correlator, kill: KillSwitch, source: string, windowStart: Time,
                 recovered: nat, now: Time, ghost w: World)
    returns (marked: bool, ghost g: World)
    requires correlator.store == store && kill.store == store && Coupled(store, kill, w) && w.run.Some?
    requires var run := w.run.value;
      && run.phase == Gap && run.source == source && run.now == now && run.recovered == recovered
      && run.windowStart == windowStart && run.window == store.config.text(windowStart)
    modifies store`media, store`identities, store`events, store`chains, store`ledger
    ensures Coupled(store, kill, g) && Reaches(store.config, w, g) && Moved(w, g, Finish, recovered)
    ensures marked == (recovered > 0 && GapKey(source, store.config.text(windowStart)) !in old(store.events))
    ensures if recovered > 0
      then Stores(old(store.events), store.events, GapKey(source, store.config.text(windowStart)), ReconcileGap)
      else store.events == old(store.events)
  {
    marked := false;
    var key := GapKey(source, store.config.text(windowStart));
    var existing := store.GetEventByKey(key);
    ghost var looked := GapTick(store.config, w);
    if recovered == 0 {
      var newest := store.NewestMarker(source);
      g := looked;
      if newest.Some? {
        g := RepairRow(store, kill, newest.value, store.events[newest.value], windowStart, now, looked, NextFinish);
        Onward(store.config, w, looked, g, Finish, recovered);
      }
      return;
    }
    var marker := Event(source, key, Origin.Reconcile, ReconcileGap, Some(now), None, None, None, false);
    marked, g := ApplyEvent(store, correlator, kill, marker, now, looked, None, existing, NextFinish);
    Onward(store.config, w, looked, g, g.run.value.phase, recovered);
    if !marked && existing.Some? {
      ghost var applied := g;
      g := RepairRow(store, kill, key, existing.value, windowStart, now, applied, NextFinish);
      Onward(store.config, w, applied, g, Finish, recovered);
    }
  }

  // ---- One source ------------------------------------------------------------

  // What a source's read API answered. `near` answers the delete guard.
  datatype Answer =
    | OfSeerr(requests: seq<Seerr.Request>)
    | OfArr(records: seq<Arr.Record>, near: Arr.Record -> bool)
    | OfTautulli(rows: seq<Tautulli.HistoryRow>)

  // Sources with kinds of event that the API does not retain.
  predicate Transient(a: Answer) { !a.OfSeerr? }

  function Plain(events: seq<Event>): seq<Item> {
    seq(|events|, i requires 0 <= i < |events| => Item(events[i], None, false))
  }

  function SeerrItems(source: string, requests: seq<Seerr.Request>): seq<Item> {
    if requests == [] then []
    else SeerrItems(source, requests[..|requests| - 1]) + Plain(Seerr.Expected(source, requests[|requests| - 1]))
  }

  // Records of flag-only kinds are never synthesized.
  function ArrItems(source: string, records: seq<Arr.Record>, near: Arr.Record -> bool): seq<Item> {
    if records == [] then []
    else
      var r := records[|records| - 1];
      var e := Arr.RecordEvent(source, r);
      ArrItems(source, records[..|records| - 1], near) + (if e.Some? then [Item(e.value, Some(r), near(r))] else [])
  }

  function TautulliItems(source: string, rows: seq<Tautulli.HistoryRow>): seq<Item> {
    if rows == [] then []
    else
      var e := Tautulli.Expected(source, rows[|rows| - 1]);
      TautulliItems(source, rows[..|rows| - 1]) + (if e.Some? then [Item(e.value, None, false)] else [])
  }

  function ItemsOf(source: string, a: Answer): seq<Item> {
    match a
    case OfSeerr(requests) => SeerrItems(source, requests)
    case OfArr(records, near) => ArrItems(source, records, near)
    case OfTautulli(rows) => TautulliItems(source, rows)
  }

  // The answer asks for the item: an event a request attests, a record's event, or
  // that of a completed watch.
  ghost predicate Asks(source: string, a: Answer, item: Item) {
    match a
    case OfSeerr(requests) =>
      && item.record.None? && !item.nearDelete
      && exists r :: r in requests && item.event in Seerr.Expected(source, r)
    case OfArr(records, near) =>
      && item.record.Some? && item.record.value in records && item.nearDelete == near(item.record.value)
      && Arr.RecordEvent(source, item.record.value) == Some(item.event)
    case OfTautulli(rows) =>
      && item.record.None? && !item.nearDelete
      && exists row :: row in rows && Tautulli.Expected(source, row) == Some(item.event)
  }

  lemma {:induction false} SeerrAsks(source: string, requests: seq<Seerr.Request>, item: Item)
    ensures item in SeerrItems(source, requests) <==> Asks(source, OfSeerr(requests), item)
  {
    if requests != [] {
      var n := |requests| - 1;
      SeerrAsks(source, requests[..n], item);
      assert requests == requests[..n] + [requests[n]];
      var own := Plain(Seerr.Expected(source, requests[n]));
      if item.record.None? && !item.nearDelete && item.event in Seerr.Expected(source, requests[n]) {
        var i :| 0 <= i < |own| && Seerr.Expected(source, requests[n])[i] == item.event;
        assert own[i] == item;
      }
    }
  }

  lemma {:induction false} ArrAsks(source: string, records: seq<Arr.Record>, near: Arr.Record -> bool, item: Item)
    ensures item in ArrItems(source, records, near) <==> Asks(source, OfArr(records, near), item)
  {
    if records != [] {
      ArrAsks(source, records[..|records| - 1], near, item);
      assert records == records[..|records| - 1] + [records[|records| - 1]];
    }
  }

  lemma {:induction false} TautulliAsks(source: string, rows: seq<Tautulli.HistoryRow>, item: Item)
    ensures item in TautulliItems(source, rows) <==> Asks(source, OfTautulli(rows), item)
  {
    if rows != [] {
      TautulliAsks(source, rows[..|rows| - 1], item);
      assert rows == rows[..|rows| - 1] + [rows[|rows| - 1]];
    }
  }

  lemma ItemsAreAsked(source: string, a: Answer, item: Item)
    ensures item in ItemsOf(source, a) <==> Asks(source, a, item)
  {
    match a
    case OfSeerr(requests) => SeerrAsks(source, requests, item);
    case OfArr(records, near) => ArrAsks(source, records, near, item);
    case OfTautulli(rows) => TautulliAsks(source, rows, item);
  }

  // All that the answer asks for is stored, or taken for stored, and every new row
  // but a marker is one it asks for that was not.
  ghost predicate Answered(source: string, a: Answer, was: map<string, EventRow>, now: map<string, EventRow>) {
    && (forall item :: Asks(source, a, item) ==> Seen(now, item))
    && forall k :: k in now && k !in was && now[k].kind != ReconcileGap ==>
         exists item :: Asks(source, a, item) && IsRowOf(item, was, now, k)
  }

  lemma {:induction false} SeerrOwn(source: string, requests: seq<Seerr.Request>)
    ensures OwnItems(source, SeerrItems(source, requests))
  {
    if requests != [] { SeerrOwn(source, requests[..|requests| - 1]); }
  }

  lemma {:induction false} ArrOwn(source: string, records: seq<Arr.Record>, near: Arr.Record -> bool)
    ensures OwnItems(source, ArrItems(source, records, near))
  {
    if records != [] { ArrOwn(source, records[..|records| - 1], near); }
  }

  lemma {:induction false} TautulliOwn(source: string, rows: seq<Tautulli.HistoryRow>)
    ensures OwnItems(source, TautulliItems(source, rows))
  {
    if rows != [] { TautulliOwn(source, rows[..|rows| - 1]); }
  }

  lemma AnswersAreOwn(source: string, a: Answer)
    ensures OwnItems(source, ItemsOf(source, a))
  {
    match a
    case OfSeerr(requests) => SeerrOwn(source, requests);
    case OfArr(records, near) => ArrOwn(source, records, near);
    case OfTautulli(rows) => TautulliOwn(source, rows);
  }

  function BeginOf(source: string, a: Answer, now: Time): Act { Begin(source, Transient(a), now, ItemsOf(source, a)) }

  lemma BeginsRun(config: Config, w: World, source: string, a: Answer, now: Time) returns (begun: World)
    requires CanBegin(w, source, now)
    ensures begun == Step(config, w, BeginOf(source, a, now))
    ensures begun.tables == w.tables && begun.cursors == w.cursors && begun.engaged == w.engaged
    ensures var windowStart := WindowStart(w.cursors, source, now);
      begun.run == Some(Run(source, Transient(a), now, windowStart, config.text(windowStart), 0,
      Scan(ItemsOf(source, a)), ItemsOf(source, a), false))
  {
    AnswersAreOwn(source, a);
    begun := Step(config, w, BeginOf(source, a, now));
  }

  // What a run has stored: `recovered` rows that are no markers and, if there are
  // any and the source has events its API does not retain, the window's marker.
  ghost predicate Recovers(source: string, a: Answer, window: string, was: map<string, EventRow>,
                           now: map<string, EventRow>, recovered: nat, gapMarked: bool)
  {
    var key := GapKey(source, window);
    && was.Keys <= now.Keys && recovered == |set k | k in now && k !in was && now[k].kind != ReconcileGap|
    && (forall k :: k in now && k !in was && now[k].kind == ReconcileGap ==> k == key && gapMarked)
    && (gapMarked <==> (a.OfArr? || a.OfTautulli?) && recovered > 0 && key !in was)
    && ((a.OfArr? || a.OfTautulli?) && recovered > 0 ==> key in now && (gapMarked ==> now[key].kind == ReconcileGap))
  }

  lemma PlainRow(source: string, was: map<string, EventRow>, mid: map<string, EventRow>, now: map<string, EventRow>,
                 n: nat, key: string, k: string)
    requires Gains(source, was, mid, n) && Stores(mid, now, key, ReconcileGap) && k in now && k !in was
    ensures if k in mid then now[k].kind != ReconcileGap else k == key && now[k].kind == ReconcileGap
  {
    if k in mid { assert IsPlain(source, k, mid[k].kind); }
  }

  lemma PlainRows(source: string, was: map<string, EventRow>, mid: map<string, EventRow>, now: map<string, EventRow>,
                  n: nat, key: string)
    requires Gains(source, was, mid, n) && Stores(mid, now, key, ReconcileGap)
    ensures n == |set k | k in now && k !in was && now[k].kind != ReconcileGap|
    ensures forall k :: k in now && k !in was && now[k].kind == ReconcileGap ==> k == key && key !in mid
  {
    forall k | k in now && k !in was
      ensures now[k].kind != ReconcileGap <==> k in mid
      ensures k !in mid ==> k == key
    {
      PlainRow(source, was, mid, now, n, key, k);
    }
    SameSet((set k | k in now && k !in was && now[k].kind != ReconcileGap), mid.Keys - was.Keys);
  }

  lemma SameSet(a: set<string>, b: set<string>)
    requires forall k :: k in a <==> k in b
    ensures |a| == |b|
  {
    assert a == b;
  }

  lemma PlainRowsOnly(source: string, was: map<string, EventRow>, now: map<string, EventRow>, n: nat)
    requires Gains(source, was, now, n)
    ensures n == |set k | k in now && k !in was && now[k].kind != ReconcileGap|
    ensures forall k :: k in now && k !in was ==> now[k].kind != ReconcileGap
  {
    forall k | k in now && k !in was ensures now[k].kind != ReconcileGap { assert IsPlain(source, k, now[k].kind); }
    SameSet((set k | k in now && k !in was && now[k].kind != ReconcileGap), now.Keys - was.Keys);
  }

  lemma GapKeyIsNew(source: string, window: string, was: map<string, EventRow>, mid: map<string, EventRow>, n: nat)
    requires Gains(source, was, mid, n)
    ensures GapKey(source, window) in mid <==> GapKey(source, window) in was
  {
    assert GapPrefix(source) <= GapKey(source, window);
  }

  lemma RunRecovers(source: string, a: Answer, window: string, was: map<string, EventRow>, mid: map<string, EventRow>,
                    now: map<string, EventRow>, recovered: nat, gapMarked: bool)
    requires Gains(source, was, mid, recovered)
    requires gapMarked == (Transient(a) && recovered > 0 && GapKey(source, window) !in mid)
    requires if Transient(a) && recovered > 0 then Stores(mid, now, GapKey(source, window), ReconcileGap)
      else now == mid
    ensures Recovers(source, a, window, was, now, recovered, gapMarked)
  {
    GapKeyIsNew(source, window, was, mid, recovered);
    if Transient(a) && recovered > 0 {
      PlainRows(source, was, mid, now, recovered, GapKey(source, window));
    } else {
      PlainRowsOnly(source, was, now, recovered);
    }
  }

  lemma RunAnswers(source: string, a: Answer, was: map<string, EventRow>, mid: map<string, EventRow>,
                   now: map<string, EventRow>, key: string)
    requires Covers(ItemsOf(source, a), |ItemsOf(source, a)|, was, mid)
    requires now == mid || Stores(mid, now, key, ReconcileGap)
    ensures Answered(source, a, was, now)
  {
    var items := ItemsOf(source, a);
    forall item | Asks(source, a, item) ensures Seen(now, item) {
      ItemsAreAsked(source, a, item);
      var i :| 0 <= i < |items| && items[i] == item;
      SeenStays(items[i], mid, now);
    }
    forall k | k in now && k !in was && now[k].kind != ReconcileGap
      ensures exists item :: Asks(source, a, item) && IsRowOf(item, was, now, k)
    {
      var i :| 0 <= i < |items| && IsRowOf(items[i], was, mid, k);
      ItemsAreAsked(source, a, items[i]);
      assert IsRowOf(items[i], was, now, k);
    }
  }

  lemma AnswerIsPlain(source: string, a: Answer)
    ensures PlainItems(source, ItemsOf(source, a))
  {
    AnswersAreLegal({source}, source, a, 0);
  }

  // The loop over the answer, then the gap marker where the source has one.
  method Reconciled(store: Store, correlator: Correlator, kill: KillSwitch, source: string, a: Answer,
                    windowStart: Time, now: Time, ghost w: World)
    returns (recovered: nat, gapMarked: bool, ghost g: World)
    requires correlator.store == store && kill.store == store && Coupled(store, kill, w)
    requires w.run == Some(Run(source, Transient(a), now, windowStart, store.config.text(windowStart), 0,
      Scan(ItemsOf(source, a)),
      ItemsOf(source, a), false))
    modifies store`media, store`identities, store`events, store`chains, store`ledger
    ensures Coupled(store, kill, g) && Reaches(store.config, w, g) && Moved(w, g, Finish, recovered)
    ensures Recovers(source, a, store.config.text(windowStart), old(store.events), store.events, recovered, gapMarked)
    ensures Answered(source, a, old(store.events), store.events)
  {
    ghost var was := store.events;
    AnswerIsPlain(source, a);
    recovered, g := ReconcileItems(store, correlator, kill, ItemsOf(source, a), windowStart, now, w);
    ghost var scanned := g;
    g := LeaveScan(store.config, scanned);
    Onward(store.config, w, scanned, g, g.run.value.phase, recovered);
    gapMarked := false;
    ghost var scannedTo := store.events;
    if Transient(a) {
      ghost var left := g;
      gapMarked, g := MarkGap(store, correlator, kill, source, windowStart, recovered, now, left);
      Onward(store.config, w, left, g, Finish, recovered);
    }
    RunRecovers(source, a, store.config.text(windowStart), was, scannedTo, store.events, recovered, gapMarked);
    RunAnswers(source, a, was, scannedTo, store.events, GapKey(source, store.config.text(windowStart)));
  }

  // One source of a reconcile run, start to end. The store ends where the
  // machine ends after beginning this run and ticking it to completion.
  method RunSource(store: Store, correlator: Correlator, kill: KillSwitch, source: string, a: Answer, now: Time,
                   ghost w: World)
    returns (recovered: nat, gapMarked: bool, ghost g: World)
    requires correlator.store == store && kill.store == store && Coupled(store, kill, w) && CanBegin(w, source, now)
    modifies store`media, store`identities, store`events, store`chains, store`ledger, store`cursors
    ensures Coupled(store, kill, g) && g.run.None? && store.cursors == old(store.cursors)[source := now]
    ensures Reaches(store.config, Step(store.config, w, BeginOf(source, a, now)), g)
    ensures
      var windowStart := if source in old(store.cursors) then old(store.cursors)[source] else now - 24 * HOUR;
      Recovers(source, a, store.config.text(windowStart), old(store.events), store.events, recovered, gapMarked)
    ensures Answered(source, a, old(store.events), store.events)
  {
    var cursor := store.GetCursor(source);
    ghost var begun := BeginsRun(store.config, w, source, a, now);
    var windowStart := if cursor.Some? then cursor.value else now - DEFAULT_LOOKBACK;
    recovered, gapMarked, g := Reconciled(store, correlator, kill, source, a, windowStart, now, begun);
    ghost var finished := g;
    store.SetCursor(source, now);
    g := FinishTick(store.config, finished);
    ReachesOn(store.config, begun, finished, g);
  }

  // ---- Answers meet the premises of the theorems -------------------------------

  predicate Fits(names: set<string>, source: string, item: Item) {
    Safety.OwnReconcileEvent(names, source, item.event) && item.event.kind != ReconcileGap
  }

  lemma LifecycleIsOther(kind: EventType)
    requires IsLifecycle(kind)
    ensures Safety.OtherType(TypeName(kind))
  {
  }

  lemma SeerrKeys(source: string, r: Seerr.Request)
    ensures forall e :: e in Seerr.Expected(source, r) ==> Safety.Keyed(source, e.kind, e.key)
  {
    forall e | e in Seerr.Expected(source, r)
      ensures Safety.Keyed(source, e.kind, e.key)
    {
      Seerr.ExpectedCarries(source, r, e);
      var rest := Seerr.FactKeyShape(Seerr.PolledFact(source, r, e.kind));
      LifecycleIsOther(e.kind);
      Safety.OtherKey(source, TypeName(e.kind), rest);
    }
  }

  lemma RequestFits(names: set<string>, source: string, r: Seerr.Request)
    requires source in names
    ensures forall item :: item in Plain(Seerr.Expected(source, r)) ==>
      Fits(names, source, item) && item.record.None? && item.event.kind != MediaDeleted
  {
    SeerrKeys(source, r);
    var events := Seerr.Expected(source, r);
    forall item | item in Plain(events)
      ensures Fits(names, source, item) && item.record.None? && item.event.kind != MediaDeleted
    {
      var i :| 0 <= i < |events| && Plain(events)[i] == item;
      assert events[i] in events;
    }
  }

  lemma {:induction false} SeerrFits(names: set<string>, source: string, requests: seq<Seerr.Request>)
    requires source in names
    ensures forall item :: item in SeerrItems(source, requests) ==>
      Fits(names, source, item) && item.record.None? && item.event.kind != MediaDeleted
  {
    if requests != [] {
      SeerrFits(names, source, requests[..|requests| - 1]);
      RequestFits(names, source, requests[|requests| - 1]);
    }
  }

  lemma RecordKeyed(source: string, r: Arr.Record)
    requires Arr.RecordType(r).Some?
    ensures Safety.Unmarked(source, Arr.RecordKey(source, r))
  {
    var media := Arr.MediaKey(r) + ":" + (Arr.EpisodePart(r) + Arr.RecordDiscriminator(r));
    var rest := if Arr.RecordType(r) == Some(MediaDeleted) then "file" + ":" + media else media;
    Safety.OtherKey(source, TypeName(Arr.RecordType(r).value), rest);
  }

  lemma {:induction false} ArrFits(names: set<string>, source: string, records: seq<Arr.Record>,
                                   near: Arr.Record -> bool)
    requires source in names
    ensures forall item :: item in ArrItems(source, records, near) ==> Fits(names, source, item)
  {
    if records != [] {
      var r := records[|records| - 1];
      ArrFits(names, source, records[..|records| - 1], near);
      if Arr.RecordType(r).Some? {
        RecordKeyed(source, r);
      }
    }
  }

  lemma WatchKeyed(source: string, row: Tautulli.HistoryRow)
    requires Tautulli.Expected(source, row).Some?
    ensures Safety.Unmarked(source, Tautulli.Expected(source, row).value.key)
  {
    var rating := if row.ratingKey.Some? then row.ratingKey.value else "None";
    Safety.OtherKey(source, "watch.completed", Tautulli.FirstText(row.userId, row.user, "unknown") + ":" + rating);
  }

  lemma {:induction false} TautulliFits(names: set<string>, source: string, rows: seq<Tautulli.HistoryRow>)
    requires source in names
    ensures forall item :: item in TautulliItems(source, rows) ==>
      Fits(names, source, item) && item.record.None? && item.event.kind != MediaDeleted
  {
    if rows != [] {
      TautulliFits(names, source, rows[..|rows| - 1]);
      var e := Tautulli.Expected(source, rows[|rows| - 1]);
      if e.Some? {
        WatchKeyed(source, rows[|rows| - 1]);
      }
    }
  }

  // Every answer of a configured source is a legal start of the machine, and a
  // Seerr or Tautulli answer has no item that a guard could skip.
  lemma AnswersAreLegal(names: set<string>, source: string, a: Answer, now: Time)
    requires source in names
    ensures Safety.Legal(names, BeginOf(source, a, now))
    ensures !a.OfArr? ==> forall i :: 0 <= i < |ItemsOf(source, a)| ==>
      ItemsOf(source, a)[i].record.None? && ItemsOf(source, a)[i].event.kind != MediaDeleted
  {
    var items := ItemsOf(source, a);
    match a {
      case OfSeerr(requests) => SeerrFits(names, source, requests);
      case OfArr(records, near) => ArrFits(names, source, records, near);
      case OfTautulli(rows) => TautulliFits(names, source, rows);
    }
    assert forall i :: 0 <= i < |items| ==> items[i] in items && Fits(names, source, items[i]);
  }

  predicate LegalIngest(names: set<string>, e: Event, at: Time, mediaId: Option<nat>) {
    Foreign(InsertEvent(e, at)) && Safety.Legal(names, Act.Outside(InsertEvent(e, at), mediaId))
  }

  // So is every event that a webhook of a configured source gives: it bears the
  // source's name, is not reconcile's, and is never a gap marker.
  lemma IngestIsLegal(names: set<string>, source: string, seerr: Seerr.Payload, tautulli: Tautulli.Payload,
                      watch: Tautulli.WatchConfig, arr: Arr.Payload, at: Time, mediaId: Option<nat>)
    requires source in names
    ensures forall e :: e in Seerr.Normalize(source, seerr) ==> LegalIngest(names, e, at, mediaId)
    ensures forall e :: e in Tautulli.Normalize(source, tautulli, watch) ==> LegalIngest(names, e, at, mediaId)
    ensures LegalIngest(names, Arr.Normalize(source, arr), at, mediaId)
  {
    ArrIngest(names, source, arr, at, mediaId);
    TautulliIngest(names, source, tautulli, watch, at, mediaId);
    SeerrIngest(names, source, seerr, at, mediaId);
  }

  lemma JoinedKeyed(source: string, typeName: string, a: string, b: string)
    requires Safety.OtherType(typeName)
    ensures Safety.Unmarked(source, source + ":" + typeName + ":" + a)
    ensures Safety.Unmarked(source, source + ":" + typeName + ":" + a + ":" + b)
  {
    Safety.OtherKey(source, typeName, a);
    Safety.OtherKey(source, typeName, a + ":" + b);
    assert source + ":" + typeName + ":" + a == KeyOf(source, typeName, a);
    assert source + ":" + typeName + ":" + a + ":" + b == KeyOf(source, typeName, a + ":" + b);
  }

  lemma SeerrIngest(names: set<string>, source: string, p: Seerr.Payload, at: Time, mediaId: Option<nat>)
    requires source in names
    ensures forall e :: e in Seerr.Normalize(source, p) ==> LegalIngest(names, e, at, mediaId)
  {
    var kind := Seerr.RequestType(p.notificationType);
    if kind.Some? && p.requestId.Some? {
      JoinedKeyed(source, TypeName(kind.value), p.requestId.value, Seerr.AvailabilityLabel(p));
    } else if p.notificationType == "MEDIA_FAILED" && p.requestId.Some? {
      Safety.OtherKey(source, "health.issue", "request:" + p.requestId.value);
    } else {
      Safety.OtherKey(source, "unknown", UnknownRest(p.notificationType, p.digest));
    }
  }

  lemma TautulliIngest(names: set<string>, source: string, p: Tautulli.Payload, watch: Tautulli.WatchConfig,
                       at: Time, mediaId: Option<nat>)
    requires source in names
    ensures forall e :: e in Tautulli.Normalize(source, p, watch) ==> LegalIngest(names, e, at, mediaId)
  {
    PlaybackKeyed(source, "playback.started", p);
    PlaybackKeyed(source, "playback.stopped", p);
    Safety.OtherKey(source, "watch.completed", Tautulli.UserKey(p) + ":" + Tautulli.RatingKey(p));
    Safety.OtherKey(source, "unknown", UnknownRest(p.event, p.digest));
  }

  lemma PlaybackKeyed(source: string, typeName: string, p: Tautulli.Payload)
    requires Safety.OtherType(typeName)
    ensures Safety.Unmarked(source, Tautulli.PlaybackKey(source, typeName, p))
  {
    var session := Tautulli.FirstText(p.sessionKey, None, "nosession");
    Safety.OtherKey(source, typeName, Tautulli.UserKey(p) + ":" + (session + ":" + Tautulli.RatingKey(p)));
  }

  lemma ShapeIsOther(p: Arr.Payload)
    ensures Arr.ShapeOf(p).kind != ReconcileGap && Safety.OtherType(Arr.ShapeOf(p).typeName)
  {
  }

  lemma ArrIngest(names: set<string>, source: string, p: Arr.Payload, at: Time, mediaId: Option<nat>)
    requires source in names
    ensures LegalIngest(names, Arr.Normalize(source, p), at, mediaId)
  {
    ShapeIsOther(p);
    Safety.OtherKey(source, Arr.ShapeOf(p).typeName, Arr.ShapeOf(p).rest);
  }
}
