/** Raw-payload retention: the daily prune beside the ingest queue it must not
    break. */
module Retention {
  import opened Types
  import Q = WorkQueue

  datatype Raw = Raw(receivedAt: Time, body: string, headers: string)

  // An outbox row's item is the id of its raw row.
  type Outbox = map<nat, Q.Row<nat>>

  datatype Archive = Archive(raw: map<nat, Raw>, outbox: Outbox)

  const REDACTED_BODY := "{\"redacted\": \"raw payload removed after retention period\"}"

  // ---- prune --------------------------------------------------------------

  predicate Expired(raw: map<nat, Raw>, id: nat, cutoff: Time) { id in raw && raw[id].receivedAt < cutoff }

  predicate Referenced(outbox: Outbox, id: nat) { exists k :: k in outbox && outbox[k].item == id }

  function DropDone(a: Archive, cutoff: Time): Archive {
    a.(outbox := map k | k in a.outbox
      && !(a.outbox[k].status == Q.Finished && Expired(a.raw, a.outbox[k].item, cutoff))
                   :: a.outbox[k])
  }

  function DropUnreferenced(a: Archive, cutoff: Time): Archive {
    a.(raw := map id | id in a.raw && !(Expired(a.raw, id, cutoff) && !Referenced(a.outbox, id)) :: a.raw[id])
  }

  // A body that already reads as redacted is left alone, headers included.
  function Redacted(r: Raw): Raw { if r.body == REDACTED_BODY then r else r.(body := REDACTED_BODY, headers := "{}") }

  function RedactOld(a: Archive, cutoff: Time): Archive {
    a.(raw := map id | id in a.raw :: if Expired(a.raw, id, cutoff) then Redacted(a.raw[id]) else a.raw[id])
  }

  // The three statements of the transaction, in order.
  function Prune(a: Archive, cutoff: Time): Archive {
    RedactOld(DropUnreferenced(DropDone(a, cutoff), cutoff), cutoff)
  }

  // Work that is still owed, or kept for diagnosis, refers to this raw row.
  predicate Owed(outbox: Outbox, id: nat) {
    exists k :: k in outbox && outbox[k].item == id && outbox[k].status != Q.Finished
  }

  // What a prune does to every row, in terms of the rows before it: newer raw
  // rows are untouched; an older one survives, redacted, exactly while a row
  // that is not done refers to it; the outbox loses exactly the done rows of
  // older raw rows.
  lemma PruneIsExact(a: Archive, cutoff: Time)
    ensures var b := Prune(a, cutoff);
      && (forall id :: id in a.raw && a.raw[id].receivedAt >= cutoff ==> id in b.raw && b.raw[id] == a.raw[id])
      && (forall id :: id in b.raw ==> id in a.raw)
      && (forall id :: id in a.raw && a.raw[id].receivedAt < cutoff ==>
            && (id in b.raw <==> Owed(a.outbox, id))
            && (id in b.raw ==>
                  && b.raw[id].receivedAt == a.raw[id].receivedAt && b.raw[id].body == REDACTED_BODY
                  && b.raw[id].headers == if a.raw[id].body == REDACTED_BODY then a.raw[id].headers else "{}"))
      && (forall k :: k in b.outbox ==> k in a.outbox && b.outbox[k] == a.outbox[k])
      && (forall k :: k in a.outbox ==>
            (k !in b.outbox <==> a.outbox[k].status == Q.Finished && Expired(a.raw, a.outbox[k].item, cutoff)))
  {
    var b, dropped := Prune(a, cutoff), DropDone(a, cutoff);
    forall id | id in a.raw && a.raw[id].receivedAt < cutoff
      ensures Referenced(dropped.outbox, id) <==> Owed(a.outbox, id)
    {
      if Owed(a.outbox, id) {
        var k :| k in a.outbox && a.outbox[k].item == id && a.outbox[k].status != Q.Finished;
        assert k in dropped.outbox;
      }
      if Referenced(dropped.outbox, id) {
        var k :| k in dropped.outbox && dropped.outbox[k].item == id;
        assert a.outbox[k].status != Q.Finished;
      }
    }
  }

  lemma OwedStays(a: Archive, cutoff: Time, id: nat)
    ensures Owed(Prune(a, cutoff).outbox, id) <==> Owed(a.outbox, id)
  {
    var b := Prune(a, cutoff);
    PruneIsExact(a, cutoff);
    if Owed(a.outbox, id) {
      var k :| k in a.outbox && a.outbox[k].item == id && a.outbox[k].status != Q.Finished;
      assert k in b.outbox;
    }
    if Owed(b.outbox, id) {
      var k :| k in b.outbox && b.outbox[k].item == id && b.outbox[k].status != Q.Finished;
      assert k in a.outbox;
    }
  }

  // Every outbox row has its raw row: the foreign key of the schema.
  predicate Linked(a: Archive) { forall k :: k in a.outbox ==> a.outbox[k].item in a.raw }

  lemma PruneKeepsLinks(a: Archive, cutoff: Time)
    requires Linked(a)
    ensures Linked(Prune(a, cutoff))
  {
  }

  // `b` is what a prune to `m` should leave of `a`, row by row.
  ghost predicate IsPruned(a: Archive, b: Archive, m: Time) {
    && (forall id :: id in b.raw <==> id in a.raw && (a.raw[id].receivedAt >= m || Owed(a.outbox, id)))
    && (forall id :: id in b.raw ==> b.raw[id] == if a.raw[id].receivedAt < m then Redacted(a.raw[id]) else a.raw[id])
    && (forall k :: k in b.outbox <==>
          k in a.outbox && !(a.outbox[k].status == Q.Finished && Expired(a.raw, a.outbox[k].item, m)))
    && (forall k :: k in b.outbox ==> b.outbox[k] == a.outbox[k])
  }

  lemma PrunedIsUnique(a: Archive, b: Archive, c: Archive, m: Time)
    requires IsPruned(a, b, m) && IsPruned(a, c, m)
    ensures b == c
  {
  }

  lemma RawTwice(a: Archive, s: Time, t: Time, id: nat)
    requires Linked(a)
    ensures var b := Prune(Prune(a, s), t).raw; var m := Max(s, t);
      && (id in b <==> id in a.raw && (a.raw[id].receivedAt >= m || Owed(a.outbox, id)))
      && (id in b ==> b[id] == if a.raw[id].receivedAt < m then Redacted(a.raw[id]) else a.raw[id])
  {
    PruneIsExact(a, s);
    PruneIsExact(Prune(a, s), t);
    OwedStays(a, s, id);
  }

  lemma RowTwice(a: Archive, s: Time, t: Time, k: nat)
    requires Linked(a)
    ensures var b := Prune(Prune(a, s), t).outbox; var m := Max(s, t);
      && (k in b <==> k in a.outbox && !(a.outbox[k].status == Q.Finished && Expired(a.raw, a.outbox[k].item, m)))
      && (k in b ==> b[k] == a.outbox[k])
  {
  }

  lemma TwoPrunes(a: Archive, s: Time, t: Time)
    requires Linked(a)
    ensures IsPruned(a, Prune(Prune(a, s), t), Max(s, t))
  {
    var b, m := Prune(Prune(a, s), t), Max(s, t);
    forall id: nat
      ensures id in b.raw <==> id in a.raw && (a.raw[id].receivedAt >= m || Owed(a.outbox, id))
      ensures id in b.raw ==> b.raw[id] == if a.raw[id].receivedAt < m then Redacted(a.raw[id]) else a.raw[id]
    {
      RawTwice(a, s, t, id);
    }
    forall k: nat
      ensures k in b.outbox <==>
        k in a.outbox && !(a.outbox[k].status == Q.Finished && Expired(a.raw, a.outbox[k].item, m))
      ensures k in b.outbox ==> b.outbox[k] == a.outbox[k]
    {
      RowTwice(a, s, t, k);
    }
  }

  // Pruning at two cutoffs, in either order, is pruning at the later one; in
  // particular a second prune at one cutoff does nothing.
  lemma PrunesCompose(a: Archive, early: Time, late: Time)
    requires Linked(a) && early <= late
    ensures Prune(Prune(a, early), late) == Prune(a, late) == Prune(Prune(a, late), early)
  {
    PruneIsExact(a, late);
    TwoPrunes(a, early, late);
    TwoPrunes(a, late, early);
    PrunedIsUnique(a, Prune(Prune(a, early), late), Prune(a, late), late);
    PrunedIsUnique(a, Prune(Prune(a, late), early), Prune(a, late), late);
  }

  // ---- Beside the worker --------------------------------------------------

  // `received` and `enqueued` remember every row ever added (an outbox row with
  // its raw id), `finished` every outbox row ever done, `horizon` the latest cutoff pruned to, and `misses`
  // counts how often the worker found no raw row.
  datatype World = World(
    archive: Archive, clock: Time, received: map<nat, Raw>, enqueued: map<nat, nat>, finished: set<nat>,
    horizon: Option<Time>, misses: nat)

  datatype Act =
    | Receive(id: nat, body: string, headers: string, at: Time)
    | Enqueue(row: nat, id: nat, dead: bool, at: Time)
    | Work(row: nat, outcome: Q.Outcome, at: Time)
    | PruneJob(retention: Time, at: Time)

  const START := World(Archive(map[], map[]), 0, map[], map[], {}, None, 0)

  function Enqueued(outbox: Outbox, row: nat, id: nat, dead: bool, at: Time): Outbox {
    if dead then Q.EnqueueDead(outbox, row, id) else Q.Enqueue(outbox, row, id, at)
  }

  // Row ids are fresh, the clock does not run backwards, and retention is
  // positive; an act without its premise does nothing. Enqueueing under an
  // unknown raw id is refused by the foreign key.
  predicate Allowed(w: World, act: Act) {
    act.at >= w.clock &&
    match act
    case Receive(id, _, _, _) => id !in w.received
    case Enqueue(row, id, _, _) => row !in w.enqueued && id in w.archive.raw
    case Work(row, _, at) => row in w.archive.outbox && Q.Due(w.archive.outbox[row], at)
    case PruneJob(retention, _) => retention > 0
  }

  // The worker looks the raw row up before it calls the processor.
  function Worked(policy: Q.Policy, w: World, row: nat, outcome: Q.Outcome, at: Time): World
    requires row in w.archive.outbox
  {
    var old_ := w.archive.outbox[row];
    var missing := old_.item !in w.archive.raw;
    var new_ := Q.Settle(policy, old_, if missing then Q.Missing else if outcome.Missing? then Q.Raised
      else outcome, at);
    w.(archive := w.archive.(outbox := w.archive.outbox[row := new_]),
       finished := if new_.status == Q.Finished then w.finished + {row} else w.finished,
       misses := w.misses + if missing then 1 else 0)
  }

  function Later(horizon: Option<Time>, cutoff: Time): Time {
    if horizon.Some? then Max(horizon.value, cutoff) else cutoff
  }

  function Step(policy: Q.Policy, w: World, act: Act): World {
    if !Allowed(w, act) then w
    else
      match act
      case Receive(id, body, headers, at) =>
        w.(archive := w.archive.(raw := w.archive.raw[id := Raw(at, body, headers)]),
           received := w.received[id := Raw(at, body, headers)], clock := at)
      case Enqueue(row, id, dead, at) =>
        w.(archive := w.archive.(outbox := Enqueued(w.archive.outbox, row, id, dead, at)),
           enqueued := w.enqueued[row := id], clock := at)
      case Work(row, outcome, at) => Worked(policy, w, row, outcome, at).(clock := at)
      case PruneJob(retention, at) =>
        w.(archive := Prune(w.archive, at - retention), horizon := Some(Later(w.horizon, at - retention)), clock := at)
  }

  function Run(policy: Q.Policy, acts: seq<Act>): World {
    if acts == [] then START else Step(policy, Run(policy, acts[..|acts| - 1]), acts[|acts| - 1])
  }

  predicate Behind(horizon: Option<Time>, time: Time) { horizon.Some? && time < horizon.value }

  predicate EverEnqueued(enqueued: map<nat, nat>, id: nat) { exists k :: k in enqueued && enqueued[k] == id }

  // What retention has done to a raw row by now: nothing until a prune passed
  // its receipt time; after that it is there only if owed, and redacted.
  predicate RawOk(w: World, id: nat)
    requires id in w.received
  {
    if Behind(w.horizon, w.received[id].receivedAt)
    then (id in w.archive.raw ==> w.archive.raw[id] == Redacted(w.received[id]) && EverEnqueued(w.enqueued, id))
    else id in w.archive.raw && w.archive.raw[id] == w.received[id]
  }

  predicate Inv(w: World) {
    && Linked(w.archive) && w.misses == 0
    && (w.horizon.Some? ==> w.horizon.value <= w.clock)
    && w.archive.raw.Keys <= w.received.Keys
    && (forall id :: id in w.received ==> RawOk(w, id))
    && (forall k :: k in w.archive.outbox ==> k in w.enqueued && w.enqueued[k] == w.archive.outbox[k].item)
    && (forall k :: k in w.enqueued ==> k in w.archive.outbox || k in w.finished)
    && w.finished <= w.enqueued.Keys
    && (forall k :: k in w.archive.outbox ==> (k in w.finished <==> w.archive.outbox[k].status == Q.Finished))
  }

  lemma PruneKeepsInv(policy: Q.Policy, w: World, act: Act)
    requires Inv(w) && act.PruneJob? && Allowed(w, act)
    ensures Inv(Step(policy, w, act))
  {
    var g := Step(policy, w, act);
    PruneKeepsLinks(w.archive, act.at - act.retention);
    forall id | id in g.received
      ensures RawOk(g, id)
    {
      assert RawOk(w, id);
    }
  }

  lemma StepKeepsInv(policy: Q.Policy, w: World, act: Act)
    requires Inv(w)
    ensures Inv(Step(policy, w, act))
  {
    if Allowed(w, act) {
      var g := Step(policy, w, act);
      match act
      case Receive(id, _, _, _) =>
        forall other | other in g.received
          ensures RawOk(g, other)
        {
          if other != id { assert RawOk(w, other); }
        }
      case Enqueue(_, _, _, _) =>
        forall id | id in g.received
          ensures RawOk(g, id)
        {
          assert RawOk(w, id);
          if EverEnqueued(w.enqueued, id) {
            var k :| k in w.enqueued && w.enqueued[k] == id;
            assert k in g.enqueued && g.enqueued[k] == id;
          }
        }
      case Work(row, _, _) =>
        assert w.archive.outbox[row].item in w.archive.raw;
        forall id | id in g.received ensures RawOk(g, id) { assert RawOk(w, id); }
      case PruneJob(_, _) => PruneKeepsInv(policy, w, act);
    }
  }

  lemma {:induction false} RunKeepsInv(policy: Q.Policy, acts: seq<Act>)
    ensures Inv(Run(policy, acts))
  {
    if acts != [] {
      RunKeepsInv(policy, acts[..|acts| - 1]);
      StepKeepsInv(policy, Run(policy, acts[..|acts| - 1]), acts[|acts| - 1]);
    }
  }

  // Retention never loses owed work: over any interleaving of ingest, worker
  // and prunes every outbox row has its raw row, so the worker never takes the
  // missing-row branch, and a row only ever leaves the outbox once it is done.
  lemma OwedWorkIsKept(policy: Q.Policy, acts: seq<Act>)
    ensures var w := Run(policy, acts);
      && Linked(w.archive) && w.misses == 0
      && forall k :: k in w.enqueued && k !in w.finished ==>
           k in w.archive.outbox && w.archive.outbox[k].status != Q.Finished
             && w.archive.outbox[k].item in w.archive.raw
  {
    RunKeepsInv(policy, acts);
  }

  // What it does lose is the payload of work that stays unfinished too long: a
  // row still owed reads as it was received if and only if no prune has passed
  // its receipt time, or it arrived reading as redacted. A row redacted while
  // pending is later processed as the marker text.
  lemma OwedPayloadIntactIff(policy: Q.Policy, acts: seq<Act>, k: nat)
    requires var w := Run(policy, acts); k in w.archive.outbox && w.archive.outbox[k].status != Q.Finished
    ensures var w := Run(policy, acts); var id := w.archive.outbox[k].item;
      && id in w.received && id in w.archive.raw
      && (w.archive.raw[id] == w.received[id] <==>
            !Behind(w.horizon, w.received[id].receivedAt) || w.received[id].body == REDACTED_BODY)
      && (Behind(w.horizon, w.received[id].receivedAt) ==> w.archive.raw[id].body == REDACTED_BODY)
  {
    RunKeepsInv(policy, acts);
    var w := Run(policy, acts);
    assert RawOk(w, w.archive.outbox[k].item);
  }

  // A webhook archived and not yet enqueued is still there, as received, if
  // and only if no prune has passed it: the crash window between the two calls
  // is safe for exactly the retention period.
  lemma ArchivedIsThereIff(policy: Q.Policy, acts: seq<Act>, id: nat)
    requires var w := Run(policy, acts); id in w.received && !EverEnqueued(w.enqueued, id)
    ensures var w := Run(policy, acts);
      && (id in w.archive.raw <==> !Behind(w.horizon, w.received[id].receivedAt))
      && (id in w.archive.raw ==> w.archive.raw[id] == w.received[id])
  {
    RunKeepsInv(policy, acts);
    assert RawOk(Run(policy, acts), id);
  }
}
