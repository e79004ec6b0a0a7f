/** Reconcile does nothing twice: polling an unchanged answer again is silent,
    and a download is stored at most once.
 */
module ReconcileQuiet {
  import opened Types
  import opened Events
  import opened Correlate
  import opened Reconcile
  import opened ReconcileSafety
  import Repair = ReconcileRepair
  import Arr

  // ---- Polling the same answer again -------------------------------------

  // Every item is stored, or one of the guards knows its twin.
  ghost predicate AllStored(events: map<string, EventRow>, items: seq<Item>) {
    forall i :: 0 <= i < |items| ==> Repair.Stored(events, items[i])
  }

  lemma StoredStays(events: map<string, EventRow>, later: map<string, EventRow>, items: seq<Item>)
    requires Grows(events, later) && AllStored(events, items)
    ensures AllStored(later, items)
  {
    forall i | 0 <= i < |items|
      ensures Repair.Stored(later, items[i])
    {
      assert Repair.Stored(events, items[i]);
    }
  }

  // Nothing reconcile stored for the source was received after this time.
  predicate NothingAfter(events: map<string, EventRow>, source: string, time: Time) {
    forall k :: k in events && events[k].origin == Origin.Reconcile && events[k].source == source ==>
      events[k].receivedAt <= time
  }

  // Any schedule in which this source keeps getting this answer; other sources
  // get what they get.
  predicate Repeats(names: set<string>, source: string, items: seq<Item>, act: Act) {
    Legal(names, act) && (act.Begin? && act.source == source ==> act.items == items)
  }

  // No ledger row was made by a run of the source in between.
  predicate NoneBy(source: string, was: seq<Fanned>, now: seq<Fanned>) {
    was <= now && forall i :: |was| <= i < |now| ==> now[i].source != source
  }

  ghost predicate QuietPhase(p: Phase, events: map<string, EventRow>, names: set<string>, source: string) {
    match p
    case Scan(todo) => AllStored(events, todo) && ItemsOwn(names, source, todo)
    case Guard(item, rest) =>
      (TwinStored(events, item) || NearDelete(item)) && AllStored(events, rest) && ItemsOwn(names, source, rest)
    case Gap => true
    case Finish => true
    case _ => false
  }

  ghost predicate QuietRun(names: set<string>, source: string, run: Run, cursor: Time, events: map<string, EventRow>) {
    run.recovered == 0 && run.windowStart == cursor && QuietPhase(run.phase, events, names, source)
  }

  ghost predicate Quiet(names: set<string>, source: string, items: seq<Item>, was: World, w: World) {
    && Safe(names, w) && NoneBy(source, was.fanned, w.fanned)
    && source in names && AllStored(w.tables.events, items)
    && source in w.cursors && NothingAfter(w.tables.events, source, w.cursors[source])
    && (w.run.Some? && w.run.value.source == source ==>
          QuietRun(names, source, w.run.value, w.cursors[source], w.tables.events))
  }

  lemma ScanIsQuiet(config: Config, names: set<string>, run: Run, events: map<string, EventRow>, engaged: bool)
    requires GoodNames(names) && run.source in names && RowsNamed(names, events)
    requires NothingAfter(events, run.source, run.windowStart) && run.recovered == 0
    requires QuietPhase(run.phase, events, names, run.source) && !run.phase.Finish?
    ensures var r := ReadTick(config, run, events, engaged);
      r.recovered == 0 && QuietPhase(r.phase, events, names, run.source)
  {
    match run.phase
    case Scan(todo) =>
      if todo != [] && todo[0].event.key in events {
        PrefixDecides(todo[0].event.key, events[todo[0].event.key].source, run.source);
      }
    case Gap =>
      var newest := NewestMarker(events, run.source);
      if newest.Some? { MarkersAreOwn(names, run.source, newest.value, events[newest.value]); }
    case Guard(_, _) =>
  }

  lemma QuietPhaseStays(p: Phase, events: map<string, EventRow>, later: map<string, EventRow>, names: set<string>,
                        source: string)
    requires QuietPhase(p, events, names, source) && Grows(events, later)
    ensures QuietPhase(p, later, names, source)
  {
    match p
    case Scan(todo) => StoredStays(events, later, todo);
    case Guard(item, rest) =>
      StoredStays(events, later, rest);
    case _ =>
  }

  // A tick of the source's own run: it reads, or it ends and moves the cursor.
  lemma OwnTickIsQuiet(config: Config, names: set<string>, source: string, items: seq<Item>, was: World, w: World)
    requires Clear(config, names) && Quiet(names, source, items, was, w) && w.run.Some? && w.run.value.source == source
    ensures Quiet(names, source, items, was, TickWorld(config, w))
  {
    var run := w.run.value;
    StepIsSafe(config, names, w, Tick);
    if !run.phase.Finish? {
      ScanIsQuiet(config, names, run, w.tables.events, w.engaged);
      ReadKeepsRun(config, run, w.tables.events, w.engaged);
      assert TickWorld(config, w) == w.(run := Some(ReadTick(config, run, w.tables.events, w.engaged)));
    }
  }

  // What a tick of another source's run leaves alone.
  ghost predicate Elsewhere(source: string, w: World, g: World) {
    && source in w.cursors && source in g.cursors && g.cursors[source] == w.cursors[source]
    && Grows(w.tables.events, g.tables.events) && NothingAfter(g.tables.events, source, w.cursors[source])
    && NoneBy(source, w.fanned, g.fanned) && (g.run.Some? ==> g.run.value.source != source)
  }

  lemma ApplyElsewhere(config: Config, names: set<string>, source: string, w: World)
    requires Safe(names, w) && source in w.cursors && NothingAfter(w.tables.events, source, w.cursors[source])
    requires w.run.Some? && w.run.value.source != source && w.run.value.phase.Apply? && w.run.value.phase.calls != []
    ensures Elsewhere(source, w, TickWorld(config, w))
  {
    ExecGrows(config, Frame(w.tables, w.run.value.phase.mediaId), w.run.value.phase.calls[0]);
  }

  lemma FanElsewhere(config: Config, source: string, w: World)
    requires source in w.cursors && NothingAfter(w.tables.events, source, w.cursors[source])
    requires w.run.Some? && w.run.value.source != source
    requires w.run.value.phase.FanOut? && w.run.value.phase.channels != []
    ensures Elsewhere(source, w, TickWorld(config, w))
  {
  }

  lemma ReadElsewhere(config: Config, source: string, w: World)
    requires source in w.cursors && NothingAfter(w.tables.events, source, w.cursors[source])
    requires w.run.Some? && w.run.value.source != source && (w.run.value.phase.Finish? || OnlyReads(w.run.value.phase))
    ensures Elsewhere(source, w, TickWorld(config, w))
  {
    var run := w.run.value;
    if !run.phase.Finish? { ReadKeepsRun(config, run, w.tables.events, w.engaged); }
  }

  lemma ElsewhereIsQuiet(names: set<string>, source: string, items: seq<Item>, was: World, w: World, g: World)
    requires Quiet(names, source, items, was, w) && Elsewhere(source, w, g) && Safe(names, g)
    ensures Quiet(names, source, items, was, g)
  {
    StoredStays(w.tables.events, g.tables.events, items);
  }

  // A tick of another source's run.
  lemma OtherTickIsQuiet(config: Config, names: set<string>, source: string, items: seq<Item>, was: World, w: World)
    requires Clear(config, names) && Quiet(names, source, items, was, w) && w.run.Some? && w.run.value.source != source
    ensures Quiet(names, source, items, was, TickWorld(config, w))
  {
    var p := w.run.value.phase;
    StepIsSafe(config, names, w, Tick);
    if p.Apply? && p.calls != [] {
      ApplyElsewhere(config, names, source, w);
    } else if p.FanOut? && p.channels != [] {
      FanElsewhere(config, source, w);
    } else {
      ReadElsewhere(config, source, w);
    }
    ElsewhereIsQuiet(names, source, items, was, w, TickWorld(config, w));
  }

  lemma OutsideIsQuiet(config: Config, names: set<string>, source: string, items: seq<Item>, was: World, w: World,
                       act: Act)
    requires Clear(config, names) && Quiet(names, source, items, was, w) && act.Outside? && Legal(names, act)
    ensures Quiet(names, source, items, was, Step(config, w, act))
  {
    StepIsSafe(config, names, w, act);
    ExecGrows(config, Frame(w.tables, act.mediaId), act.call);
    var later := Step(config, w, act).tables.events;
    StoredStays(w.tables.events, later, items);
    if w.run.Some? && w.run.value.source == source {
      QuietPhaseStays(w.run.value.phase, w.tables.events, later, names, source);
    }
  }

  lemma BeginIsQuiet(config: Config, names: set<string>, source: string, items: seq<Item>, was: World, w: World,
                     act: Act)
    requires Clear(config, names) && Quiet(names, source, items, was, w) && act.Begin?
      && Repeats(names, source, items, act)
    ensures Quiet(names, source, items, was, Step(config, w, act))
  {
    StepIsSafe(config, names, w, act);
  }

  lemma StepIsQuiet(config: Config, names: set<string>, source: string, items: seq<Item>, was: World, w: World,
                    act: Act)
    requires Clear(config, names) && Quiet(names, source, items, was, w) && Repeats(names, source, items, act)
    ensures Quiet(names, source, items, was, Step(config, w, act))
  {
    match act
    case Begin(_, _, _, _) => BeginIsQuiet(config, names, source, items, was, w, act);
    case Outside(_, _) => OutsideIsQuiet(config, names, source, items, was, w, act);
    case Tick =>
      if w.run.Some? {
        if w.run.value.source == source {
          OwnTickIsQuiet(config, names, source, items, was, w);
        } else {
          OtherTickIsQuiet(config, names, source, items, was, w);
        }
      }
    case Crash => StepIsSafe(config, names, w, act);
    case Flip(_) => StepIsSafe(config, names, w, act);
  }

  lemma {:induction false} StepsAreQuiet(config: Config, names: set<string>, source: string, items: seq<Item>,
                                         was: World, acts: seq<Act>)
    requires Clear(config, names) && Quiet(names, source, items, was, was)
    requires forall i :: 0 <= i < |acts| ==> Repeats(names, source, items, acts[i])
    ensures Quiet(names, source, items, was, Steps(config, was, acts))
  {
    if acts != [] {
      StepsAreQuiet(config, names, source, items, was, acts[..|acts| - 1]);
      StepIsQuiet(config, names, source, items, was, Steps(config, was, acts[..|acts| - 1]), acts[|acts| - 1]);
    }
  }

  // The moment a run on this answer has moved its cursor.
  lemma CompletedIsQuiet(config: Config, names: set<string>, source: string, items: seq<Item>, w: World)
    requires Clear(config, names) && Safe(names, w) && w.run.Some? && w.run.value.phase.Finish?
      && w.run.value.source == source
    requires AllStored(w.tables.events, items)
    ensures Quiet(names, source, items, TickWorld(config, w), TickWorld(config, w))
  {
    StepIsSafe(config, names, w, Tick);
  }

  // Once a run on an answer has completed, every later run of that source on the
  // same answer, crashed or not, with ingest, switch flips and runs of every
  // other source in between, recovers nothing and makes no ledger row.
  lemma SameAnswerIsSilent(config: Config, names: set<string>, first: seq<Act>, later: seq<Act>)
    requires Clear(config, names) && forall i :: 0 <= i < |first| ==> Legal(names, first[i])
    requires var w := Steps(config, Empty(BLANK), first); w.run.Some? && w.run.value.phase.Finish?
    requires var run := Steps(config, Empty(BLANK), first).run.value;
      forall i :: 0 <= i < |later| ==> Repeats(names, run.source, run.items, later[i])
    ensures var source := Steps(config, Empty(BLANK), first).run.value.source;
      var was := TickWorld(config, Steps(config, Empty(BLANK), first));
      var w := Steps(config, was, later);
      && NoneBy(source, was.fanned, w.fanned)
      && (w.run.Some? && w.run.value.source == source ==> w.run.value.recovered == 0)
  {
    var w := Steps(config, Empty(BLANK), first);
    var run := w.run.value;
    StepsAreSafe(config, names, first);
    Repair.CompletedRunIsComplete(config, BLANK, first);
    CompletedIsQuiet(config, names, run.source, run.items, w);
    StepsAreQuiet(config, names, run.source, run.items, TickWorld(config, w), later);
  }

  // ---- One event per download --------------------------------------------

  predicate SameDownload(q: Arr.Record, r: Arr.Record) {
    && TruthyText(q.downloadId) && q.downloadId == r.downloadId
    && Arr.RecordType(q).Some? && Arr.RecordType(q) == Arr.RecordType(r) && Arr.MediaKey(q) == Arr.MediaKey(r)
  }

  predicate Unstored(stored: set<(string, Arr.Record)>, source: string, r: Arr.Record) {
    forall x :: x in stored && x.0 == source ==> !SameDownload(x.1, r)
  }

  predicate HasRecord(source: string, e: Event, record: Option<Arr.Record>) {
    record.Some? ==> NoColon(source) && Arr.RecordEvent(source, record.value) == Some(e)
  }

  predicate RecordsOk(source: string, items: seq<Item>) {
    forall i :: 0 <= i < |items| ==> HasRecord(source, items[i].event, items[i].record)
  }

  predicate DownloadPhase(run: Run, stored: set<(string, Arr.Record)>) {
    RecordsOk(run.source, Repair.Pending(run.phase)) &&
    match run.phase
    case Apply(e, record, _, calls, _, _, _) =>
      && HasRecord(run.source, e, record)
      && (forall i :: 0 <= i < |calls| && calls[i].InsertEvent? ==> calls[i].event == e)
      && InsertsOnce(calls)
      && (record.Some? && Inserts(calls) ==> Unstored(stored, run.source, record.value))
    case _ => true
  }

  predicate OnePerDownload(stored: set<(string, Arr.Record)>) {
    forall x, y :: x in stored && y in stored && x.0 == y.0 && SameDownload(x.1, y.1) ==> x == y
  }

  predicate DownloadsOk(w: World) {
    && (forall x :: x in w.stored ==>
          NoColon(x.0) && Arr.RecordType(x.1).Some? && Arr.RecordKey(x.0, x.1) in w.tables.events)
    && OnePerDownload(w.stored)
    && (w.run.Some? ==> DownloadPhase(w.run.value, w.stored))
  }

  lemma DownloadIsTwin(events: map<string, EventRow>, source: string, q: Arr.Record, item: Item)
    requires NoColon(source) && Arr.RecordType(q).Some? && Arr.RecordKey(source, q) in events
    requires item.record.Some? && HasRecord(source, item.event, item.record) && SameDownload(q, item.record.value)
    ensures TwinStored(events, item)
  {
    var r := item.record.value;
    var d := Arr.Download(source, Arr.RecordType(r).value, Arr.MediaKey(r), r.downloadId.value);
    Arr.RecordsOfOneDownloadMatch(source, q, r, d);
  }

  // The pattern check sees every record of the download stored so far.
  lemma GuardSeesDownload(events: map<string, EventRow>, stored: set<(string, Arr.Record)>, source: string, item: Item)
    requires forall x :: x in stored ==> NoColon(x.0) && Arr.RecordType(x.1).Some? && Arr.RecordKey(x.0, x.1) in events
    requires item.record.Some? && HasRecord(source, item.event, item.record) && !TwinStored(events, item)
    ensures Unstored(stored, source, item.record.value)
  {
    forall x | x in stored && x.0 == source
      ensures !SameDownload(x.1, item.record.value)
    {
      if SameDownload(x.1, item.record.value) { DownloadIsTwin(events, source, x.1, item); }
    }
  }

  lemma ApplyKeepsDownloads(config: Config, w: World)
    requires DownloadsOk(w) && w.run.Some? && w.run.value.phase.Apply? && w.run.value.phase.calls != []
    ensures DownloadsOk(TickWorld(config, w))
  {
    var g, p := TickWorld(config, w), w.run.value.phase;
    var c, rest := p.calls[0], p.calls[1..];
    ExecGrows(config, Frame(w.tables, p.mediaId), c);
    assert g.run.value.phase.calls == rest;
    assert forall i :: 0 <= i < |rest| ==> rest[i] == p.calls[i + 1];
    if c.InsertEvent? {
      assert forall i :: 0 <= i < |rest| ==> !rest[i].InsertEvent?;
      assert p.record.Some? ==> Unstored(w.stored, w.run.value.source, p.record.value);
    } else {
      assert g.stored == w.stored;
    }
  }

  lemma GuardKeepsDownloads(config: Config, run: Run, events: map<string, EventRow>, stored: set<(string, Arr.Record)>,
                            engaged: bool)
    requires forall x :: x in stored ==> NoColon(x.0) && Arr.RecordType(x.1).Some? && Arr.RecordKey(x.0, x.1) in events
    requires DownloadPhase(run, stored) && run.phase.Guard?
    ensures DownloadPhase(ReadTick(config, run, events, engaged), stored)
  {
    var item, rest := run.phase.item, run.phase.rest;
    ApplyCallsInsert(item.event, run.now);
    ApplyInsertsOnce(item.event, run.now);
    assert Repair.Pending(run.phase)[0] == item && Repair.Pending(run.phase)[1..] == rest;
    if item.record.Some? && !TwinStored(events, item) {
      GuardSeesDownload(events, stored, run.source, item);
    }
  }

  lemma OtherReadsKeepDownloads(config: Config, run: Run, events: map<string, EventRow>,
                                stored: set<(string, Arr.Record)>, engaged: bool)
    requires DownloadPhase(run, stored) && OnlyReads(run.phase) && !run.phase.Guard? && !run.phase.Gap?
    ensures DownloadPhase(ReadTick(config, run, events, engaged), stored)
  {
  }

  lemma GapKeepsDownloads(config: Config, run: Run, events: map<string, EventRow>, stored: set<(string, Arr.Record)>,
                          engaged: bool)
    requires DownloadPhase(run, stored) && run.phase.Gap?
    ensures DownloadPhase(ReadTick(config, run, events, engaged), stored)
  {
    ApplyCallsInsert(Marker(run), run.now);
    ApplyInsertsOnce(Marker(run), run.now);
    GapHasNoRecord(config, run, events, engaged);
  }

  lemma GapHasNoRecord(config: Config, run: Run, events: map<string, EventRow>, engaged: bool)
    requires run.phase.Gap?
    ensures var p := ReadTick(config, run, events, engaged).phase;
      Repair.Pending(p) == [] && (p.Apply? ==> p == StartApply(Marker(run), None, run.now, p.known, p.next))
  {
  }

  lemma ReadKeepsDownloads(config: Config, w: World)
    requires DownloadsOk(w) && w.run.Some? && OnlyReads(w.run.value.phase)
    ensures DownloadsOk(TickWorld(config, w))
  {
    var run := w.run.value;
    if run.phase.Guard? { GuardKeepsDownloads(config, run, w.tables.events, w.stored, w.engaged); }
    else if run.phase.Gap? { GapKeepsDownloads(config, run, w.tables.events, w.stored, w.engaged); }
    else { OtherReadsKeepDownloads(config, run, w.tables.events, w.stored, w.engaged); }
    assert TickWorld(config, w) == w.(run := Some(ReadTick(config, run, w.tables.events, w.engaged)));
  }

  lemma StepKeepsDownloads(config: Config, names: set<string>, w: World, act: Act)
    requires ColonFree(names) && Legal(names, act) && DownloadsOk(w)
    ensures DownloadsOk(Step(config, w, act))
  {
    match act
    case Begin(_, _, _, _) =>
    case Outside(c, mediaId) => ExecGrows(config, Frame(w.tables, mediaId), c);
    case Crash =>
    case Flip(_) =>
    case Tick =>
      if w.run.Some? && !w.run.value.phase.Finish? {
        var p := w.run.value.phase;
        if p.Apply? && p.calls != [] { ApplyKeepsDownloads(config, w); }
        else if OnlyReads(p) { ReadKeepsDownloads(config, w); }
      }
  }

  // Over all runs and whatever ingest does in between, no two history records
  // of one download (source, type, media, download id) are both stored as events.
  lemma {:induction false} OneEventPerDownload(config: Config, names: set<string>, acts: seq<Act>)
    requires ColonFree(names) && forall i :: 0 <= i < |acts| ==> Legal(names, acts[i])
    ensures DownloadsOk(Steps(config, Empty(BLANK), acts))
  {
    if acts != [] {
      OneEventPerDownload(config, names, acts[..|acts| - 1]);
      StepKeepsDownloads(config, names, Steps(config, Empty(BLANK), acts[..|acts| - 1]), acts[|acts| - 1]);
    }
  }
}
