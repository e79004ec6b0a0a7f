/** The digest job: which window each digest covers, and what is counted in it. */
module Digest {
  import opened Types
  import opened Events
  import opened Correlate
  import Chains
  import Timestamps
  import Q = WorkQueue

  // Half-open, as every aggregate query reads it.
  datatype Window = Window(since: Time, until: Time)

  const DEFAULT_PERIOD: Time := 604_800_000_000
  const MIN_PERIOD: Time := 3_600_000_000

  // The bounds are printed into the ledger key.
  function DigestKey(w: Window): string {
    "digest:" + (Timestamps.TimeText(w.since) + "|" + Timestamps.TimeText(w.until))
  }

  lemma DigestKeyInjective(v: Window, w: Window)
    requires DigestKey(v) == DigestKey(w)
    ensures v == w
  {
    var a, b := Timestamps.TimeText(v.since), Timestamps.TimeText(w.since);
    var x, y := Timestamps.TimeText(v.until), Timestamps.TimeText(w.until);
    assert a + "|" + x == DigestKey(v)[7..] && b + "|" + y == DigestKey(w)[7..];
    Timestamps.TimeTextHasNoBar(v.since);
    Timestamps.TimeTextHasNoBar(w.since);
    BarSplits(a, x, b, y);
    Timestamps.TimeTextInjective(v.since, w.since);
    Timestamps.TimeTextInjective(v.until, w.until);
  }

  // The send worker recovers the window from the key.
  lemma DigestKeyReadsBack(w: Window)
    requires Timestamps.Dated(w.since) && Timestamps.Dated(w.until)
    ensures var read := Timestamps.ParseDigestKey(DigestKey(w));
      read.Some? && Timestamps.Instant(read.value.since) == w.since && Timestamps.Instant(read.value.until) == w.until
  {
    Timestamps.DigestKeyRoundTrip(Timestamps.Bounds(Timestamps.StampOf(w.since), Timestamps.StampOf(w.until)));
    Timestamps.StampDenotes(w.since);
    Timestamps.StampDenotes(w.until);
  }

  lemma KeysDiffer(v: Window, w: Window)
    requires v != w
    ensures DigestKey(v) != DigestKey(w)
  {
    if DigestKey(v) == DigestKey(w) { DigestKeyInjective(v, w); }
  }

  lemma BarSplits(a: string, x: string, b: string, y: string)
    requires Timestamps.NoBar(a) && Timestamps.NoBar(b) && a + "|" + x == b + "|" + y
    ensures a == b && x == y
  {
    Timestamps.FirstBar(a, x);
    Timestamps.FirstBar(b, y);
  }

  // ---- run_digest ---------------------------------------------------------

  // A recorded window, and the ledger row made for it unless the switch
  // suppressed it.
  datatype Entry = Entry(window: Window, row: Option<NoteKey>)

  // `entries` remembers every cursor ever recorded and `lost` the rows whose
  // run died before recording its cursor; the program keeps neither.
  datatype State = State(ledger: map<NoteKey, Note>, cursor: Option<Window>, entries: seq<Entry>, lost: seq<NoteKey>)

  // `dies` is a process death after the enqueue and before the cursor is set.
  datatype Call = Call(channel: Option<string>, engaged: bool, now: Time, dies: bool)

  function Period(cursor: Option<Window>, now: Time): Window {
    Window(if cursor.Some? then cursor.value.until else now - DEFAULT_PERIOD, now)
  }

  predicate Skips(s: State, c: Call) {
    !TruthyText(c.channel) || c.now - Period(s.cursor, c.now).since < MIN_PERIOD
  }

  function Recorded(s: State, e: Entry): State { s.(cursor := Some(e.window), entries := s.entries + [e]) }

  function KeyFor(s: State, c: Call): NoteKey
    requires c.channel.Some?
  {
    NoteKey(DigestKey(Period(s.cursor, c.now)), c.channel.value)
  }

  function RunDigest(s: State, c: Call): State {
    var w := Period(s.cursor, c.now);
    if Skips(s, c) then s
    else if c.engaged then Recorded(s, Entry(w, None))
    else
      var key := KeyFor(s, c);
      if key in s.ledger then s
      else
        var s' := s.(ledger := Q.Enqueue(s.ledger, key, (), c.now));
        if c.dies then s'.(lost := s.lost + [key]) else Recorded(s', Entry(w, Some(key)))
  }

  function RunAll(s: State, calls: seq<Call>): State {
    if calls == [] then s else RunDigest(RunAll(s, calls[..|calls| - 1]), calls[|calls| - 1])
  }

  function Fresh(ledger: map<NoteKey, Note>): State { State(ledger, None, [], []) }

  // ---- Windows tile time --------------------------------------------------

  // Each window starts where the one before ended and lasts at least an hour.
  predicate Tiles(windows: seq<Window>) {
    && (forall i :: 0 <= i < |windows| ==> windows[i].since + HOUR <= windows[i].until)
    && (forall i :: 0 < i < |windows| ==> windows[i - 1].until == windows[i].since)
  }

  function Windows(entries: seq<Entry>): seq<Window> {
    seq(|entries|, i requires 0 <= i < |entries| => entries[i].window)
  }

  predicate EndsAt(windows: seq<Window>, cursor: Option<Window>) {
    cursor == if windows == [] then None else Some(windows[|windows| - 1])
  }

  lemma TilesAppend(windows: seq<Window>, w: Window)
    requires Tiles(windows) && w.since + MIN_PERIOD <= w.until
    requires windows != [] ==> windows[|windows| - 1].until == w.since
    ensures Tiles(windows + [w])
  {
  }

  lemma WindowsAppend(entries: seq<Entry>, e: Entry)
    ensures Windows(entries + [e]) == Windows(entries) + [e.window]
  {
  }

  lemma RunTiles(s: State, c: Call)
    requires Tiles(Windows(s.entries)) && EndsAt(Windows(s.entries), s.cursor)
    ensures var g := RunDigest(s, c); Tiles(Windows(g.entries)) && EndsAt(Windows(g.entries), g.cursor)
  {
    var g, w := RunDigest(s, c), Period(s.cursor, c.now);
    if g.entries != s.entries {
      var e := Entry(w, if c.engaged then None else Some(KeyFor(s, c)));
      assert g.entries == s.entries + [e];
      TilesAppend(Windows(s.entries), w);
      WindowsAppend(s.entries, e);
    }
  }

  // Whatever the clock, the switch and the deaths do, the recorded windows tile
  // time and the cursor is the last of them.
  lemma {:induction false} WindowsTile(ledger: map<NoteKey, Note>, calls: seq<Call>)
    ensures var s := RunAll(Fresh(ledger), calls); Tiles(Windows(s.entries)) && EndsAt(Windows(s.entries), s.cursor)
  {
    if calls == [] {
      assert Windows(Fresh(ledger).entries) == [];
    } else {
      WindowsTile(ledger, calls[..|calls| - 1]);
      RunTiles(RunAll(Fresh(ledger), calls[..|calls| - 1]), calls[|calls| - 1]);
    }
  }

  lemma {:induction false} TilesAreDisjoint(windows: seq<Window>, i: nat, j: nat)
    requires Tiles(windows) && i < j < |windows|
    ensures windows[i].until <= windows[j].since
  {
    if i + 1 < j { TilesAreDisjoint(windows, i, j - 1); }
  }

  // ---- Rows and windows ---------------------------------------------------

  predicate HasRow(entries: seq<Entry>, key: NoteKey) {
    exists i :: 0 <= i < |entries| && entries[i].row == Some(key)
  }

  // The rows are those of the recorded windows and those of the runs that died,
  // and no row is both.
  ghost predicate Accounted(ledger: map<NoteKey, Note>, s: State) {
    && (forall key :: key in s.ledger <==> key in ledger || HasRow(s.entries, key) || key in s.lost)
    && (forall key :: key in s.lost ==> !HasRow(s.entries, key) && key !in ledger)
  }

  lemma RecordKeeps(ledger: map<NoteKey, Note>, s: State, e: Entry, key: NoteKey)
    ensures HasRow(s.entries + [e], key) <==> HasRow(s.entries, key) || e.row == Some(key)
  {
    var after := s.entries + [e];
    assert forall i :: 0 <= i < |s.entries| ==> after[i] == s.entries[i];
    assert after[|s.entries|] == e;
  }

  lemma {:induction false} RowsAccounted(ledger: map<NoteKey, Note>, calls: seq<Call>)
    ensures Accounted(ledger, RunAll(Fresh(ledger), calls))
  {
    if calls != [] {
      RowsAccounted(ledger, calls[..|calls| - 1]);
      var s, c := RunAll(Fresh(ledger), calls[..|calls| - 1]), calls[|calls| - 1];
      if !Skips(s, c) {
        var e := Entry(Period(s.cursor, c.now), if c.engaged then None else Some(KeyFor(s, c)));
        forall key: NoteKey
          ensures HasRow(s.entries + [e], key) <==> HasRow(s.entries, key) || e.row == Some(key)
        {
          RecordKeeps(ledger, s, e, key);
        }
      }
    }
  }

  predicate Uninterrupted(calls: seq<Call>) { forall i :: 0 <= i < |calls| ==> !calls[i].dies }

  lemma {:induction false} NothingLost(ledger: map<NoteKey, Note>, calls: seq<Call>)
    requires Uninterrupted(calls)
    ensures RunAll(Fresh(ledger), calls).lost == []
  {
    if calls != [] { NothingLost(ledger, calls[..|calls| - 1]); }
  }

  // The rows enqueued are exactly those of the recorded, unsuppressed windows,
  // which tile time, if and only if no run died between the enqueue and the
  // cursor. Uninterrupted runs never lose a window.
  lemma RowsAreTheWindowsIff(ledger: map<NoteKey, Note>, calls: seq<Call>)
    ensures var s := RunAll(Fresh(ledger), calls);
      && ((forall key :: key in s.ledger ==> key in ledger || HasRow(s.entries, key)) <==> s.lost == [])
      && (forall key :: key in ledger || HasRow(s.entries, key) ==> key in s.ledger)
      && (Uninterrupted(calls) ==> s.lost == [])
  {
    RowsAccounted(ledger, calls);
    var s := RunAll(Fresh(ledger), calls);
    if s.lost != [] { assert s.lost[0] in s.lost; }
    if Uninterrupted(calls) { NothingLost(ledger, calls); }
  }

  // The ledger row of a window carries its bounds, and belongs to no other.
  predicate Named(entries: seq<Entry>) {
    forall i :: 0 <= i < |entries| && entries[i].row.Some? ==>
      entries[i].row.value.eventKey == DigestKey(entries[i].window)
  }

  lemma {:induction false} RowsNameTheirWindows(ledger: map<NoteKey, Note>, calls: seq<Call>)
    ensures Named(RunAll(Fresh(ledger), calls).entries)
  {
    if calls != [] {
      RowsNameTheirWindows(ledger, calls[..|calls| - 1]);
      RunKeepsNames(RunAll(Fresh(ledger), calls[..|calls| - 1]), calls[|calls| - 1]);
    }
  }

  lemma RunKeepsNames(s: State, c: Call)
    requires Named(s.entries)
    ensures Named(RunDigest(s, c).entries)
  {
    if !Skips(s, c) {
      NamedMore(s.entries, Entry(Period(s.cursor, c.now), if c.engaged then None else Some(KeyFor(s, c))));
    }
  }

  lemma NamedMore(entries: seq<Entry>, e: Entry)
    requires Named(entries) && (e.row.Some? ==> e.row.value.eventKey == DigestKey(e.window))
    ensures Named(entries + [e])
  {
  }

  predicate NoDigests(ledger: map<NoteKey, Note>) {
    forall key :: key in ledger ==> !("digest:" <= key.eventKey)
  }

  // A window that starts where all the others have ended is none of them.
  lemma NextWindowIsNew(windows: seq<Window>, w: Window, i: nat)
    requires Tiles(windows) && i < |windows| && windows[|windows| - 1].until == w.since
    ensures windows[i] != w
  {
    var last := |windows| - 1;
    assert windows[i].since + MIN_PERIOD <= windows[i].until;
    if i < last { TilesAreDisjoint(windows, i, last); }
  }

  lemma OtherWindowOtherRow(e: Entry, w: Window, key: NoteKey)
    requires e.window != w && key.eventKey == DigestKey(w)
    requires e.row.Some? ==> e.row.value.eventKey == DigestKey(e.window)
    ensures e.row != Some(key)
  {
    KeysDiffer(e.window, w);
  }

  lemma EntryIsOther(entries: seq<Entry>, w: Window, i: nat)
    requires Tiles(Windows(entries)) && i < |entries| && entries[|entries| - 1].window.until == w.since
    ensures entries[i].window != w
  {
    var ws := Windows(entries);
    assert ws[i] == entries[i].window && ws[|ws| - 1] == entries[|entries| - 1].window;
    NextWindowIsNew(ws, w, i);
  }

  lemma NewWindowHasNoRow(entries: seq<Entry>, w: Window, key: NoteKey)
    requires Tiles(Windows(entries)) && Named(entries) && key.eventKey == DigestKey(w)
    requires entries != [] ==> entries[|entries| - 1].window.until == w.since
    ensures !HasRow(entries, key)
  {
    if HasRow(entries, key) {
      var i :| 0 <= i < |entries| && entries[i].row == Some(key);
      EntryIsOther(entries, w, i);
      OtherWindowOtherRow(entries[i], w, key);
    }
  }

  // Without deaths the deduplicated branch is never taken: a run that is not
  // skipped or suppressed always creates its row and advances the cursor.
  lemma DueDigestIsCreated(ledger: map<NoteKey, Note>, calls: seq<Call>, c: Call)
    requires Uninterrupted(calls) && NoDigests(ledger)
    requires var s := RunAll(Fresh(ledger), calls); !Skips(s, c) && !c.engaged
    ensures KeyFor(RunAll(Fresh(ledger), calls), c) !in RunAll(Fresh(ledger), calls).ledger
  {
    var s := RunAll(Fresh(ledger), calls);
    RowsAreTheWindowsIff(ledger, calls);
    WindowsTile(ledger, calls);
    RowsNameTheirWindows(ledger, calls);
    NextKeyHasNoRow(s, c);
    KeyIsDigest(Period(s.cursor, c.now));
  }

  lemma KeyIsDigest(w: Window)
    ensures "digest:" <= DigestKey(w)
  {
  }

  lemma NextKeyHasNoRow(s: State, c: Call)
    requires Tiles(Windows(s.entries)) && EndsAt(Windows(s.entries), s.cursor) && Named(s.entries) && c.channel.Some?
    ensures !HasRow(s.entries, KeyFor(s, c))
  {
    var ws := Windows(s.entries);
    if s.entries != [] { assert ws[|ws| - 1] == s.entries[|s.entries| - 1].window; }
    NewWindowHasNoRow(s.entries, Period(s.cursor, c.now), KeyFor(s, c));
  }

  // ---- Digests of the same time ---------------------------------------------

  predicate Inside(time: Time, w: Window) { w.since <= time < w.until }

  ghost predicate Overlap(v: Window, w: Window) { exists time: Time :: Inside(time, v) && Inside(time, w) }

  lemma OverlapIff(v: Window, w: Window)
    ensures Overlap(v, w) <==> Max(v.since, w.since) < Min(v.until, w.until)
  {
    if Max(v.since, w.since) < Min(v.until, w.until) {
      assert Inside(Max(v.since, w.since), v) && Inside(Max(v.since, w.since), w);
    }
  }

  // The run creates a ledger row, that of its window.
  predicate Makes(s: State, c: Call) { !Skips(s, c) && !c.engaged && KeyFor(s, c) !in s.ledger }

  function WindowOf(s: State, c: Call): Window { Period(s.cursor, c.now) }

  // Two digests made one after the other cover a time twice if and only if the
  // first run died before recording its cursor and, without a cursor, the two
  // runs are less than seven days apart.
  lemma NextRowOverlapsIff(s: State, first: Call, next: Call)
    requires Makes(s, first) && Makes(RunDigest(s, first), next)
    ensures Overlap(WindowOf(s, first), WindowOf(RunDigest(s, first), next)) <==>
      first.dies && (s.cursor.Some? || -7 * DAY < next.now - first.now < 7 * DAY)
  {
    OverlapIff(WindowOf(s, first), WindowOf(RunDigest(s, first), next));
  }

  function Before(ledger: map<NoteKey, Note>, calls: seq<Call>, i: nat): State
    requires i <= |calls|
  {
    RunAll(Fresh(ledger), calls[..i])
  }

  lemma BeforeNext(ledger: map<NoteKey, Note>, calls: seq<Call>, i: nat)
    requires i < |calls|
    ensures Before(ledger, calls, i + 1) == RunDigest(Before(ledger, calls, i), calls[i])
  {
    assert calls[..i + 1][..i] == calls[..i];
  }

  predicate ClockForward(calls: seq<Call>) { forall i, j :: 0 <= i < j < |calls| ==> calls[i].now <= calls[j].now }

  // Between two runs the cursor stands or has come past the time of the first.
  lemma {:induction false} CursorStandsOrPasses(ledger: map<NoteKey, Note>, calls: seq<Call>, i: nat, j: nat)
    requires i < |calls| && i <= j <= |calls| && ClockForward(calls)
    ensures Before(ledger, calls, i).ledger.Keys <= Before(ledger, calls, j).ledger.Keys
    ensures var was, now := Before(ledger, calls, i).cursor, Before(ledger, calls, j).cursor;
      was == now || (
        && now.Some? && calls[i].now <= now.value.until
        && (was.Some? ==> was.value.until + MIN_PERIOD <= now.value.until))
  {
    if i < j {
      CursorStandsOrPasses(ledger, calls, i, j - 1);
      BeforeNext(ledger, calls, j - 1);
      assert i < j - 1 ==> calls[i].now <= calls[j - 1].now;
    }
  }

  // A row is there from then on, and without a death the cursor moves on.
  lemma MadeStays(ledger: map<NoteKey, Note>, calls: seq<Call>, i: nat, j: nat)
    requires i < j <= |calls| && ClockForward(calls) && Makes(Before(ledger, calls, i), calls[i])
    ensures KeyFor(Before(ledger, calls, i), calls[i]) in Before(ledger, calls, j).ledger
    ensures Before(ledger, calls, j).cursor == Before(ledger, calls, i).cursor ==> calls[i].dies
  {
    BeforeNext(ledger, calls, i);
    if i + 1 < j { CursorStandsOrPasses(ledger, calls, i + 1, j); }
  }

  lemma WindowsOverlapIff(s: State, t: State, first: Call, next: Call)
    requires !Skips(s, first) && !Skips(t, next) && first.now <= next.now
    requires t.cursor == s.cursor || (t.cursor.Some? && first.now <= t.cursor.value.until)
    ensures Overlap(WindowOf(s, first), WindowOf(t, next)) <==>
      t.cursor == s.cursor && (s.cursor.Some? || next.now - first.now < DEFAULT_PERIOD)
  {
    OverlapIff(WindowOf(s, first), WindowOf(t, next));
  }

  // Over any runs under a clock that does not go back, any two digest rows cover
  // a time twice if and only if they were made at the same cursor, which takes the
  // death of the first, and, if there was none, less than the first period apart.
  lemma RowsOverlapIff(ledger: map<NoteKey, Note>, calls: seq<Call>, i: nat, j: nat)
    requires i < j < |calls| && ClockForward(calls)
    requires Makes(Before(ledger, calls, i), calls[i]) && Makes(Before(ledger, calls, j), calls[j])
    ensures var s, t := Before(ledger, calls, i), Before(ledger, calls, j);
      && (Overlap(WindowOf(s, calls[i]), WindowOf(t, calls[j])) <==>
            t.cursor == s.cursor && (s.cursor.Some? || calls[j].now - calls[i].now < DEFAULT_PERIOD))
      && (t.cursor == s.cursor ==> calls[i].dies)
  {
    CursorStandsOrPasses(ledger, calls, i, j);
    WindowsOverlapIff(Before(ledger, calls, i), Before(ledger, calls, j), calls[i], calls[j]);
    MadeStays(ledger, calls, i, j);
  }

  // They are two rows, and both stay.
  lemma RowsAreTwo(ledger: map<NoteKey, Note>, calls: seq<Call>, i: nat, j: nat)
    requires i < j < |calls| && ClockForward(calls)
    requires Makes(Before(ledger, calls, i), calls[i]) && Makes(Before(ledger, calls, j), calls[j])
    ensures KeyFor(Before(ledger, calls, i), calls[i]) != KeyFor(Before(ledger, calls, j), calls[j])
    ensures KeyFor(Before(ledger, calls, i), calls[i]) in Before(ledger, calls, |calls|).ledger
    ensures KeyFor(Before(ledger, calls, j), calls[j]) in Before(ledger, calls, |calls|).ledger
  {
    MadeStays(ledger, calls, i, j);
    MadeStays(ledger, calls, i, |calls|);
    MadeStays(ledger, calls, j, |calls|);
  }

  // ---- Counts are conserved -----------------------------------------------

  // `SELECT COUNT(*) ... WHERE time >= since AND time < until`
  function CountIn<K>(times: map<K, Time>, w: Window): nat {
    |set k | k in times && Inside(times[k], w)|
  }

  lemma CountSplits<K>(times: map<K, Time>, since: Time, mid: Time, until: Time)
    requires since <= mid <= until
    ensures CountIn(times, Window(since, until)) == CountIn(times, Window(since, mid)) +
      CountIn(times, Window(mid, until))
  {
    var a := set k | k in times && Inside(times[k], Window(since, mid));
    var b := set k | k in times && Inside(times[k], Window(mid, until));
    assert a !! b;
    assert (set k | k in times && Inside(times[k], Window(since, until))) == a + b;
  }

  function SumIn<K>(times: map<K, Time>, windows: seq<Window>): nat {
    if windows == [] then 0 else SumIn(times, windows[..|windows| - 1]) + CountIn(times, windows[|windows| - 1])
  }

  lemma {:induction false} TilesSum<K>(times: map<K, Time>, windows: seq<Window>)
    requires Tiles(windows) && windows != []
    ensures windows[0].since <= windows[|windows| - 1].until
    ensures SumIn(times, windows) == CountIn(times, Window(windows[0].since, windows[|windows| - 1].until))
  {
    var last := |windows| - 1;
    if last > 0 {
      TilesSum(times, windows[..last]);
      CountSplits(times, windows[0].since, windows[last].since, windows[last].until);
    } else {
      assert SumIn(times, windows[..last]) == 0;
    }
  }

  datatype Count = Opened | Available | Declined | Gaps | Unknown

  function ChainTimes(chains: seq<Chains.Chain>, c: Count): map<nat, Time> {
    map i: nat | i < |chains| && CountsChain(chains[i], c) ::
      if c == Opened then chains[i].openedAt else chains[i].closedAt.value
  }

  predicate CountsChain(chain: Chains.Chain, c: Count) {
    match c
    case Opened => true
    case Available => chain.closedAt.Some? && chain.state in {Chains.Available, Chains.PartiallyAvailable}
    case Declined => chain.closedAt.Some? && chain.state == Chains.Declined
    case _ => false
  }

  function EventTimes(events: map<string, EventRow>, kind: EventType): map<string, Time> {
    map k | k in events && events[k].kind == kind :: events[k].occurredAt
  }

  // The five windowed counts of `requests_summary` and `ops_summary`.
  function Summary(t: Tables, w: Window, c: Count): nat {
    match c
    case Gaps => CountIn(EventTimes(t.events, ReconcileGap), w)
    case Unknown => CountIn(EventTimes(t.events, SourceUnknown), w)
    case _ => CountIn(ChainTimes(t.chains, c), w)
  }

  // What the counts count: chains by when they opened or closed, and how; gaps and
  // unknown events by when they happened.
  lemma OpenedCount(t: Tables, w: Window)
    ensures Summary(t, w, Opened) == |set i: nat | i < |t.chains| && w.since <= t.chains[i].openedAt < w.until|
  {
    CountsAre(ChainTimes(t.chains, Opened), w, set i: nat | i < |t.chains|
      && w.since <= t.chains[i].openedAt < w.until);
  }

  function ClosedIn(chains: seq<Chains.Chain>, state: Chains.State, w: Window): set<nat> {
    set i: nat | i < |chains| && chains[i].state == state && chains[i].closedAt.Some?
                 && w.since <= chains[i].closedAt.value < w.until
  }

  lemma ClosedCount(t: Tables, w: Window)
    requires Chains.Sound(t.chains)
    ensures Summary(t, w, Available) == |ClosedIn(t.chains, Chains.Available, w)|
    ensures Summary(t, w, Declined) == |ClosedIn(t.chains, Chains.Declined, w)|
  {
    CountsAre(ChainTimes(t.chains, Available), w, ClosedIn(t.chains, Chains.Available, w));
    CountsAre(ChainTimes(t.chains, Declined), w, ClosedIn(t.chains, Chains.Declined, w));
  }

  function HappenedIn(events: map<string, EventRow>, kind: EventType, w: Window): set<string> {
    set k | k in events && events[k].kind == kind && w.since <= events[k].occurredAt < w.until
  }

  lemma EventCount(t: Tables, w: Window)
    ensures Summary(t, w, Gaps) == |HappenedIn(t.events, ReconcileGap, w)|
    ensures Summary(t, w, Unknown) == |HappenedIn(t.events, SourceUnknown, w)|
  {
    CountsAre(EventTimes(t.events, ReconcileGap), w, HappenedIn(t.events, ReconcileGap, w));
    CountsAre(EventTimes(t.events, SourceUnknown), w, HappenedIn(t.events, SourceUnknown, w));
  }

  lemma CountsAre<K>(times: map<K, Time>, w: Window, keys: set<K>)
    requires forall k :: k in keys <==> k in times && w.since <= times[k] < w.until
    ensures CountIn(times, w) == |keys|
  {
    assert keys == set k | k in times && Inside(times[k], w);
  }

  function SumOf(t: Tables, windows: seq<Window>, c: Count): nat {
    if windows == [] then 0 else SumOf(t, windows[..|windows| - 1], c) + Summary(t, windows[|windows| - 1], c)
  }

  lemma {:induction false} SummariesSum(t: Tables, windows: seq<Window>, c: Count)
    ensures SumOf(t, windows, c) ==
      match c
      case Gaps => SumIn(EventTimes(t.events, ReconcileGap), windows)
      case Unknown => SumIn(EventTimes(t.events, SourceUnknown), windows)
      case _ => SumIn(ChainTimes(t.chains, c), windows)
  {
    if windows != [] { SummariesSum(t, windows[..|windows| - 1], c); }
  }

  // Over the windows of any run of the job, the counts of a fixed store add up
  // to its counts over the whole span: nothing is reported twice or missed.
  lemma CountsAreConserved(ledger: map<NoteKey, Note>, calls: seq<Call>, t: Tables, c: Count)
    requires RunAll(Fresh(ledger), calls).entries != []
    ensures var ws := Windows(RunAll(Fresh(ledger), calls).entries);
      SumOf(t, ws, c) == Summary(t, Window(ws[0].since, ws[|ws| - 1].until), c)
  {
    var ws := Windows(RunAll(Fresh(ledger), calls).entries);
    WindowsTile(ledger, calls);
    SummariesSum(t, ws, c);
    match c
    case Gaps => TilesSum(EventTimes(t.events, ReconcileGap), ws);
    case Unknown => TilesSum(EventTimes(t.events, SourceUnknown), ws);
    case _ => TilesSum(ChainTimes(t.chains, c), ws);
  }

  function ClosingTimes(chains: seq<Chains.Chain>): map<nat, Time> {
    map i: nat | i < |chains| && chains[i].closedAt.Some? :: chains[i].closedAt.value
  }

  // Every closed chain is reported once, as available or as declined, and the
  // "partially available" state the query asks for never occurs in it.
  lemma ClosedChainsAreCountedOnce(t: Tables, w: Window)
    requires Chains.Sound(t.chains)
    ensures Summary(t, w, Available) + Summary(t, w, Declined)
         == CountIn(ClosingTimes(t.chains), w)
    ensures forall i :: 0 <= i < |t.chains| && CountsChain(t.chains[i], Available) ==>
      t.chains[i].state == Chains.Available
  {
    var times, x, y := ClosingTimes(t.chains), ChainTimes(t.chains, Available), ChainTimes(t.chains, Declined);
    assert x.Keys !! y.Keys && times.Keys == x.Keys + y.Keys;
    CountUnion(times, x, y, w);
  }

  lemma CountUnion<K>(times: map<K, Time>, x: map<K, Time>, y: map<K, Time>, w: Window)
    requires x.Keys !! y.Keys && times.Keys == x.Keys + y.Keys
    requires forall k :: (k in x ==> x[k] == times[k]) && (k in y ==> y[k] == times[k])
    ensures CountIn(times, w) == CountIn(x, w) + CountIn(y, w)
  {
    var a := set k | k in x && Inside(x[k], w);
    var b := set k | k in y && Inside(y[k], w);
    assert a !! b;
    assert (set k | k in times && Inside(times[k], w)) == a + b;
  }
}
