/** The worker may die, or fail, after any store call and process the payload
    again. This module proves that the retries repair exactly what was lost.
 */
module CrashRepair {
  import opened Types
  import opened Events
  import opened Correlate
  import Arr
  import Media
  import Chains
  import Seerr
  import Tautulli
  import Q = WorkQueue

  // A normalized webhook. All its events carry the same media and user objects.
  datatype Payload = Payload(events: seq<Event>, media: Option<MediaRef>, user: Option<UserRef>, receivedAt: Time)

  predicate WellFormed(p: Payload) {
    && (forall i :: 0 <= i < |p.events| ==> p.events[i].media == p.media && p.events[i].user == p.user)
    && (forall i, j :: 0 <= i < j < |p.events| ==>
          p.events[i].key != p.events[j].key && !(IsLifecycle(p.events[i].kind) && IsLifecycle(p.events[j].kind)))
    && (forall i :: 0 <= i < |p.events| && IsLifecycle(p.events[i].kind) ==> p.events[i].requestId.Some?)
  }

  // One processing attempt: it ends after `cut` store calls (or completes), and
  // reads the kill switch once per event.
  datatype Attempt = Attempt(cut: nat, now: Time, engaged: seq<bool>)

  function EventCalls(config: Config, e: Event, receivedAt: Time, now: Time, engaged: bool): seq<Call> {
    ApplyCalls(e, receivedAt) + FanOutCalls(config, e, now, engaged)
  }

  // The kill switch as read for event `i`.
  predicate Engaged(a: Attempt, i: nat) { i < |a.engaged| && a.engaged[i] }

  function Flatten(parts: seq<seq<Call>>): seq<Call> {
    if parts == [] then [] else Flatten(parts[..|parts| - 1]) + parts[|parts| - 1]
  }

  // `process`: for each event, apply it and then fan it out, new or not.
  function Parts(config: Config, p: Payload, a: Attempt): seq<seq<Call>> {
    seq(|p.events|, i requires 0 <= i < |p.events| => EventCalls(config, p.events[i], p.receivedAt, a.now,
      Engaged(a, i)))
  }

  function AllCalls(config: Config, p: Payload, a: Attempt): seq<Call> { Flatten(Parts(config, p, a)) }

  function Try(config: Config, t: Tables, p: Payload, a: Attempt): Tables {
    var calls := AllCalls(config, p, a);
    ExecAll(config, Frame(t, None), calls[..Min(a.cut, |calls|)]).tables
  }

  function TryAll(config: Config, t: Tables, p: Payload, attempts: seq<Attempt>): Tables {
    if attempts == [] then t
    else Try(config, TryAll(config, t, p, attempts[..|attempts| - 1]), p, attempts[|attempts| - 1])
  }

  // Ran to its end with the switch off throughout.
  predicate Clean(config: Config, p: Payload, a: Attempt) {
    a.cut >= |AllCalls(config, p, a)| && forall i :: 0 <= i < |a.engaged| ==> !a.engaged[i]
  }

  // ---- The result the payload should have -------------------------------

  predicate NeedsMedia(p: Payload) { p.media.Some? && Nameable(p.media.value) }

  function TargetId(t: Tables, p: Payload): Option<nat> {
    if NeedsMedia(p) then Some(Media.FindOrCreate(t.media, p.media.value).id) else None
  }

  function TargetMedia(t: Tables, p: Payload): seq<Media.Row> {
    if NeedsMedia(p) then Media.FindOrCreate(t.media, p.media.value).rows else t.media
  }

  function TargetIdentities(config: Config, t: Tables, p: Payload): map<Identity, Option<string>> {
    if p.user.Some? && p.user.value.identity.Some? then Observe(config, t.identities, p.user.value.identity.value)
    else t.identities
  }

  function TargetFrame(t: Tables, p: Payload): Frame { Frame(t, TargetId(t, p)) }

  function TargetMove(config: Config, t: Tables, p: Payload, e: Event): Chains.Move
    requires IsLifecycle(e.kind)
  {
    MoveOf(config, TargetFrame(t, p), e, p.receivedAt)
  }

  // The excluded case: a closing event whose request has no chain of its own
  // while its media has an open one.
  predicate Safe(config: Config, t: Tables, p: Payload) {
    forall i :: 0 <= i < |p.events| && IsLifecycle(p.events[i].kind) ==>
      var m := TargetMove(config, t, p, p.events[i]);
      !(Chains.FallsBack(t.chains, m) && Chains.Closing(m.state))
  }

  predicate WithoutDue(a: map<NoteKey, Note>, b: map<NoteKey, Note>) {
    a.Keys == b.Keys && forall k :: k in a ==> a[k].(due := 0) == b[k].(due := 0)
  }

  predicate SameTables(a: Tables, b: Tables) {
    && a.media == b.media && a.identities == b.identities && a.events == b.events && a.chains == b.chains
    && WithoutDue(a.ledger, b.ledger)
  }

  predicate Owes(config: Config, p: Payload, key: NoteKey) {
    exists i :: 0 <= i < |p.events| && p.events[i].key == key.eventKey
                && key.channel in ChannelsFor(config.rules, p.events[i].kind, p.events[i].source)
  }

  // Each table lies between its state in `t0` and its state once `p` has been
  // processed on `t0`.
  ghost predicate EventsBetween(config: Config, t0: Tables, events: map<string, EventRow>, p: Payload) {
    && (forall k :: k in t0.events ==> k in events && events[k] == t0.events[k])
    && (forall k :: k in events && k !in t0.events ==>
          exists i :: 0 <= i < |p.events| && p.events[i].key == k
            && events[k] == RowOf(config, TargetFrame(t0, p), p.events[i], p.receivedAt))
  }

  ghost predicate ChainsBetween(config: Config, t0: Tables, chains: seq<Chains.Chain>, p: Payload) {
    chains == t0.chains ||
    exists i :: 0 <= i < |p.events| && IsLifecycle(p.events[i].kind)
                && chains == Chains.Advance(t0.chains, TargetMove(config, t0, p, p.events[i]))
  }

  ghost predicate LedgerBetween(config: Config, before: map<NoteKey, Note>, ledger: map<NoteKey, Note>, p: Payload) {
    && (forall k :: k in before ==> k in ledger && ledger[k] == before[k])
    && (forall k :: k in ledger && k !in before ==>
          Owes(config, p, k) && ledger[k].(due := 0) == Q.Row((), Q.Pending, 0, 0))
  }

  ghost predicate Between(config: Config, t0: Tables, t: Tables, p: Payload) {
    && (t.media == t0.media || t.media == TargetMedia(t0, p))
    && (t.identities == t0.identities || t.identities == TargetIdentities(config, t0, p))
    && EventsBetween(config, t0, t.events, p)
    && ChainsBetween(config, t0, t.chains, p)
    && LedgerBetween(config, t0.ledger, t.ledger, p)
  }

  // What a store call is for, and that it has been achieved.
  predicate Achieved(config: Config, t0: Tables, t: Tables, p: Payload, c: Call) {
    match c
    case ResolveMedia(_) => t.media == TargetMedia(t0, p)
    case ObserveUser(_) => t.identities == TargetIdentities(config, t0, p)
    case InsertEvent(e, _) => e.key in t.events
    case AdvanceChain(e, _) => IsLifecycle(e.kind)
      && t.chains == Chains.Advance(t0.chains, TargetMove(config, t0, p, e))
    case Notify(key, _) => key in t.ledger
  }

  predicate Belongs(config: Config, p: Payload, c: Call) {
    match c
    case ResolveMedia(ref) => p.media == Some(ref) && Nameable(ref)
    case ObserveUser(id) => p.user.Some? && p.user.value.identity == Some(id)
    case InsertEvent(e, at) => e in p.events && at == p.receivedAt
    case AdvanceChain(e, at) => e in p.events && IsLifecycle(e.kind) && at == p.receivedAt
    case Notify(key, _) => Owes(config, p, key)
  }

  // The running attempt holds the right media id, or is about to look it up.
  predicate HoldsId(t0: Tables, f: Frame, p: Payload, c: Call) {
    && (f.mediaId == TargetId(t0, p) || (c.ResolveMedia? && f.mediaId.None?))
    && (f.mediaId.Some? ==> f.tables.media == TargetMedia(t0, p))
  }

  lemma UserUnmoved(config: Config, t0: Tables, t: Tables, p: Payload)
    requires t.identities == t0.identities || t.identities == TargetIdentities(config, t0, p)
    ensures UserOf(config, t.identities, p.user) == UserOf(config, t0.identities, p.user)
  {
  }

  lemma MediaAgain(t0: Tables, t: Tables, p: Payload)
    requires NeedsMedia(p) && (t.media == t0.media || t.media == TargetMedia(t0, p))
    ensures Media.FindOrCreate(t.media, p.media.value) == Media.FindOrCreate(t0.media, p.media.value)
  {
    Media.SecondCallIsNoOp(t0.media, p.media.value);
  }

  lemma ChainAgain(config: Config, t0: Tables, chains: seq<Chains.Chain>, p: Payload, e: Event)
    requires WellFormed(p) && Safe(config, t0, p) && Chains.Sound(t0.chains) && ChainsBetween(config, t0, chains, p)
    requires e in p.events && IsLifecycle(e.kind)
    ensures var m := TargetMove(config, t0, p, e); Chains.Advance(chains, m) == Chains.Advance(t0.chains, m)
  {
    var j :| 0 <= j < |p.events| && p.events[j] == e;
    if chains != t0.chains {
      var i :| 0 <= i < |p.events| && IsLifecycle(p.events[i].kind)
        && chains == Chains.Advance(t0.chains, TargetMove(config, t0, p, p.events[i]));
      assert i == j;
      Chains.AdvanceTwice(t0.chains, TargetMove(config, t0, p, e));
    }
  }

  lemma InsertStays(config: Config, t0: Tables, f: Frame, p: Payload, e: Event)
    requires Between(config, t0, f.tables, p) && e in p.events && WellFormed(p) && f.mediaId == TargetId(t0, p)
    ensures var g := Exec(config, f, InsertEvent(e, p.receivedAt));
      e.key in g.tables.events && EventsBetween(config, t0, g.tables.events, p)
  {
  }

  lemma MoveStays(config: Config, t0: Tables, f: Frame, p: Payload, e: Event)
    requires WellFormed(p) && Safe(config, t0, p) && Chains.Sound(t0.chains)
    requires Between(config, t0, f.tables, p) && e in p.events && IsLifecycle(e.kind) && f.mediaId == TargetId(t0, p)
    ensures var g := Exec(config, f, AdvanceChain(e, p.receivedAt));
      && g.tables.chains == Chains.Advance(t0.chains, TargetMove(config, t0, p, e))
      && ChainsBetween(config, t0, g.tables.chains, p)
  {
    var i :| 0 <= i < |p.events| && p.events[i] == e;
    UserUnmoved(config, t0, f.tables, p);
    assert MoveOf(config, f, e, p.receivedAt) == TargetMove(config, t0, p, p.events[i]);
    ChainAgain(config, t0, f.tables.chains, p, e);
  }

  // Every call of the payload stays between and achieves its purpose.
  lemma CallStays(config: Config, t0: Tables, f: Frame, p: Payload, c: Call)
    requires WellFormed(p) && Safe(config, t0, p) && Chains.Sound(t0.chains)
    requires Between(config, t0, f.tables, p) && Belongs(config, p, c) && HoldsId(t0, f, p, c)
    ensures var g := Exec(config, f, c);
      && Between(config, t0, g.tables, p) && Achieved(config, t0, g.tables, p, c)
      && g.mediaId == TargetId(t0, p) && (g.mediaId.Some? ==> g.tables.media == TargetMedia(t0, p))
  {
    match c
    case ResolveMedia(_) => MediaAgain(t0, f.tables, p);
    case ObserveUser(_) =>
    case InsertEvent(e, _) => InsertStays(config, t0, f, p, e);
    case AdvanceChain(e, _) => MoveStays(config, t0, f, p, e);
    case Notify(_, _) =>
  }

  lemma AchievedStays(config: Config, t0: Tables, f: Frame, p: Payload, c: Call, other: Call)
    requires WellFormed(p) && Safe(config, t0, p) && Chains.Sound(t0.chains)
    requires Between(config, t0, f.tables, p) && Belongs(config, p, c) && HoldsId(t0, f, p, c)
    requires Belongs(config, p, other) && Achieved(config, t0, f.tables, p, other)
    ensures Achieved(config, t0, Exec(config, f, c).tables, p, other)
  {
    CallStays(config, t0, f, p, c);
    if c.AdvanceChain? && other.AdvanceChain? {
      var i :| 0 <= i < |p.events| && p.events[i] == c.event;
      var j :| 0 <= j < |p.events| && p.events[j] == other.event;
      assert i == j;
    }
  }

  predicate Program(config: Config, p: Payload, calls: seq<Call>) {
    && (forall c :: c in calls ==> Belongs(config, p, c))
    && (calls != [] && NeedsMedia(p) ==> calls[0].ResolveMedia?)
  }

  // Running any prefix of the program from a state between stays between, and
  // achieves what it ran.
  lemma {:induction false} ProgramStays(config: Config, t0: Tables, t: Tables, p: Payload, calls: seq<Call>)
    requires WellFormed(p) && Safe(config, t0, p) && Chains.Sound(t0.chains)
    requires Between(config, t0, t, p) && Program(config, p, calls)
    ensures var g := ExecAll(config, Frame(t, None), calls);
      && Between(config, t0, g.tables, p)
      && (calls != [] ==> g.mediaId == TargetId(t0, p) && (g.mediaId.Some? ==> g.tables.media == TargetMedia(t0, p)))
      && (forall c :: c in calls ==> Achieved(config, t0, g.tables, p, c))
  {
    if calls != [] {
      var n := |calls| - 1;
      var before, c := calls[..n], calls[n];
      ProgramStays(config, t0, t, p, before);
      var f := ExecAll(config, Frame(t, None), before);
      assert Belongs(config, p, c);
      CallStays(config, t0, f, p, c);
      forall o | o in calls
        ensures Achieved(config, t0, Exec(config, f, c).tables, p, o)
      {
        if o in before { AchievedStays(config, t0, f, p, c, o); }
      }
    }
  }

  lemma {:induction false} FlattenIsProgram(config: Config, p: Payload, parts: seq<seq<Call>>)
    requires forall i :: 0 <= i < |parts| ==> parts[i] != [] && Program(config, p, parts[i])
    ensures Program(config, p, Flatten(parts))
    ensures parts != [] ==> Flatten(parts) != []
  {
    if parts != [] {
      var last := |parts| - 1;
      FlattenIsProgram(config, p, parts[..last]);
      assert Program(config, p, parts[last]);
      if last > 0 { assert Flatten(parts)[0] == Flatten(parts[..last])[0]; }
    }
  }

  lemma {:induction false} FlattenCovers(parts: seq<seq<Call>>, i: nat)
    requires i < |parts|
    ensures forall c :: c in parts[i] ==> c in Flatten(parts)
  {
    if i < |parts| - 1 { FlattenCovers(parts[..|parts| - 1], i); }
  }

  lemma CallsAreProgram(config: Config, p: Payload, a: Attempt)
    requires WellFormed(p)
    ensures Program(config, p, AllCalls(config, p, a))
  {
    var parts := Parts(config, p, a);
    forall i | 0 <= i < |parts|
      ensures parts[i] != [] && Program(config, p, parts[i])
    {
      EventCallsBelong(config, p, p.events[i], a.now, Engaged(a, i));
    }
    FlattenIsProgram(config, p, parts);
  }

  lemma ApplyIsProgram(config: Config, p: Payload, e: Event)
    requires WellFormed(p) && e in p.events
    ensures ApplyCalls(e, p.receivedAt) != [] && Program(config, p, ApplyCalls(e, p.receivedAt))
  {
  }

  lemma FanOutBelongs(config: Config, p: Payload, e: Event, now: Time, engaged: bool)
    requires e in p.events
    ensures forall c :: c in FanOutCalls(config, e, now, engaged) ==> Belongs(config, p, c)
  {
  }

  lemma AppendIsProgram(config: Config, p: Payload, a: seq<Call>, b: seq<Call>)
    requires a != [] && Program(config, p, a) && forall c :: c in b ==> Belongs(config, p, c)
    ensures a + b != [] && Program(config, p, a + b)
  {
  }

  lemma EventCallsBelong(config: Config, p: Payload, e: Event, now: Time, engaged: bool)
    requires WellFormed(p) && e in p.events
    ensures EventCalls(config, e, p.receivedAt, now, engaged) != []
    ensures Program(config, p, EventCalls(config, e, p.receivedAt, now, engaged))
  {
    ApplyIsProgram(config, p, e);
    FanOutBelongs(config, p, e, now, engaged);
    AppendIsProgram(config, p, ApplyCalls(e, p.receivedAt), FanOutCalls(config, e, now, engaged));
  }

  // A clean attempt leaves nothing of the payload undone.
  ghost predicate Complete(config: Config, t0: Tables, t: Tables, p: Payload) {
    && (p.events != [] ==> t.media == TargetMedia(t0, p) && t.identities == TargetIdentities(config, t0, p))
    && (forall i :: 0 <= i < |p.events| ==> p.events[i].key in t.events)
    && (forall i :: 0 <= i < |p.events| && IsLifecycle(p.events[i].kind) ==>
          t.chains == Chains.Advance(t0.chains, TargetMove(config, t0, p, p.events[i])))
    && (forall k :: Owes(config, p, k) ==> k in t.ledger)
  }

  lemma CleanCompletes(config: Config, t0: Tables, t: Tables, p: Payload, a: Attempt)
    requires WellFormed(p) && Safe(config, t0, p) && Chains.Sound(t0.chains)
    requires Between(config, t0, t, p) && Clean(config, p, a)
    ensures var g := Try(config, t, p, a); Between(config, t0, g, p) && Complete(config, t0, g, p)
  {
    var calls := AllCalls(config, p, a);
    assert calls[..Min(a.cut, |calls|)] == calls;
    CallsAreProgram(config, p, a);
    ProgramStays(config, t0, t, p, calls);
    var g := Try(config, t, p, a);
    forall i | 0 <= i < |p.events|
      ensures EventDone(config, t0, g, p, p.events[i])
    {
      FlattenCovers(Parts(config, p, a), i);
      EventAchieved(config, t0, g, p, p.events[i], a.now);
    }
    DoneIsComplete(config, t0, g, p);
  }

  lemma DoneIsComplete(config: Config, t0: Tables, g: Tables, p: Payload)
    requires forall i :: 0 <= i < |p.events| ==> EventDone(config, t0, g, p, p.events[i])
    ensures Complete(config, t0, g, p)
  {
    if p.events != [] { assert EventDone(config, t0, g, p, p.events[0]); }
  }

  ghost predicate EventDone(config: Config, t0: Tables, g: Tables, p: Payload, e: Event) {
    && e.key in g.events && g.media == TargetMedia(t0, p) && g.identities == TargetIdentities(config, t0, p)
    && (IsLifecycle(e.kind) ==> g.chains == Chains.Advance(t0.chains, TargetMove(config, t0, p, e)))
    && (forall ch :: ch in ChannelsFor(config.rules, e.kind, e.source) ==> NoteKey(e.key, ch) in g.ledger)
  }

  lemma FanOutAchieved(config: Config, t0: Tables, g: Tables, p: Payload, e: Event, now: Time)
    requires forall c :: c in FanOutCalls(config, e, now, false) ==> Achieved(config, t0, g, p, c)
    ensures forall ch :: ch in ChannelsFor(config.rules, e.kind, e.source) ==> NoteKey(e.key, ch) in g.ledger
  {
    var fan, channels := FanOutCalls(config, e, now, false), ChannelsFor(config.rules, e.kind, e.source);
    forall ch | ch in channels
      ensures NoteKey(e.key, ch) in g.ledger
    {
      var j :| 0 <= j < |channels| && channels[j] == ch;
      assert fan[j] == Notify(NoteKey(e.key, ch), now) && fan[j] in fan;
    }
  }

  lemma EventAchieved(config: Config, t0: Tables, g: Tables, p: Payload, e: Event, now: Time)
    requires WellFormed(p) && e in p.events && Between(config, t0, g, p)
    requires forall c :: c in EventCalls(config, e, p.receivedAt, now, false) ==> Achieved(config, t0, g, p, c)
    ensures EventDone(config, t0, g, p, e)
  {
    var apply, fan := ApplyCalls(e, p.receivedAt), FanOutCalls(config, e, now, false);
    assert forall c :: c in apply || c in fan ==> c in EventCalls(config, e, p.receivedAt, now, false);
    assert InsertEvent(e, p.receivedAt) in apply;
    assert NeedsMedia(p) ==> ResolveMedia(p.media.value) in apply;
    assert p.user.Some? && p.user.value.identity.Some? ==> ObserveUser(p.user.value.identity.value) in apply;
    assert IsLifecycle(e.kind) ==> AdvanceChain(e, p.receivedAt) in apply;
    FanOutAchieved(config, t0, g, p, e, now);
  }

  lemma RowDetermined(config: Config, t0: Tables, a: Tables, b: Tables, p: Payload, k: string)
    requires WellFormed(p) && EventsBetween(config, t0, a.events, p) && EventsBetween(config, t0, b.events, p)
    requires Complete(config, t0, b, p) && k in a.events
    ensures k in b.events && a.events[k] == b.events[k]
  {
    if k !in t0.events {
      var i :| 0 <= i < |p.events| && p.events[i].key == k
        && a.events[k] == RowOf(config, TargetFrame(t0, p), p.events[i], p.receivedAt);
      var j :| 0 <= j < |p.events| && p.events[j].key == k
        && b.events[k] == RowOf(config, TargetFrame(t0, p), p.events[j], p.receivedAt);
      assert i == j;
    }
  }

  lemma NoteDetermined(config: Config, t0: Tables, a: map<NoteKey, Note>, b: Tables, p: Payload, k: NoteKey)
    requires LedgerBetween(config, t0.ledger, a, p) && LedgerBetween(config, t0.ledger, b.ledger, p)
    requires Complete(config, t0, b, p) && k in a
    ensures k in b.ledger && a[k].(due := 0) == b.ledger[k].(due := 0)
  {
    assert k in t0.ledger || Owes(config, p, k);
  }

  lemma EventsInclude(config: Config, t0: Tables, a: Tables, b: Tables, p: Payload)
    requires WellFormed(p) && EventsBetween(config, t0, a.events, p) && EventsBetween(config, t0, b.events, p)
    requires Complete(config, t0, b, p)
    ensures Included(a.events, b.events)
  {
    forall k | k in a.events
      ensures k in b.events && a.events[k] == b.events[k]
    {
      RowDetermined(config, t0, a, b, p, k);
    }
  }

  predicate Included(a: map<string, EventRow>, b: map<string, EventRow>) {
    forall k :: k in a ==> k in b && a[k] == b[k]
  }

  lemma IncludedBothWays(a: map<string, EventRow>, b: map<string, EventRow>)
    requires Included(a, b) && Included(b, a)
    ensures a == b
  {
  }

  lemma LedgerDetermined(config: Config, t0: Tables, a: Tables, b: Tables, p: Payload)
    requires LedgerBetween(config, t0.ledger, a.ledger, p) && LedgerBetween(config, t0.ledger, b.ledger, p)
    requires Complete(config, t0, a, p) && Complete(config, t0, b, p)
    ensures WithoutDue(a.ledger, b.ledger)
  {
    forall k | k in a.ledger ensures k in b.ledger && a.ledger[k].(due := 0) == b.ledger[k].(due := 0) {
      NoteDetermined(config, t0, a.ledger, b, p, k);
    }
    forall k | k in b.ledger ensures k in a.ledger { NoteDetermined(config, t0, b.ledger, a, p, k); }
  }

  lemma CompleteIsUnique(config: Config, t0: Tables, a: Tables, b: Tables, p: Payload)
    requires WellFormed(p) && Between(config, t0, a, p) && Between(config, t0, b, p)
    requires p.events != [] && Complete(config, t0, a, p) && Complete(config, t0, b, p)
    ensures SameTables(a, b)
  {
    EventsInclude(config, t0, a, b, p);
    EventsInclude(config, t0, b, a, p);
    IncludedBothWays(a.events, b.events);
    LedgerDetermined(config, t0, a, b, p);
  }

  lemma {:induction false} AttemptsStay(config: Config, t0: Tables, p: Payload, attempts: seq<Attempt>)
    requires WellFormed(p) && Safe(config, t0, p) && Chains.Sound(t0.chains)
    ensures Between(config, t0, TryAll(config, t0, p, attempts), p)
  {
    if attempts != [] {
      var a := attempts[|attempts| - 1];
      AttemptsStay(config, t0, p, attempts[..|attempts| - 1]);
      var t := TryAll(config, t0, p, attempts[..|attempts| - 1]);
      CallsAreProgram(config, p, a);
      var calls := AllCalls(config, p, a);
      var cut := calls[..Min(a.cut, |calls|)];
      assert forall c :: c in cut ==> c in calls;
      ProgramStays(config, t0, t, p, cut);
    }
  }

  // Any number of attempts, each cut off after any store call and run with any
  // kill-switch readings, followed by a clean one, leave the events, media,
  // identities, chains and ledger of one uninterrupted attempt.
  lemma RetriesRepairExactly(config: Config, t0: Tables, p: Payload, attempts: seq<Attempt>, last: Attempt,
                             once: Attempt)
    requires WellFormed(p) && Safe(config, t0, p) && Chains.Sound(t0.chains)
    requires Clean(config, p, last) && Clean(config, p, once)
    ensures SameTables(Try(config, TryAll(config, t0, p, attempts), p, last), Try(config, t0, p, once))
  {
    AttemptsStay(config, t0, p, attempts);
    var t := TryAll(config, t0, p, attempts);
    if p.events == [] {
      NoEventsNoEffect(config, t0, p, attempts);
    } else {
      assert Between(config, t0, t0, p);
      CleanCompletes(config, t0, t, p, last);
      CleanCompletes(config, t0, t0, p, once);
      CompleteIsUnique(config, t0, Try(config, t, p, last), Try(config, t0, p, once), p);
    }
  }

  lemma {:induction false} NoEventsNoEffect(config: Config, t: Tables, p: Payload, attempts: seq<Attempt>)
    requires p.events == []
    ensures TryAll(config, t, p, attempts) == t
  {
    if attempts != [] { NoEventsNoEffect(config, t, p, attempts[..|attempts| - 1]); }
  }

  // ---- The excluded case is really excluded ------------------------------

  // One lifecycle event, applied from a store.
  lemma ApplyMovesChain(config: Config, t: Tables, p: Payload, e: Event)
    requires p.events == [e] && WellFormed(p) && IsLifecycle(e.kind)
    ensures var g := ExecAll(config, Frame(t, None), ApplyCalls(e, p.receivedAt)).tables;
      && g.media == TargetMedia(t, p) && g.identities == TargetIdentities(config, t, p)
      && g.chains == Chains.Advance(t.chains, TargetMove(config, t, p, e))
  {
    ApplyInSteps(config, Frame(t, None), e, p.receivedAt);
    assert p.events[0].media == p.media && p.events[0].user == p.user;
    var f := WithUser(config, WithMedia(config, Frame(t, None), e), e);
    UserUnmoved(config, t, f.tables, p);
  }

  lemma TryMovesChain(config: Config, t: Tables, p: Payload, e: Event, a: Attempt)
    requires p.events == [e] && WellFormed(p) && IsLifecycle(e.kind) && Clean(config, p, a)
    ensures var g := Try(config, t, p, a);
      && g.media == TargetMedia(t, p) && g.identities == TargetIdentities(config, t, p)
      && g.chains == Chains.Advance(t.chains, TargetMove(config, t, p, e))
  {
    var apply, fan := ApplyCalls(e, p.receivedAt), FanOutCalls(config, e, a.now, Engaged(a, 0));
    var calls := AllCalls(config, p, a);
    assert Parts(config, p, a) == [EventCalls(config, e, p.receivedAt, a.now, Engaged(a, 0))];
    assert Flatten([]) == [];
    assert calls == [] + (apply + fan) == apply + fan;
    assert calls[..Min(a.cut, |calls|)] == calls;
    ExecAllSplits(config, Frame(t, None), apply, fan);
    ApplyMovesChain(config, t, p, e);
    NotifyWritesLedger(config, ExecAll(config, Frame(t, None), apply), fan);
  }

  // For a lifecycle webhook outside the safe case, dying between the last store
  // call and `outbox_done` is enough: the retry moves a second chain.
  lemma UnsafeRetryDiffers(config: Config, t0: Tables, p: Payload, e: Event, a: Attempt)
    requires p.events == [e] && WellFormed(p) && IsLifecycle(e.kind) && Chains.Sound(t0.chains)
    requires !Safe(config, t0, p) && Clean(config, p, a)
    ensures !SameTables(Try(config, TryAll(config, t0, p, [a]), p, a), Try(config, t0, p, a))
  {
    var t1 := Try(config, t0, p, a);
    assert [a][..0] == [] && TryAll(config, t0, p, []) == t0;
    assert TryAll(config, t0, p, [a]) == t1;
    TryMovesChain(config, t0, p, e, a);
    TryMovesChain(config, t1, p, e, a);
    UserUnmoved(config, t0, t1, p);
    if NeedsMedia(p) { MediaAgain(t0, t1, p); }
    assert p.events[0].user == p.user;
    assert TargetMove(config, t1, p, e) == TargetMove(config, t0, p, e);
    Chains.AdvanceTwice(t0.chains, TargetMove(config, t0, p, e));
  }

  // A lifecycle webhook is crash-safe exactly when it is `Safe`.
  lemma CrashSafeIffSafe(config: Config, t0: Tables, p: Payload, e: Event, once: Attempt)
    requires p.events == [e] && WellFormed(p) && IsLifecycle(e.kind) && Chains.Sound(t0.chains)
      && Clean(config, p, once)
    ensures Safe(config, t0, p) <==>
      forall attempts: seq<Attempt>, last: Attempt :: Clean(config, p, last) ==>
        SameTables(Try(config, TryAll(config, t0, p, attempts), p, last), Try(config, t0, p, once))
  {
    if Safe(config, t0, p) {
      forall attempts: seq<Attempt>, last: Attempt | Clean(config, p, last)
        ensures SameTables(Try(config, TryAll(config, t0, p, attempts), p, last), Try(config, t0, p, once))
      {
        RetriesRepairExactly(config, t0, p, attempts, last, once);
      }
    } else {
      UnsafeRetryDiffers(config, t0, p, e, once);
    }
  }

  // ---- What the normalizers emit ------------------------------------------

  function PayloadOf(events: seq<Event>, receivedAt: Time): Payload {
    if events == [] then Payload([], None, None, receivedAt)
    else Payload(events, events[0].media, events[0].user, receivedAt)
  }

  lemma WatchesAreWellFormed(source: string, p: Tautulli.Payload, watch: Tautulli.WatchConfig, at: Time)
    ensures WellFormed(PayloadOf(Tautulli.Normalize(source, p, watch), at))
  {
    var stopped, watched := Tautulli.PlaybackKey(source, "playback.stopped", p), Tautulli.WatchKey(source, p);
    assert stopped[|source| + 1] == 'p' && watched[|source| + 1] == 'w';
  }

  lemma NormalizedIsWellFormed(source: string, seerr: Seerr.Payload, tautulli: Tautulli.Payload,
                               watch: Tautulli.WatchConfig, arr: Arr.Payload, at: Time)
    ensures WellFormed(PayloadOf(Seerr.Normalize(source, seerr), at))
    ensures WellFormed(PayloadOf(Tautulli.Normalize(source, tautulli, watch), at))
    ensures WellFormed(PayloadOf([Arr.Normalize(source, arr)], at))
  {
    WatchesAreWellFormed(source, tautulli, watch, at);
    RequestsAreWellFormed(source, seerr, at);
    OneIsWellFormed([Arr.Normalize(source, arr)], at);
  }

  lemma RequestsAreWellFormed(source: string, p: Seerr.Payload, at: Time)
    ensures WellFormed(PayloadOf(Seerr.Normalize(source, p), at))
  {
    OneIsWellFormed(Seerr.Normalize(source, p), at);
  }

  lemma OneIsWellFormed(events: seq<Event>, at: Time)
    requires |events| <= 1
    requires forall i :: 0 <= i < |events| && IsLifecycle(events[i].kind) ==> events[i].requestId.Some?
    ensures WellFormed(PayloadOf(events, at))
  {
  }

  predicate NoLifecycle(events: seq<Event>) { forall i :: 0 <= i < |events| ==> !IsLifecycle(events[i].kind) }

  lemma NoLifecycleIsSafe(config: Config, t: Tables, events: seq<Event>, at: Time)
    requires NoLifecycle(events)
    ensures Safe(config, t, PayloadOf(events, at))
  {
  }

  // Only Seerr reports lifecycle events, so the other payloads are safe as they are.
  lemma OnlySeerrCanBeUnsafe(config: Config, t: Tables, source: string, tautulli: Tautulli.Payload,
                             watch: Tautulli.WatchConfig, arr: Arr.Payload, at: Time)
    ensures Safe(config, t, PayloadOf(Tautulli.Normalize(source, tautulli, watch), at))
    ensures Safe(config, t, PayloadOf([Arr.Normalize(source, arr)], at))
  {
    WatchesHaveNoLifecycle(source, tautulli, watch);
    NoLifecycleIsSafe(config, t, Tautulli.Normalize(source, tautulli, watch), at);
    NoLifecycleIsSafe(config, t, [Arr.Normalize(source, arr)], at);
  }

  lemma WatchesHaveNoLifecycle(source: string, p: Tautulli.Payload, watch: Tautulli.WatchConfig)
    ensures NoLifecycle(Tautulli.Normalize(source, p, watch))
  {
  }
}
