/** The correlation tables and the store calls that write them. Every call is
    its own transaction, so a process can die between any two of them.
 */
module Correlate {
  import opened Types
  import opened Events
  import Media
  import Chains
  import Q = WorkQueue

  datatype EventRow = EventRow(
    source: string, origin: Origin, kind: EventType, occurredAt: Time, receivedAt: Time,
    media: Option<nat>, user: Option<string>, requestId: Option<RequestId>, partial: bool, unmapped: bool)

  datatype NoteKey = NoteKey(eventKey: string, channel: string)

  type Note = Q.Row<()>

  // Events and notifications are keyed by their UNIQUE columns. An identity
  // mapped to None was observed but belongs to nobody.
  datatype Tables = Tables(
    media: seq<Media.Row>, identities: map<Identity, Option<string>>, events: map<string, EventRow>,
    chains: seq<Chains.Chain>, ledger: map<NoteKey, Note>)

  // ---- Configuration ----------------------------------------------------

  // `sources` None means every source.
  datatype Rule = Rule(types: set<EventType>, channel: string, sources: Option<set<string>>)

  // `text` is how an instant is printed into a key.
  datatype Config = Config(rules: seq<Rule>, activeUsers: set<string>, text: Time -> string)

  predicate Routes(rule: Rule, kind: EventType, source: string) {
    kind in rule.types && (rule.sources.Some? ==> source in rule.sources.value)
  }

  function ChannelsFor(rules: seq<Rule>, kind: EventType, source: string): (channels: seq<string>)
    ensures Q.Distinct(channels)
    ensures forall c :: c in channels <==>
      exists i :: 0 <= i < |rules| && rules[i].channel == c && kind in rules[i].types
                  && (rules[i].sources.None? || source in rules[i].sources.value)
  {
    if rules == [] then []
    else
      var last := |rules| - 1;
      var before := ChannelsFor(rules[..last], kind, source);
      assert forall i :: 0 <= i < last ==> rules[..last][i] == rules[i];
      if Routes(rules[last], kind, source) && rules[last].channel !in before then before + [rules[last].channel]
      else before
  }

  // ---- Identities -------------------------------------------------------

  function ResolveIdentity(config: Config, identities: map<Identity, Option<string>>, id: Identity): Option<string> {
    if id in identities && identities[id].Some? && identities[id].value in config.activeUsers then identities[id]
    else None
  }

  function UserOf(config: Config, identities: map<Identity, Option<string>>, user: Option<UserRef>): Option<string> {
    if user.Some? && user.value.identity.Some? then ResolveIdentity(config, identities, user.value.identity.value)
    else None
  }

  // ---- Store calls ------------------------------------------------------

  datatype Call =
    | ResolveMedia(ref: MediaRef)
    | ObserveUser(id: Identity)
    | InsertEvent(event: Event, receivedAt: Time)
    | AdvanceChain(event: Event, receivedAt: Time)
    | Notify(key: NoteKey, now: Time)

  // The tables and the media id the running code holds in `event.media`.
  datatype Frame = Frame(tables: Tables, mediaId: Option<nat>)

  function RowOf(config: Config, f: Frame, e: Event, receivedAt: Time): EventRow {
    var user := UserOf(config, f.tables.identities, e.user);
    EventRow(e.source, e.origin, e.kind, if e.occurred.Some? then e.occurred.value else receivedAt, receivedAt,
             if e.media.Some? then f.mediaId else None, user, e.requestId, e.partial,
             e.user.Some? && e.user.value.identity.Some? && user.None?)
  }

  function MoveOf(config: Config, f: Frame, e: Event, receivedAt: Time): Chains.Move
    requires IsLifecycle(e.kind)
  {
    Chains.Move(e.requestId, if e.media.Some? then f.mediaId else None,
                UserOf(config, f.tables.identities, e.user), Chains.StateOf(e.kind, e.partial),
                if e.occurred.Some? then e.occurred.value else receivedAt)
  }

  function Observe(config: Config, identities: map<Identity, Option<string>>,
                   id: Identity): map<Identity, Option<string>>
  {
    if ResolveIdentity(config, identities, id).Some? || id in identities then identities else identities[id := None]
  }

  function Exec(config: Config, f: Frame, c: Call): Frame {
    var t := f.tables;
    match c
    case ResolveMedia(ref) =>
      if f.mediaId.Some? then f
      else
        var r := Media.FindOrCreate(t.media, ref);
        Frame(t.(media := r.rows), Some(r.id))
    case ObserveUser(id) => f.(tables := t.(identities := Observe(config, t.identities, id)))
    case InsertEvent(e, receivedAt) =>
      if e.key in t.events then f else f.(tables := t.(events := t.events[e.key := RowOf(config, f, e, receivedAt)]))
    case AdvanceChain(e, receivedAt) =>
      if !IsLifecycle(e.kind) then f
      else f.(tables := t.(chains := Chains.Advance(t.chains, MoveOf(config, f, e, receivedAt))))
    case Notify(key, now) => f.(tables := t.(ledger := Q.Enqueue(t.ledger, key, (), now)))
  }

  function ExecAll(config: Config, f: Frame, calls: seq<Call>): Frame {
    if calls == [] then f else Exec(config, ExecAll(config, f, calls[..|calls| - 1]), calls[|calls| - 1])
  }

  // The first `n` calls.
  function ExecFirst(config: Config, f: Frame, calls: seq<Call>, n: nat): Frame
    requires n <= |calls|
  {
    ExecAll(config, f, calls[..n])
  }

  lemma OneCallMore(config: Config, f: Frame, calls: seq<Call>, n: nat)
    requires n < |calls|
    ensures ExecFirst(config, f, calls, n + 1) == Exec(config, ExecFirst(config, f, calls, n), calls[n])
  {
    assert calls[..n + 1][..n] == calls[..n];
  }

  // ---- What the code calls for one event --------------------------------

  predicate Nameable(ref: MediaRef) {
    TruthyInt(ref.tmdb) || TruthyInt(ref.tvdb) || TruthyText(ref.imdb) || TruthyText(ref.title)
  }

  predicate HasMedia(e: Event) { e.media.Some? && Nameable(e.media.value) }

  predicate HasIdentity(e: Event) { e.user.Some? && e.user.value.identity.Some? }

  function When(condition: bool, c: Call): seq<Call> { if condition then [c] else [] }

  // `Correlator.apply`
  function ApplyCalls(e: Event, receivedAt: Time): seq<Call> {
    (if HasMedia(e) then [ResolveMedia(e.media.value)] else []) + (
      (if HasIdentity(e) then [ObserveUser(e.user.value.identity.value)] else []) + (
        [InsertEvent(e, receivedAt)] + When(IsLifecycle(e.kind), AdvanceChain(e, receivedAt))))
  }

  predicate InserterOf(calls: seq<Call>, e: Event, now: Time) {
    forall i :: 0 <= i < |calls| ==> !calls[i].Notify? && (calls[i].InsertEvent? ==> calls[i] == InsertEvent(e, now))
  }

  predicate Inserts(calls: seq<Call>) { exists i :: 0 <= i < |calls| && calls[i].InsertEvent? }

  predicate InsertsOnce(calls: seq<Call>) {
    forall i, j :: 0 <= i < j < |calls| && calls[i].InsertEvent? ==> !calls[j].InsertEvent?
  }

  // `apply` inserts the event and never notifies.
  lemma ApplyCallsInsert(e: Event, now: Time)
    ensures InserterOf(ApplyCalls(e, now), e, now) && Inserts(ApplyCalls(e, now))
  {
    assert InsertEvent(e, now) in ApplyCalls(e, now);
  }

  lemma ApplyInsertsOnce(e: Event, now: Time)
    ensures InsertsOnce(ApplyCalls(e, now))
  {
  }

  // The same, call by call.
  function WithMedia(config: Config, f: Frame, e: Event): Frame {
    if HasMedia(e) then Exec(config, f, ResolveMedia(e.media.value)) else f
  }

  function WithUser(config: Config, f: Frame, e: Event): Frame {
    if HasIdentity(e) then Exec(config, f, ObserveUser(e.user.value.identity.value)) else f
  }

  function WithChain(config: Config, f: Frame, e: Event, receivedAt: Time): Frame {
    if IsLifecycle(e.kind) then Exec(config, f, AdvanceChain(e, receivedAt)) else f
  }

  function Applied(config: Config, f: Frame, e: Event, receivedAt: Time): Frame {
    var resolved := WithUser(config, WithMedia(config, f, e), e);
    WithChain(config, Exec(config, resolved, InsertEvent(e, receivedAt)), e, receivedAt)
  }

  // ---- What a stored event says -------------------------------------------

  // The household member, if active, to whom the identity map gives the user.
  predicate IsMember(config: Config, identities: map<Identity, Option<string>>, user: Option<UserRef>, member: string) {
    && user.Some? && user.value.identity.Some? && user.value.identity.value in identities
    && identities[user.value.identity.value] == Some(member) && member in config.activeUsers
  }

  predicate TellsMedia(rows: seq<Media.Row>, id: Option<nat>, media: Option<MediaRef>) {
    && (id.Some? ==> media.Some? && Media.Names(rows, id.value, media.value))
    && (media.Some? && id.None? ==>
          var ref := media.value;
          && (ref.tmdb.Some? ==> ref.tmdb.value == 0) && (ref.tvdb.Some? ==> ref.tvdb.value == 0)
          && (ref.imdb.Some? ==> ref.imdb.value == "") && (ref.title.Some? ==> ref.title.value == ""))
  }

  ghost predicate TellsUser(config: Config, identities: map<Identity, Option<string>>, row: EventRow,
                            user: Option<UserRef>)
  {
    && (forall m :: row.user == Some(m) <==> IsMember(config, identities, user, m))
    && (row.unmapped <==> user.Some? && user.value.identity.Some? && forall m :: !IsMember(config, identities, user, m))
  }

  // The row says what the event says: its media is a row the reference names, its
  // user the active member behind the identity.
  ghost predicate Tells(config: Config, t: Tables, row: EventRow, e: Event, receivedAt: Time) {
    && row.source == e.source && row.origin == e.origin && row.kind == e.kind && row.receivedAt == receivedAt
    && row.requestId == e.requestId && row.partial == e.partial
    && (e.occurred.Some? ==> row.occurredAt == e.occurred.value)
    && (e.occurred.None? ==> row.occurredAt == receivedAt)
    && TellsMedia(t.media, row.media, e.media) && TellsUser(config, t.identities, row, e.user)
  }

  // The id in hand is that of a row the event's reference names.
  predicate Holds(rows: seq<Media.Row>, id: Option<nat>, e: Event) {
    id.Some? && e.media.Some? ==> Media.Names(rows, id.value, e.media.value)
  }

  lemma UserIsTold(config: Config, identities: map<Identity, Option<string>>, row: EventRow, user: Option<UserRef>)
    requires row.user == UserOf(config, identities, user)
    requires row.unmapped <==> user.Some? && user.value.identity.Some? && row.user.None?
    ensures TellsUser(config, identities, row, user)
  {
    forall m ensures row.user == Some(m) <==> IsMember(config, identities, user, m) { }
    if row.user.Some? { assert IsMember(config, identities, user, row.user.value); }
  }

  lemma InsertTells(config: Config, f: Frame, e: Event, receivedAt: Time)
    requires e.key !in f.tables.events && Holds(f.tables.media, f.mediaId, e) && (HasMedia(e) ==> f.mediaId.Some?)
    ensures var t := Exec(config, f, InsertEvent(e, receivedAt)).tables;
      e.key in t.events && Tells(config, t, t.events[e.key], e, receivedAt)
  {
    UserIsTold(config, f.tables.identities, RowOf(config, f, e, receivedAt), e.user);
  }

  // Observing an identity maps nobody and unmaps nobody.
  ghost predicate SameMembers(a: map<Identity, Option<string>>, b: map<Identity, Option<string>>) {
    forall id, m :: (id in a && a[id] == Some(m)) <==> (id in b && b[id] == Some(m))
  }

  lemma TellsStays(config: Config, t: Tables, u: Tables, row: EventRow, e: Event, receivedAt: Time)
    requires Tells(config, t, row, e, receivedAt) && Media.Keeps(t.media, u.media)
    requires SameMembers(t.identities, u.identities)
    ensures Tells(config, u, row, e, receivedAt)
  {
    forall m ensures IsMember(config, t.identities, e.user, m) <==> IsMember(config, u.identities, e.user, m) {
    }
  }

  // What `apply` stores for a new key.
  lemma AppliedTells(config: Config, f: Frame, e: Event, receivedAt: Time)
    requires e.key !in f.tables.events && Holds(f.tables.media, f.mediaId, e)
    ensures var t := Applied(config, f, e, receivedAt).tables;
      e.key in t.events && Tells(config, t, t.events[e.key], e, receivedAt)
  {
    if HasMedia(e) && f.mediaId.None? { Media.FoundIsNamed(f.tables.media, e.media.value); }
    InsertTells(config, WithUser(config, WithMedia(config, f, e), e), e, receivedAt);
  }

  // Whoever it was, the identity is known afterwards.
  lemma AppliedKnows(config: Config, f: Frame, e: Event, receivedAt: Time)
    ensures e.user.Some? && e.user.value.identity.Some? ==>
      e.user.value.identity.value in Applied(config, f, e, receivedAt).tables.identities
  {
  }

  lemma ResolvingStoresNothing(config: Config, f: Frame, e: Event)
    ensures WithUser(config, WithMedia(config, f, e), e).tables.events == f.tables.events
  {
  }

  // It stores nothing else.
  lemma AppliedStores(config: Config, f: Frame, e: Event, receivedAt: Time)
    ensures var was, now := f.tables.events, Applied(config, f, e, receivedAt).tables.events;
      && now.Keys == was.Keys + {e.key} && (forall k :: k in was ==> now[k] == was[k])
      && (e.key !in was ==> now[e.key].kind == e.kind)
  {
    ResolvingStoresNothing(config, f, e);
    var g := WithUser(config, WithMedia(config, f, e), e);
    assert Applied(config, f, e, receivedAt).tables.events ==
      Exec(config, g, InsertEvent(e, receivedAt)).tables.events;
  }

  // `enqueue_for_event`; an engaged kill switch enqueues nothing.
  function FanOutCalls(config: Config, e: Event, now: Time, engaged: bool): seq<Call> {
    if engaged then [] else NotifyCalls(e.key, ChannelsFor(config.rules, e.kind, e.source), now)
  }

  function NotifyCalls(key: string, channels: seq<string>, now: Time): seq<Call> {
    seq(|channels|, i requires 0 <= i < |channels| => Notify(NoteKey(key, channels[i]), now))
  }

  lemma {:induction false} ExecAllSplits(config: Config, f: Frame, a: seq<Call>, b: seq<Call>)
    ensures ExecAll(config, f, a + b) == ExecAll(config, ExecAll(config, f, a), b)
  {
    if b == [] {
      assert a + b == a;
    } else {
      assert (a + b)[..|a + b| - 1] == a + b[..|b| - 1];
      ExecAllSplits(config, f, a, b[..|b| - 1]);
    }
  }

  lemma ExecFew(config: Config, f: Frame, calls: seq<Call>)
    ensures calls == [] ==> ExecAll(config, f, calls) == f
    ensures |calls| == 1 ==> ExecAll(config, f, calls) == Exec(config, f, calls[0])
  {
  }

  lemma FewThenRest(config: Config, f: Frame, few: seq<Call>, rest: seq<Call>)
    requires |few| <= 1
    ensures ExecAll(config, f, few + rest) == ExecAll(config, if few == [] then f else Exec(config, f, few[0]), rest)
  {
    ExecAllSplits(config, f, few, rest);
    ExecFew(config, f, few);
  }

  lemma ApplyInSteps(config: Config, f: Frame, e: Event, receivedAt: Time)
    ensures ExecAll(config, f, ApplyCalls(e, receivedAt)) == Applied(config, f, e, receivedAt)
  {
    var find := if HasMedia(e) then [ResolveMedia(e.media.value)] else [];
    var observe := if HasIdentity(e) then [ObserveUser(e.user.value.identity.value)] else [];
    var chain := When(IsLifecycle(e.kind), AdvanceChain(e, receivedAt));
    var insert := [InsertEvent(e, receivedAt)];
    var f1, f2 := WithMedia(config, f, e), WithUser(config, WithMedia(config, f, e), e);
    FewThenRest(config, f, find, observe + (insert + chain));
    FewThenRest(config, f1, observe, insert + chain);
    FewThenRest(config, f2, insert, chain);
    ExecFew(config, Exec(config, f2, insert[0]), chain);
  }

  // Fanning out writes the ledger only.
  lemma {:induction false} NotifyWritesLedger(config: Config, f: Frame, calls: seq<Call>)
    requires forall i :: 0 <= i < |calls| ==> calls[i].Notify?
    ensures ExecAll(config, f, calls) == f.(tables := f.tables.(ledger := ExecAll(config, f, calls).tables.ledger))
  {
    if calls != [] { NotifyWritesLedger(config, f, calls[..|calls| - 1]); }
  }
}
