/** Watch completions: the `watched` trigger, the one derived from a playback
    stop, and the history row reconcile reads all carry one key.
 */
module Tautulli {
  import opened Types
  import opened Events

  // A webhook body; scalars are the text they print as, `digest` its hash.
  datatype Payload = Payload(
    event: string, userId: Option<string>, plexUsername: Option<string>,
    ratingKey: Option<string>, sessionKey: Option<string>, progress: Option<int>,
    media: Option<MediaRef>, user: Option<UserRef>, digest: string)

  datatype WatchConfig = WatchConfig(watchedTrigger: bool, threshold: int)

  // A row of the history API.
  datatype HistoryRow = HistoryRow(
    watchedStatus: string, userId: Option<string>, user: Option<string>, ratingKey: Option<string>,
    stopped: Option<Time>, media: MediaRef, userRef: Option<UserRef>)

  function FirstText(a: Option<string>, b: Option<string>, default: string): string {
    if TruthyText(a) then a.value else if TruthyText(b) then b.value else default
  }

  function UserKey(p: Payload): string { FirstText(p.userId, p.plexUsername, "unknown") }

  function RatingKey(p: Payload): string { FirstText(p.ratingKey, None, p.digest) }

  function WatchKey(source: string, p: Payload): string {
    KeyOf(source, "watch.completed", UserKey(p) + ":" + RatingKey(p))
  }

  function PlaybackKey(source: string, typeName: string, p: Payload): string {
    KeyOf(source, typeName, UserKey(p) + ":" + (FirstText(p.sessionKey, None, "nosession") + ":" + RatingKey(p)))
  }

  function Emit(source: string, p: Payload, kind: EventType, key: string): Event {
    Event(source, key, Webhook, kind, None, p.media, p.user, None, false)
  }

  predicate DerivesWatch(p: Payload, config: WatchConfig) {
    !config.watchedTrigger && p.progress.Some? && p.progress.value >= config.threshold
  }

  function Normalize(source: string, p: Payload, config: WatchConfig): seq<Event> {
    if p.event == "playback_start" then
      [Emit(source, p, PlaybackStarted, PlaybackKey(source, "playback.started", p))]
    else if p.event == "playback_stop" then
      [Emit(source, p, PlaybackStopped, PlaybackKey(source, "playback.stopped", p))] +
      (if DerivesWatch(p, config) then [Emit(source, p, WatchCompleted, WatchKey(source, p))] else [])
    else if p.event == "watched" then
      [Emit(source, p, WatchCompleted, WatchKey(source, p))]
    else
      [UnknownEvent(source, p.event, p.digest)]
  }

  // The event of a completed history row; partial plays yield none.
  function Expected(source: string, row: HistoryRow): Option<Event> {
    if row.watchedStatus != "1" then None
    else
      var rating := if row.ratingKey.Some? then row.ratingKey.value else "None";
      var key := KeyOf(source, "watch.completed", FirstText(row.userId, row.user, "unknown") + ":" + rating);
      Some(Event(source, key, Reconcile, WatchCompleted, row.stopped, Some(row.media), row.userRef, None, false))
  }

  predicate SaysWatched(p: Payload, config: WatchConfig) {
    p.event == "watched" || (p.event == "playback_stop" && DerivesWatch(p, config))
  }

  // Both name the user by id, or both by name, or neither does at all.
  predicate Comparable(p: Payload, id: Option<string>, name: Option<string>) {
    && TruthyText(p.userId) == TruthyText(id) && TruthyText(p.plexUsername) == TruthyText(name)
    && NoColon(UserKey(p)) && NoColon(FirstText(id, name, "unknown"))
  }

  predicate SameUser(p: Payload, id: Option<string>, name: Option<string>) {
    if TruthyText(p.userId) then p.userId == id else TruthyText(p.plexUsername) ==> p.plexUsername == name
  }

  // A webhook that completes a watch shares its key with a completed history
  // row exactly when user and item agree, whichever trigger reported it.
  lemma WatchKeysCollapse(source: string, p: Payload, config: WatchConfig, row: HistoryRow)
    requires Comparable(p, row.userId, row.user) && TruthyText(p.ratingKey) && TruthyText(row.ratingKey)
    requires row.watchedStatus == "1"
    ensures (exists e :: e in Normalize(source, p, config) && e.kind == WatchCompleted) <==>
      p.event == "watched" || (
        && p.event == "playback_stop" && !config.watchedTrigger
        && p.progress.Some? && p.progress.value >= config.threshold)
    ensures forall e :: e in Normalize(source, p, config) && e.kind == WatchCompleted ==>
      (e.key == Expected(source, row).value.key <==> SameUser(p, row.userId, row.user) && p.ratingKey == row.ratingKey)
  {
    var events := Normalize(source, p, config);
    if SaysWatched(p, config) {
      assert events[|events| - 1].kind == WatchCompleted;
    }
    var user := FirstText(row.userId, row.user, "unknown");
    if WatchKey(source, p) == Expected(source, row).value.key {
      KeysSplit(source, "watch.completed", UserKey(p) + ":" + RatingKey(p),
        "watch.completed", user + ":" + row.ratingKey.value);
      FirstColonSplits(UserKey(p), RatingKey(p), user, row.ratingKey.value);
    }
  }

  // Only a completed row becomes an event, and that says what the row says.
  lemma HistorySays(source: string, row: HistoryRow)
    ensures Expected(source, row).Some? <==> row.watchedStatus == "1"
    ensures Expected(source, row).Some? ==>
      var e := Expected(source, row).value;
      && e.source == source && e.origin == Reconcile && e.kind == WatchCompleted && e.occurred == row.stopped
      && e.media == Some(row.media) && e.user == row.userRef && e.requestId.None? && !e.partial
  {
  }

  // The first event is what the webhook reports; all but an unknown one are about
  // its media and user.
  lemma WebhookSays(source: string, p: Payload, config: WatchConfig)
    ensures var events := Normalize(source, p, config);
      && 1 <= |events| <= 2 && (|events| == 2 ==> events[0].kind == PlaybackStopped && events[1].kind == WatchCompleted)
      && (events[0].kind == PlaybackStarted <==> p.event == "playback_start")
      && (events[0].kind == PlaybackStopped <==> p.event == "playback_stop")
      && (events[0].kind == WatchCompleted <==> p.event == "watched")
      && (events[0].kind == SourceUnknown <==> p.event !in {"playback_start", "playback_stop", "watched"})
    ensures forall e :: e in Normalize(source, p, config) ==>
      && e.source == source && e.origin == Webhook && e.occurred.None? && e.requestId.None? && !e.partial
      && if e.kind == SourceUnknown then e.media.None? && e.user.None? else e.media == p.media && e.user == p.user
  {
  }

  predicate IsPlayback(p: Payload) {
    p.event in {"playback_start", "playback_stop"} && TruthyText(p.sessionKey) && NoColon(p.sessionKey.value)
  }

  // Two playback webhooks share a key if and only if they report one session's
  // start, or its stop, by one user of one item.
  lemma PlaybackKeysTell(source: string, p: Payload, q: Payload, config: WatchConfig)
    requires IsPlayback(p) && IsPlayback(q) && Comparable(p, q.userId, q.plexUsername)
    requires TruthyText(p.ratingKey) && TruthyText(q.ratingKey)
    ensures Normalize(source, p, config)[0].key == Normalize(source, q, config)[0].key <==>
      p.event == q.event && SameUser(p, q.userId, q.plexUsername) && p.sessionKey == q.sessionKey &&
      p.ratingKey == q.ratingKey
  {
    if Normalize(source, p, config)[0].key == Normalize(source, q, config)[0].key {
      var a := if p.event == "playback_start" then "playback.started" else "playback.stopped";
      var b := if q.event == "playback_start" then "playback.started" else "playback.stopped";
      var x, y := p.sessionKey.value + ":" + RatingKey(p), q.sessionKey.value + ":" + RatingKey(q);
      KeysSplit(source, a, UserKey(p) + ":" + x, b, UserKey(q) + ":" + y);
      assert a[9] == b[9];
      FirstColonSplits(UserKey(p), x, UserKey(q), y);
      FirstColonSplits(p.sessionKey.value, RatingKey(p), q.sessionKey.value, RatingKey(q));
    }
  }

  // Two unknown webhooks share a key if and only if their payloads are the same.
  lemma UnknownKeysTell(source: string, p: Payload, q: Payload, config: WatchConfig)
    requires !IsKnown(p.event) && !IsKnown(q.event) && NoColon(p.digest) && NoColon(q.digest)
    ensures Normalize(source, p, config)[0].key == Normalize(source, q, config)[0].key <==>
      SameLabel(p.event, q.event, "none") && p.digest == q.digest
  {
    UnknownsTell(source, p.event, p.digest, q.event, q.digest);
  }

  predicate IsKnown(event: string) { event in {"playback_start", "playback_stop", "watched"} }
}
