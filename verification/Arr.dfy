/** Radarr and Sonarr: the webhook keys, the key of a history record, and the LIKE
    pattern by which reconcile recognises the webhook twin of a record.
 */
module Arr {
  import opened Types
  import opened Events
  import Like

  datatype EpisodeRef = EpisodeRef(season: Option<int>, number: Option<int>)

  // What a Sonarr or Radarr webhook is about.
  datatype Item =
    | Episodes(tvdb: Option<int>, seriesId: Option<int>, episodes: seq<EpisodeRef>)
    | Movie(tmdb: Option<int>, movieId: Option<int>)

  // The digests stand for hashes: of the series or movie, the release, the file,
  // the health message and the whole payload.
  datatype Payload = Payload(
    eventType: string, item: Item, itemDigest: string, downloadId: Option<string>, isUpgrade: bool,
    releaseDigest: string, fileId: Option<int>, fileDigest: string, check: string, messageDigest: string,
    media: Option<MediaRef>, digest: string)

  datatype Subject =
    | OfMovie(tmdb: Option<int>, movieId: Option<int>)
    | OfSeries(tvdb: Option<int>, seriesId: Option<int>, episode: EpisodeRef)
    | OfNothing

  // A record of the history API.
  datatype Record = Record(
    eventType: string, subject: Subject, downloadId: Option<string>, isUpgrade: bool,
    id: Option<int>, date: Option<Time>, media: MediaRef)

  function OrZero(v: Option<int>): int { if v.Some? then v.value else 0 }

  function OptionText(v: Option<int>): (s: string)
    ensures NoColon(s)
  {
    if v.Some? then IntText(v.value) else "None"
  }

  function EpisodeSegment(e: EpisodeRef): string {
    "S" + Pad2(OrZero(e.season)) + "E" + Pad2(OrZero(e.number))
  }

  // ---- Webhook ----------------------------------------------------------

  function FirstInt(a: Option<int>, b: Option<int>, default: string): string {
    if TruthyInt(a) then IntText(a.value) else if TruthyInt(b) then IntText(b.value) else default
  }

  // `_series_key` and `_media_key`
  function ItemKey(p: Payload): string {
    match p.item
    case Episodes(tvdb, seriesId, _) => FirstInt(tvdb, seriesId, p.itemDigest)
    case Movie(tmdb, movieId) => FirstInt(tmdb, movieId, p.itemDigest)
  }

  function JoinSegments(es: seq<EpisodeRef>): string {
    if es == [] then ""
    else if |es| == 1 then EpisodeSegment(es[0])
    else EpisodeSegment(es[0]) + "-" + JoinSegments(es[1..])
  }

  // The episode segment with its colon; movies have none.
  function EpisodesPart(p: Payload): string {
    match p.item
    case Episodes(_, _, episodes) => (if episodes == [] then "S00E00" else JoinSegments(episodes)) + ":"
    case Movie(_, _) => ""
  }

  function DownloadType(p: Payload): Option<EventType> {
    if p.eventType == "Grab" then Some(MediaGrabbed)
    else if p.eventType == "Download" then Some(if p.isUpgrade then MediaUpgraded else MediaImported)
    else None
  }

  function Discriminator(p: Payload): string {
    if TruthyText(p.downloadId) then p.downloadId.value
    else if p.eventType == "Grab" then p.releaseDigest else p.fileDigest
  }

  predicate IsFileDelete(p: Payload) {
    p.eventType == if p.item.Movie? then "MovieFileDelete" else "EpisodeFileDelete"
  }

  predicate IsItemDelete(p: Payload) { p.eventType == if p.item.Movie? then "MovieDelete" else "SeriesDelete" }

  predicate IsHealth(p: Payload) { p.eventType in {"Health", "HealthIssue", "HealthRestored"} }

  // The type of the event, and what its key says after the source.
  datatype Shape = Shape(kind: EventType, typeName: string, rest: string)

  function ShapeOf(p: Payload): Shape {
    if DownloadType(p).Some? then
      var kind := DownloadType(p).value;
      Shape(kind, TypeName(kind), ItemKey(p) + ":" + (EpisodesPart(p) + Discriminator(p)))
    else if IsFileDelete(p) then
      var file := FirstInt(p.fileId, None, p.fileDigest);
      Shape(MediaDeleted, "media.deleted", "file:" + (ItemKey(p) + ":" + (EpisodesPart(p) + file)))
    else if IsItemDelete(p) then
      Shape(MediaDeleted, "media.deleted", (if p.item.Movie? then "movie:" else "series:") + ItemKey(p))
    else if IsHealth(p) then
      Shape(HealthIssue, if p.eventType == "HealthRestored" then "health.restored" else "health.issue",
            OrBlank(p.check, "unknown") + ":" + p.messageDigest)
    else
      Shape(SourceUnknown, "unknown", UnknownRest(p.eventType, p.digest))
  }

  // Health and unknown events carry no media.
  function Normalize(source: string, p: Payload): Event {
    var shape := ShapeOf(p);
    Event(source, KeyOf(source, shape.typeName, shape.rest), Webhook, shape.kind, None,
          if AboutMedia(shape.kind) then p.media else None, None, None, false)
  }

  // ---- History ----------------------------------------------------------

  function HistoryType(eventType: string): Option<EventType> {
    if eventType == "grabbed" then Some(MediaGrabbed)
    else if eventType == "downloadFolderImported" then Some(MediaImported)
    else if eventType == "movieFileDeleted" || eventType == "episodeFileDeleted" then Some(MediaDeleted)
    else None
  }

  function RecordType(r: Record): Option<EventType> {
    var kind := HistoryType(r.eventType);
    if r.subject.OfNothing? then None
    else if kind == Some(MediaImported) && r.isUpgrade then Some(MediaUpgraded)
    else kind
  }

  function MediaKey(r: Record): (s: string)
    ensures NoColon(s)
  {
    match r.subject
    case OfMovie(tmdb, movieId) => if TruthyInt(tmdb) then IntText(tmdb.value) else OptionText(movieId)
    case OfSeries(tvdb, seriesId, _) => if TruthyInt(tvdb) then IntText(tvdb.value) else OptionText(seriesId)
    case OfNothing => ""
  }

  // The episode segment with its colon; movies have none.
  function EpisodePart(r: Record): string {
    if r.subject.OfSeries? then EpisodeSegment(r.subject.episode) + ":" else ""
  }

  function RecordDiscriminator(r: Record): string {
    if TruthyText(r.downloadId) then r.downloadId.value else "history-" + OptionText(r.id)
  }

  function RecordKey(source: string, r: Record): string
    requires RecordType(r).Some?
  {
    var media := MediaKey(r) + ":" + (EpisodePart(r) + RecordDiscriminator(r));
    KeyOf(source, TypeName(RecordType(r).value),
          if RecordType(r) == Some(MediaDeleted) then "file" + ":" + media else media)
  }

  function RecordEvent(source: string, r: Record): Option<Event> {
    var kind := RecordType(r);
    if kind.None? then None
    else Some(Event(source, RecordKey(source, r), Reconcile, kind.value, r.date, Some(r.media), None, None, false))
  }

  // The pattern handed to `event_key_like`: the type, the third segment of the
  // key, then anything that ends in the download id.
  function PatternFor(source: string, typeName: string, third: string, downloadId: string): string {
    KeyOf(source, typeName, third + ":") + "%" + downloadId
  }

  function TwinPattern(e: Event, downloadId: string): string {
    PatternFor(e.source, TypeName(e.kind), Segment(e.key, 2), downloadId)
  }

  // ---- Twins ------------------------------------------------------------

  // Both sides name one series or movie: by TVDB or TMDB id, or by the
  // application's own id without one.
  predicate SameItem(p: Payload, r: Record) {
    match p.item
    case Episodes(tvdb, seriesId, _) =>
      && r.subject.OfSeries? && r.subject.tvdb == tvdb
      && (TruthyInt(tvdb) || (TruthyInt(seriesId) && r.subject.seriesId == seriesId))
    case Movie(tmdb, movieId) =>
      && r.subject.OfMovie? && r.subject.tmdb == tmdb
      && (TruthyInt(tmdb) || (TruthyInt(movieId) && r.subject.movieId == movieId))
  }

  // A webhook and a history record of one grab or import.
  predicate SameGrab(p: Payload, r: Record) {
    && SameItem(p, r) && TruthyText(p.downloadId) && r.downloadId == p.downloadId
    && DownloadType(p).Some? && DownloadType(p) == RecordType(r)
  }

  lemma KeyMatchesPattern(source: string, typeName: string, third: string, middle: string, id: string)
    ensures Like.Matches(PatternFor(source, typeName, third, id), KeyOf(source, typeName, third + ":" + (middle + id)))
  {
    var head := KeyOf(source, typeName, third + ":");
    Like.NoTwinMissed(head, middle, id);
    assert KeyOf(source, typeName, third + ":" + (middle + id)) == head + middle + id;
  }

  lemma ThirdSegment(source: string, r: Record)
    requires NoColon(source) && RecordType(r).Some?
    ensures Segment(RecordKey(source, r), 2) ==
            if RecordType(r) == Some(MediaDeleted) then "file" else MediaKey(r)
  {
    var kind := RecordType(r).value;
    var rest := EpisodePart(r) + RecordDiscriminator(r);
    TypeNameHasNoColon(kind);
    if kind == MediaDeleted {
      ThirdSegmentOf(source, TypeName(kind), "file", MediaKey(r) + ":" + rest);
    } else {
      ThirdSegmentOf(source, TypeName(kind), MediaKey(r), rest);
    }
  }

  // Every webhook key of a download is found from any history record of that
  // download, however its episodes were grouped and whatever the id contains.
  lemma WebhookTwinIsFound(source: string, p: Payload, r: Record)
    requires NoColon(source) && SameGrab(p, r)
    ensures Like.Matches(TwinPattern(RecordEvent(source, r).value, r.downloadId.value), Normalize(source, p).key)
  {
    ThirdSegment(source, r);
    KeyMatchesPattern(source, TypeName(RecordType(r).value), MediaKey(r), EpisodesPart(p), p.downloadId.value);
  }

  // A movie webhook and a single-episode one need no pattern: the two keys are equal.
  lemma SingleItemKeysCoincide(source: string, p: Payload, r: Record)
    requires SameGrab(p, r) && (p.item.Episodes? ==> p.item.episodes == [r.subject.episode])
    ensures Normalize(source, p).key == RecordEvent(source, r).value.key
  {
  }

  // A webhook and a record that report one thing in their own words become events
  // of one kind, an import or an upgrade as each says itself.
  lemma KindsAgree(source: string, p: Payload, r: Record)
    requires !r.subject.OfNothing?
    ensures p.eventType == "Grab" && r.eventType == "grabbed" ==>
      RecordEvent(source, r).Some? && Normalize(source, p).kind == RecordEvent(source, r).value.kind == MediaGrabbed
    ensures p.eventType == "Download" && r.eventType == "downloadFolderImported" ==>
      && RecordEvent(source, r).Some?
      && Normalize(source, p).kind == (if p.isUpgrade then MediaUpgraded else MediaImported)
      && RecordEvent(source, r).value.kind == if r.isUpgrade then MediaUpgraded else MediaImported
    ensures p.item.Movie? && p.eventType in {"MovieFileDelete", "MovieDelete"} && r.eventType == "movieFileDeleted"
      ==> RecordEvent(source, r).Some? && Normalize(source, p).kind == RecordEvent(source, r).value.kind == MediaDeleted
    ensures
      p.item.Episodes? && p.eventType in {"EpisodeFileDelete", "SeriesDelete"} && r.eventType == "episodeFileDeleted"
      ==> RecordEvent(source, r).Some? && Normalize(source, p).kind == RecordEvent(source, r).value.kind == MediaDeleted
  {
  }

  // Records of any other type, or about nothing known, are passed over; the rest
  // keep their date and media.
  lemma RecordIsTakenIff(source: string, r: Record)
    ensures RecordEvent(source, r).Some? <==>
      !r.subject.OfNothing? &&
      r.eventType in {"grabbed", "downloadFolderImported", "movieFileDeleted", "episodeFileDeleted"}
    ensures RecordEvent(source, r).Some? ==>
      var e := RecordEvent(source, r).value;
      e.source == source && e.origin == Reconcile && e.occurred == r.date && e.media == Some(r.media) && e.user.None?
  {
  }

  // Its key ends with the download id or, without one, with the record's own id.
  lemma RecordKeyEnds(source: string, r: Record)
    requires RecordType(r).Some?
    ensures var id := if r.downloadId.None? || r.downloadId.value == "" then "history-" + OptionText(r.id)
                      else r.downloadId.value;
      |id| <= |RecordKey(source, r)| && RecordKey(source, r)[|RecordKey(source, r)| - |id|..] == id
  {
    var id, media := RecordDiscriminator(r), MediaKey(r) + ":" + EpisodePart(r);
    var head := if RecordType(r) == Some(MediaDeleted) then "file" + ":" + media else media;
    assert MediaKey(r) + ":" + (EpisodePart(r) + id) == media + id;
    assert RecordKey(source, r) == KeyOf(source, TypeName(RecordType(r).value), head) + id;
  }

  // A webhook of any other type is a health report or unknown, and only what is
  // about media carries it.
  lemma WebhookIsAboutIff(source: string, p: Payload)
    ensures var e := Normalize(source, p);
      && e.source == source && e.origin == Webhook && e.user.None? && e.requestId.None?
      && (e.kind == HealthIssue <==> p.eventType in {"Health", "HealthIssue", "HealthRestored"})
      && (e.kind == SourceUnknown <==>
            p.eventType !in {"Grab", "Download", "Health", "HealthIssue", "HealthRestored"}
              + (if p.item.Movie? then {"MovieFileDelete", "MovieDelete"} else {"EpisodeFileDelete", "SeriesDelete"}))
      && e.media == if e.kind in {HealthIssue, SourceUnknown} then None else p.media
  {
  }

  // ---- What a webhook key tells -------------------------------------------

  predicate IsTwoDigit(e: EpisodeRef) {
    e.season.Some? && e.number.Some? && 0 <= e.season.value < 100 && 0 <= e.number.value < 100
  }

  // Episodes of two digits print apart.
  lemma EpisodesDiffer(a: EpisodeRef, b: EpisodeRef)
    requires IsTwoDigit(a) && IsTwoDigit(b) && EpisodeSegment(a) == EpisodeSegment(b)
    ensures a == b
  {
    TwoDigits(a);
    TwoDigits(b);
  }

  lemma TwoDigits(e: EpisodeRef)
    requires IsTwoDigit(e)
    ensures var s, n := e.season.value, e.number.value;
      EpisodeSegment(e) == ['S', '0' + (s / 10) as char, '0' + (s % 10) as char,
                            'E', '0' + (n / 10) as char, '0' + (n % 10) as char]
  {
    Pad2Digits(e.season.value);
    Pad2Digits(e.number.value);
  }

  lemma Pad2Digits(n: nat)
    requires n < 100
    ensures Pad2(n) == ['0' + (n / 10) as char, '0' + (n % 10) as char]
  {
    if n >= 10 { assert NatText(n) == NatText(n / 10) + ['0' + (n % 10) as char]; }
  }

  predicate AreTwoDigit(es: seq<EpisodeRef>) { es != [] && forall e :: e in es ==> IsTwoDigit(e) }

  lemma SegmentHasNoColon(e: EpisodeRef)
    requires IsTwoDigit(e)
    ensures NoColon(EpisodeSegment(e))
  {
    TwoDigits(e);
  }

  lemma {:induction false} JoinedHasNoColon(es: seq<EpisodeRef>)
    requires AreTwoDigit(es)
    ensures NoColon(JoinSegments(es))
  {
    SegmentHasNoColon(es[0]);
    if |es| > 1 { JoinedHasNoColon(es[1..]); }
  }

  // So do lists of them.
  lemma {:induction false} EpisodeListsDiffer(a: seq<EpisodeRef>, b: seq<EpisodeRef>)
    requires AreTwoDigit(a) && AreTwoDigit(b) && JoinSegments(a) == JoinSegments(b)
    ensures a == b
  {
    var s, t := JoinSegments(a), JoinSegments(b);
    TwoDigits(a[0]);
    TwoDigits(b[0]);
    assert s[..6] == EpisodeSegment(a[0]) && t[..6] == EpisodeSegment(b[0]);
    EpisodesDiffer(a[0], b[0]);
    if |a| > 1 { assert s[7..] == JoinSegments(a[1..]); }
    if |b| > 1 { assert t[7..] == JoinSegments(b[1..]); }
    if |a| > 1 && |b| > 1 { EpisodeListsDiffer(a[1..], b[1..]); }
    assert a == [a[0]] + a[1..] && b == [b[0]] + b[1..];
  }

  function CatalogueId(p: Payload): Option<int> { if p.item.Movie? then p.item.tmdb else p.item.tvdb }

  // A grab, an import or a deletion of something the catalogue knows.
  predicate IsReport(p: Payload) {
    && CatalogueId(p).Some? && CatalogueId(p).value != 0
    && match p.item
       case Movie(_, _) => p.eventType in {"Grab", "Download", "MovieFileDelete", "MovieDelete"}
       case Episodes(_, _, episodes) =>
         p.eventType in {"Grab", "Download", "EpisodeFileDelete", "SeriesDelete"} && AreTwoDigit(episodes)
  }

  // Both name the download, or the file, by its id, or neither does.
  predicate Comparable(p: Payload, q: Payload) {
    && p.item.Movie? == q.item.Movie? && TruthyText(p.downloadId) == TruthyText(q.downloadId)
    && TruthyInt(p.fileId) == TruthyInt(q.fileId)
  }

  predicate SameDownload(p: Payload, q: Payload) {
    if TruthyText(p.downloadId) then p.downloadId == q.downloadId
    else if p.eventType == "Grab" then p.releaseDigest == q.releaseDigest
    else p.fileDigest == q.fileDigest
  }

  predicate SameFile(p: Payload, q: Payload) {
    if TruthyInt(p.fileId) then p.fileId == q.fileId else p.fileDigest == q.fileDigest
  }

  // They report one thing.
  predicate SameReport(p: Payload, q: Payload) {
    && p.eventType == q.eventType && CatalogueId(p) == CatalogueId(q)
    && (p.eventType == "Download" ==> p.isUpgrade == q.isUpgrade)
    && (p.eventType in {"Grab", "Download"} ==> SameDownload(p, q))
    && (p.eventType in {"MovieFileDelete", "EpisodeFileDelete"} ==> SameFile(p, q))
    && (p.item.Episodes? && q.item.Episodes? && p.eventType != "SeriesDelete" ==> p.item.episodes == q.item.episodes)
  }

  // What a key says after the item: the episodes and what was downloaded or deleted.
  lemma TailsTell(p: Payload, x: string, q: Payload, y: string)
    requires IsReport(p) && IsReport(q) && p.item.Movie? == q.item.Movie?
    requires ItemKey(p) + ":" + (EpisodesPart(p) + x) == ItemKey(q) + ":" + (EpisodesPart(q) + y)
    ensures CatalogueId(p) == CatalogueId(q) && x == y && (p.item.Episodes? ==> p.item.episodes == q.item.episodes)
  {
    ItemIsTold(p, EpisodesPart(p) + x, q, EpisodesPart(q) + y);
    if p.item.Movie? {
      assert EpisodesPart(p) + x == x && EpisodesPart(q) + y == y;
    } else {
      var a, b := p.item.episodes, q.item.episodes;
      assert EpisodesPart(p) + x == JoinSegments(a) + ":" + x && EpisodesPart(q) + y == JoinSegments(b) + ":" + y;
      JoinedHasNoColon(a);
      JoinedHasNoColon(b);
      FirstColonSplits(JoinSegments(a), x, JoinSegments(b), y);
      EpisodeListsDiffer(a, b);
    }
  }

  lemma ItemIsTold(p: Payload, x: string, q: Payload, y: string)
    requires IsReport(p) && IsReport(q) && p.item.Movie? == q.item.Movie?
    requires ItemKey(p) + ":" + x == ItemKey(q) + ":" + y
    ensures CatalogueId(p) == CatalogueId(q) && x == y
  {
    var m, n := CatalogueId(p).value, CatalogueId(q).value;
    assert ItemKey(p) == IntText(m) && ItemKey(q) == IntText(n);
    IntTextIsNumeral(m);
    IntTextIsNumeral(n);
    FirstColonSplits(IntText(m), x, IntText(n), y);
    IntTextInjective(m, n);
  }

  // Two webhooks of one application share a key if and only if they report one thing.
  lemma WebhookKeysTell(source: string, p: Payload, q: Payload)
    requires IsReport(p) && IsReport(q) && Comparable(p, q)
    ensures Normalize(source, p).key == Normalize(source, q).key <==> SameReport(p, q)
  {
    if Normalize(source, p).key == Normalize(source, q).key { EqualKeysTell(source, p, q); }
    if SameReport(p, q) { assert ShapeOf(p) == ShapeOf(q); }
  }

  lemma EqualKeysTell(source: string, p: Payload, q: Payload)
    requires IsReport(p) && IsReport(q) && Comparable(p, q) && Normalize(source, p).key == Normalize(source, q).key
    ensures SameReport(p, q)
  {
    ShapesAreEqual(source, p, q);
    if ShapeOf(p).kind == MediaDeleted { DeletionsTell(p, q); } else { DownloadsTell(p, q); }
  }

  lemma ShapesAreEqual(source: string, p: Payload, q: Payload)
    requires IsReport(p) && IsReport(q) && Normalize(source, p).key == Normalize(source, q).key
    ensures ShapeOf(p) == ShapeOf(q)
  {
    var kind, other := ShapeOf(p).kind, ShapeOf(q).kind;
    ReportShape(p);
    ReportShape(q);
    MediaNameHasNoColon(kind);
    MediaNameHasNoColon(other);
    KeysSplit(source, ShapeOf(p).typeName, ShapeOf(p).rest, ShapeOf(q).typeName, ShapeOf(q).rest);
    MediaNamesDiffer(kind, other);
  }

  lemma ReportShape(p: Payload)
    requires IsReport(p)
    ensures var kind := ShapeOf(p).kind;
      ShapeOf(p).typeName == TypeName(kind) && IsMediaEvent(kind)
  {
  }

  lemma DownloadsTell(p: Payload, q: Payload)
    requires IsReport(p) && IsReport(q) && Comparable(p, q) && ShapeOf(p) == ShapeOf(q) && DownloadType(p).Some?
    ensures SameReport(p, q)
  {
    TailsTell(p, Discriminator(p), q, Discriminator(q));
  }

  lemma DeletionsTell(p: Payload, q: Payload)
    requires IsReport(p) && IsReport(q) && Comparable(p, q)
    requires ShapeOf(p) == ShapeOf(q) && ShapeOf(p).kind == MediaDeleted
    ensures SameReport(p, q)
  {
    assert ShapeOf(p).rest[0] == if IsFileDelete(p) then 'f' else if p.item.Movie? then 'm' else 's';
    assert ShapeOf(q).rest[0] == if IsFileDelete(q) then 'f' else if q.item.Movie? then 'm' else 's';
    if IsFileDelete(p) {
      var x, y := FirstInt(p.fileId, None, p.fileDigest), FirstInt(q.fileId, None, q.fileDigest);
      assert ShapeOf(p).rest[5..] == ItemKey(p) + ":" + (EpisodesPart(p) + x);
      assert ShapeOf(q).rest[5..] == ItemKey(q) + ":" + (EpisodesPart(q) + y);
      TailsTell(p, x, q, y);
      if TruthyInt(p.fileId) { IntTextInjective(p.fileId.value, q.fileId.value); }
    } else {
      var n := if p.item.Movie? then 6 else 7;
      assert ShapeOf(p).rest[n..] == ItemKey(p) && ShapeOf(q).rest[n..] == ItemKey(q);
      ItemIsTold(p, "", q, "");
    }
  }

  predicate IsOther(p: Payload) { !AboutMedia(ShapeOf(p).kind) && NoColon(p.messageDigest) && NoColon(p.digest) }

  // Two health reports share a key if and only if both raise, or both clear, one
  // check with one message, and two unknown webhooks if and only if their payloads
  // are the same.
  lemma OtherKeysTell(source: string, p: Payload, q: Payload)
    requires IsOther(p) && IsOther(q)
    ensures Normalize(source, p).key == Normalize(source, q).key <==>
      && (p.eventType in {"Health", "HealthIssue"} <==> q.eventType in {"Health", "HealthIssue"})
      && (p.eventType == "HealthRestored" <==> q.eventType == "HealthRestored")
      && if p.eventType in {"Health", "HealthIssue", "HealthRestored"}
         then SameLabel(p.check, q.check, "unknown") && p.messageDigest == q.messageDigest
         else SameLabel(p.eventType, q.eventType, "none") && p.digest == q.digest
  {
    var a, b := ShapeOf(p), ShapeOf(q);
    if Normalize(source, p).key == Normalize(source, q).key {
      OtherNames(p);
      OtherNames(q);
      KeysSplit(source, a.typeName, a.rest, b.typeName, b.rest);
      if IsHealth(p) {
        LastColonSplits(OrBlank(p.check, "unknown"), p.messageDigest, OrBlank(q.check, "unknown"), q.messageDigest);
      } else {
        LastColonSplits(OrBlank(p.eventType, "none"), p.digest, OrBlank(q.eventType, "none"), q.digest);
      }
    }
  }

  lemma OtherNames(p: Payload)
    requires IsOther(p)
    ensures NoColon(ShapeOf(p).typeName)
    ensures |ShapeOf(p).typeName| == if p.eventType == "HealthRestored" then 15 else if IsHealth(p) then 12 else 7
  {
  }

  // What identifies a download across records, whichever episode they report.
  datatype Download = Download(source: string, kind: EventType, mediaKey: string, id: string)

  predicate IsDownload(source: string, r: Record, d: Download) {
    && d.source == source && RecordType(r) == Some(d.kind)
    && MediaKey(r) == d.mediaKey && r.downloadId == Some(d.id) && d.id != ""
  }

  // The key of a download's record: head, anything, download id.
  lemma RecordKeyParts(source: string, r: Record, d: Download)
    requires IsDownload(source, r, d)
    ensures d.kind == MediaDeleted ==>
      RecordKey(source, r) == KeyOf(source, TypeName(d.kind), "file" + ":" + (d.mediaKey + ":" + EpisodePart(r) + d.id))
    ensures d.kind != MediaDeleted ==>
      RecordKey(source, r) == KeyOf(source, TypeName(d.kind), d.mediaKey + ":" + (EpisodePart(r) + d.id))
  {
  }

  // A record's key matches the pattern of every other record of its download.
  lemma RecordsOfOneDownloadMatch(source: string, r: Record, q: Record, d: Download)
    requires NoColon(source) && IsDownload(source, r, d) && IsDownload(source, q, d)
    ensures Like.Matches(TwinPattern(RecordEvent(source, q).value, d.id), RecordEvent(source, r).value.key)
  {
    ThirdSegment(source, q);
    RecordKeyParts(source, r, d);
    if d.kind == MediaDeleted {
      KeyMatchesPattern(source, TypeName(d.kind), "file", d.mediaKey + ":" + EpisodePart(r), d.id);
    } else {
      KeyMatchesPattern(source, TypeName(d.kind), d.mediaKey, EpisodePart(r), d.id);
    }
  }

  // The price of the pattern: it accepts exactly the keys that start as its head
  // accepts and end as the id accepts, so an id that is the tail of another one,
  // letter case and `_` aside, is taken for its twin.
  lemma PatternAcceptsExactly(source: string, typeName: string, third: string, id: string, text: string)
    ensures var head := KeyOf(source, typeName, third + ":");
      && (Like.Matches(PatternFor(source, typeName, third, id), text) <==> Like.Around(head, id, text))
      && (Like.NoPercent(head) && Like.NoPercent(id) ==>
            (Like.Matches(PatternFor(source, typeName, third, id), text) <==>
               |head| + |id| <= |text| && Like.StartsLike(text, head) && Like.EndsLike(text, id)))
  {
    var head := KeyOf(source, typeName, third + ":");
    Like.PatternSplits(head, id, text);
    if Like.NoPercent(head) && Like.NoPercent(id) { Like.PatternExact(head, id, text); }
  }
}
