/** The two ways a Seerr request lifecycle reaches the store, the webhook and
    the poll, and the proof that they name each fact with the same key.
 */
module Seerr {
  import opened Types
  import opened Events

  // A webhook body. `digest` stands for the hash of the whole payload.
  datatype Payload = Payload(
    notificationType: string, requestId: Option<RequestId>, status: Option<string>,
    media: Option<MediaRef>, user: Option<UserRef>, digest: string)

  // One entry of the request list API.
  datatype Request = Request(
    id: RequestId, status: Option<int>, mediaStatus: Option<int>,
    createdAt: Option<Time>, updatedAt: Option<Time>,
    tmdb: Option<int>, tvdb: Option<int>, isTv: bool, requestedBy: Option<string>)

  const REQUEST_APPROVED := 2
  const REQUEST_DECLINED := 3
  const MEDIA_PARTIAL := 4
  const MEDIA_AVAILABLE := 5

  // ---- Webhook ----------------------------------------------------------

  function RequestType(notificationType: string): Option<EventType> {
    if notificationType == "MEDIA_PENDING" then Some(RequestCreated)
    else if notificationType == "MEDIA_APPROVED" then Some(RequestApproved)
    else if notificationType == "MEDIA_AUTO_APPROVED" then Some(RequestApproved)
    else if notificationType == "MEDIA_DECLINED" then Some(RequestDeclined)
    else if notificationType == "MEDIA_AVAILABLE" then Some(RequestAvailable)
    else None
  }

  function AvailabilityLabel(p: Payload): string {
    if TruthyText(p.status) then p.status.value else "AVAILABLE"
  }

  function Normalize(source: string, p: Payload): seq<Event> {
    var kind := RequestType(p.notificationType);
    if kind.Some? && p.requestId.Some? then
      var base := source + ":" + TypeName(kind.value) + ":" + p.requestId.value;
      var available := kind.value == RequestAvailable;
      var key := if available then base + ":" + AvailabilityLabel(p) else base;
      [Event(source, key, Webhook, kind.value, None, p.media, p.user, p.requestId,
             available && AvailabilityLabel(p) == "PARTIALLY_AVAILABLE")]
    else if p.notificationType == "MEDIA_FAILED" && p.requestId.Some? then
      [Event(source, KeyOf(source, "health.issue", "request:" + p.requestId.value), Webhook, HealthIssue,
             None, p.media, p.user, p.requestId, false)]
    else [UnknownEvent(source, p.notificationType, p.digest)]
  }

  // ---- Poll -------------------------------------------------------------

  function Expect(source: string, r: Request, kind: EventType, key: string, occurred: Option<Time>,
                  partial: bool): Event
  {
    Event(source, key, Reconcile, kind, occurred,
          Some(MediaRef(r.tmdb, r.tvdb, None, None, None, Some(if r.isTv then Series else Movie))),
          if TruthyText(r.requestedBy)
            then Some(UserRef(Some(Identity("seerr", r.requestedBy.value)), r.requestedBy)) else None,
          Some(r.id), partial)
  }

  function Expected(source: string, r: Request): seq<Event> {
    var updated := if r.updatedAt.Some? then r.updatedAt else r.createdAt;
    var created := [Expect(source, r, RequestCreated, source + ":request.created:" + r.id, r.createdAt, false)];
    var decided :=
      if r.status == Some(REQUEST_APPROVED) then
        [Expect(source, r, RequestApproved, source + ":request.approved:" + r.id, updated, false)]
      else if r.status == Some(REQUEST_DECLINED) then
        [Expect(source, r, RequestDeclined, source + ":request.declined:" + r.id, updated, false)]
      else [];
    var available :=
      if r.mediaStatus in {Some(MEDIA_PARTIAL), Some(MEDIA_AVAILABLE)} then
        var tag := if r.mediaStatus == Some(MEDIA_AVAILABLE) then "AVAILABLE" else "PARTIALLY_AVAILABLE";
        [Expect(source, r, RequestAvailable, source + ":request.available:" + r.id + ":" + tag, updated,
                r.mediaStatus == Some(MEDIA_PARTIAL))]
      else [];
    created + decided + available
  }

  // ---- One key per fact -------------------------------------------------

  // What a lifecycle event asserts, free of the text that carries it. The
  // tag is empty except for availability.
  datatype Fact = Fact(source: string, kind: EventType, id: RequestId, tag: string)

  predicate WellOrBlank(f: Fact) {
    NoColon(f.source) && IsLifecycle(f.kind) && NoColon(f.tag)
  }

  function FactKey(f: Fact): string {
    var base := f.source + ":" + TypeName(f.kind) + ":" + f.id;
    if f.kind == RequestAvailable then base + ":" + f.tag else base
  }

  predicate SaysLifecycle(p: Payload) {
    RequestType(p.notificationType).Some? && p.requestId.Some?
  }

  function WebhookFact(source: string, p: Payload): Fact
    requires SaysLifecycle(p)
  {
    var kind := RequestType(p.notificationType).value;
    Fact(source, kind, p.requestId.value, if kind == RequestAvailable then AvailabilityLabel(p) else "")
  }

  // The facts a polled request attests.
  predicate Attests(source: string, r: Request, f: Fact) {
    && f.source == source && f.id == r.id
    && match f.kind
       case RequestCreated => f.tag == ""
       case RequestApproved => r.status == Some(REQUEST_APPROVED) && f.tag == ""
       case RequestDeclined => r.status == Some(REQUEST_DECLINED) && f.tag == ""
       case RequestAvailable =>
         || (r.mediaStatus == Some(MEDIA_AVAILABLE) && f.tag == "AVAILABLE")
         || (r.mediaStatus == Some(MEDIA_PARTIAL) && f.tag == "PARTIALLY_AVAILABLE")
       case _ => false
  }

  lemma FactKeyInjective(f: Fact, g: Fact)
    requires WellOrBlank(f) && WellOrBlank(g) && FactKey(f) == FactKey(g)
    ensures f.source == g.source && f.kind == g.kind && f.id == g.id
    ensures f.kind == RequestAvailable ==> f.tag == g.tag
  {
    var x := if f.kind == RequestAvailable then f.id + ":" + f.tag else f.id;
    var y := if g.kind == RequestAvailable then g.id + ":" + g.tag else g.id;
    assert FactKey(f) == f.source + ":" + (TypeName(f.kind) + ":" + x);
    assert FactKey(g) == g.source + ":" + (TypeName(g.kind) + ":" + y);
    TypeNameHasNoColon(f.kind);
    TypeNameHasNoColon(g.kind);
    FirstColonSplits(f.source, TypeName(f.kind) + ":" + x, g.source, TypeName(g.kind) + ":" + y);
    FirstColonSplits(TypeName(f.kind), x, TypeName(g.kind), y);
    LifecycleNamesDiffer(f.kind, g.kind);
    if f.kind == RequestAvailable {
      LastColonSplits(f.id, f.tag, g.id, g.tag);
    }
  }

  // The event has the fact's key and says nothing else.
  predicate Carries(e: Event, f: Fact) {
    && e.key == FactKey(f) && e.source == f.source && e.kind == f.kind
    && e.requestId == Some(f.id) && e.partial == (f.tag == "PARTIALLY_AVAILABLE")
  }

  lemma WebhookCarriesFact(source: string, p: Payload)
    requires SaysLifecycle(p)
    ensures |Normalize(source, p)| == 1 && Carries(Normalize(source, p)[0], WebhookFact(source, p))
  {
  }

  function PolledFact(source: string, r: Request, kind: EventType): Fact {
    Fact(source, kind, r.id,
         if kind != RequestAvailable then ""
         else if r.mediaStatus == Some(MEDIA_AVAILABLE) then "AVAILABLE" else "PARTIALLY_AVAILABLE")
  }

  lemma ExpectCarries(source: string, r: Request, kind: EventType, occurred: Option<Time>, f: Fact)
    requires f.source == source && f.kind == kind && f.id == r.id
    ensures Carries(Expect(source, r, kind, FactKey(f), occurred, f.tag == "PARTIALLY_AVAILABLE"), f)
  {
  }

  lemma ExpectedCarries(source: string, r: Request, e: Event)
    requires e in Expected(source, r)
    ensures IsLifecycle(e.kind) && Carries(e, PolledFact(source, r, e.kind))
  {
    KeyTexts(source, r);
    var f := PolledFact(source, r, e.kind);
    ExpectCarries(source, r, e.kind, e.occurred, f);
    assert e.key == FactKey(f) && e.partial == (f.tag == "PARTIALLY_AVAILABLE");
  }

  lemma ExpectedIsAttested(source: string, r: Request, e: Event)
    requires NoColon(source) && e in Expected(source, r)
    ensures var f := PolledFact(source, r, e.kind); Attests(source, r, f) && WellOrBlank(f) && Carries(e, f)
  {
    ExpectedCarries(source, r, e);
  }

  lemma FactKeyShape(f: Fact) returns (rest: string)
    ensures FactKey(f) == KeyOf(f.source, TypeName(f.kind), rest)
  {
    rest := if f.kind == RequestAvailable then f.id + ":" + f.tag else f.id;
    var base := f.source + ":" + TypeName(f.kind) + ":";
    assert base + f.id + ":" + f.tag == base + (f.id + ":" + f.tag);
    assert base + rest == KeyOf(f.source, TypeName(f.kind), rest);
  }

  lemma AttestedIsExpected(source: string, r: Request, f: Fact) returns (e: Event)
    requires NoColon(source) && Attests(source, r, f)
    ensures WellOrBlank(f) && e in Expected(source, r) && Carries(e, f)
  {
    KeyTexts(source, r);
    var es := Expected(source, r);
    e := es[if f.kind == RequestCreated then 0 else if f.kind == RequestAvailable then |es| - 1 else 1];
    assert e in es;
  }

  lemma KeyTexts(source: string, r: Request)
    ensures FactKey(Fact(source, RequestCreated, r.id, "")) == source + ":request.created:" + r.id
    ensures FactKey(Fact(source, RequestApproved, r.id, "")) == source + ":request.approved:" + r.id
    ensures FactKey(Fact(source, RequestDeclined, r.id, "")) == source + ":request.declined:" + r.id
    ensures FactKey(Fact(source, RequestAvailable, r.id, "AVAILABLE")) == source + ":request.available:" + r.id + ":" +
      "AVAILABLE"
    ensures FactKey(Fact(source, RequestAvailable, r.id, "PARTIALLY_AVAILABLE"))
         == source + ":request.available:" + r.id + ":" + "PARTIALLY_AVAILABLE"
  {
    assert source + ":request.created:" == source + ":" + "request.created" + ":";
    assert source + ":request.approved:" == source + ":" + "request.approved" + ":";
    assert source + ":request.declined:" == source + ":" + "request.declined" + ":";
    assert source + ":request.available:" == source + ":" + "request.available" + ":";
  }

  // A lifecycle webhook and the poll share a key exactly when the poll attests
  // what the webhook said; then they agree on type, request and partiality.
  lemma WebhookAndPollCollapse(source: string, p: Payload, r: Request)
    requires NoColon(source) && SaysLifecycle(p) && NoColon(AvailabilityLabel(p))
    ensures var w := Normalize(source, p)[0]; var f := WebhookFact(source, p);
      && ((exists e :: e in Expected(source, r) && e.key == w.key) <==> Attests(source, r, f))
      && (forall e :: e in Expected(source, r) && e.key == w.key ==> Carries(e, f) && Carries(w, f))
  {
    var w, f := Normalize(source, p)[0], WebhookFact(source, p);
    WebhookCarriesFact(source, p);
    forall e | e in Expected(source, r) && e.key == w.key
      ensures Attests(source, r, f) && Carries(e, f)
    {
      ExpectedIsAttested(source, r, e);
      FactKeyInjective(f, PolledFact(source, r, e.kind));
    }
    if Attests(source, r, f) {
      var e := AttestedIsExpected(source, r, f);
      assert e in Expected(source, r) && e.key == w.key;
    }
  }

  // ---- What the two say, in the source's words -------------------------------

  predicate IsRequestType(notificationType: string) {
    notificationType in
      {"MEDIA_PENDING", "MEDIA_APPROVED", "MEDIA_AUTO_APPROVED", "MEDIA_DECLINED", "MEDIA_AVAILABLE"}
  }

  // The state of a request that a webhook reports.
  predicate Reports(p: Payload, r: Request) {
    || p.notificationType == "MEDIA_PENDING"
    || (p.notificationType in {"MEDIA_APPROVED", "MEDIA_AUTO_APPROVED"} && r.status == Some(2))
    || (p.notificationType == "MEDIA_DECLINED" && r.status == Some(3))
    || (p.notificationType == "MEDIA_AVAILABLE" && p.status in {None, Some(""), Some("AVAILABLE")}
        && r.mediaStatus == Some(5))
    || (p.notificationType == "MEDIA_AVAILABLE" && p.status == Some("PARTIALLY_AVAILABLE") && r.mediaStatus == Some(4))
  }

  // A webhook about a request shares its key with an event of the polled request
  // exactly when the request is in the state the webhook reports.
  lemma WebhookMeetsPoll(source: string, p: Payload, r: Request)
    requires NoColon(source) && IsRequestType(p.notificationType) && p.requestId == Some(r.id)
    requires NoColon(AvailabilityLabel(p))
    ensures |Normalize(source, p)| == 1
    ensures (exists e :: e in Expected(source, r) && e.key == Normalize(source, p)[0].key) <==> Reports(p, r)
  {
    WebhookCarriesFact(source, p);
    WebhookAndPollCollapse(source, p, r);
  }

  // What a webhook becomes, and whose.
  lemma WebhookSays(source: string, p: Payload)
    ensures |Normalize(source, p)| == 1
    ensures var e := Normalize(source, p)[0];
      && e.source == source && e.origin == Webhook && e.occurred.None?
      && (e.kind == RequestCreated <==> p.requestId.Some? && p.notificationType == "MEDIA_PENDING")
      && (e.kind == RequestApproved <==>
            p.requestId.Some? && p.notificationType in {"MEDIA_APPROVED", "MEDIA_AUTO_APPROVED"})
      && (e.kind == RequestDeclined <==> p.requestId.Some? && p.notificationType == "MEDIA_DECLINED")
      && (e.kind == RequestAvailable <==> p.requestId.Some? && p.notificationType == "MEDIA_AVAILABLE")
      && (e.kind == HealthIssue <==> p.requestId.Some? && p.notificationType == "MEDIA_FAILED")
      && (e.partial <==> e.kind == RequestAvailable && p.status == Some("PARTIALLY_AVAILABLE"))
      && if IsLifecycle(e.kind) || e.kind == HealthIssue
         then e.media == p.media && e.user == p.user && e.requestId == p.requestId
         else e.kind == SourceUnknown && e.media.None? && e.user.None? && e.requestId.None?
  {
  }

  predicate IsFailure(p: Payload) { p.notificationType == "MEDIA_FAILED" && p.requestId.Some? }

  predicate IsOther(p: Payload) { (RequestType(p.notificationType).None? || p.requestId.None?) && NoColon(p.digest) }

  function OtherRest(p: Payload): string {
    if IsFailure(p) then "request:" + p.requestId.value else UnknownRest(p.notificationType, p.digest)
  }

  lemma OtherKey(source: string, p: Payload)
    requires IsOther(p)
    ensures Normalize(source, p)[0].key ==
      KeyOf(source, if IsFailure(p) then "health.issue" else "unknown", OtherRest(p))
  {
  }

  // Two failure reports share a key if and only if they are about one request, and
  // two unknown webhooks if and only if their payloads are the same.
  lemma OtherKeysTell(source: string, p: Payload, q: Payload)
    requires IsOther(p) && IsOther(q)
    ensures Normalize(source, p)[0].key == Normalize(source, q)[0].key <==>
      var failed := p.notificationType == "MEDIA_FAILED" && p.requestId.Some?;
      && failed == (q.notificationType == "MEDIA_FAILED" && q.requestId.Some?)
      && if failed then p.requestId == q.requestId
         else SameLabel(p.notificationType, q.notificationType, "none") && p.digest == q.digest
  {
    OtherKey(source, p);
    OtherKey(source, q);
    if Normalize(source, p)[0].key == Normalize(source, q)[0].key {
      var a := if IsFailure(p) then "health.issue" else "unknown";
      var b := if IsFailure(q) then "health.issue" else "unknown";
      KeysSplit(source, a, OtherRest(p), b, OtherRest(q));
      assert a[0] == b[0];
      RestsTell(p, q);
    }
  }

  lemma RestsTell(p: Payload, q: Payload)
    requires IsOther(p) && IsOther(q) && OtherRest(p) == OtherRest(q) && IsFailure(p) == IsFailure(q)
    ensures if IsFailure(p) then p.requestId == q.requestId
      else SameLabel(p.notificationType, q.notificationType, "none") && p.digest == q.digest
  {
    if IsFailure(p) {
      assert OtherRest(p)[8..] == p.requestId.value && OtherRest(q)[8..] == q.requestId.value;
    } else {
      LastColonSplits(OrBlank(p.notificationType, "none"), p.digest, OrBlank(q.notificationType, "none"), q.digest);
    }
  }

  // The event is about the request's media, and the user who asked.
  predicate IsAbout(e: Event, r: Request) {
    && e.media.Some? && e.media.value.tmdb == r.tmdb && e.media.value.tvdb == r.tvdb
    && e.media.value.kind == Some(if r.isTv then Series else Movie)
    && e.media.value.imdb.None? && e.media.value.title.None? && e.media.value.year.None?
    && if r.requestedBy.None? || r.requestedBy.value == "" then e.user.None?
       else e.user.Some? && e.user.value.identity == Some(Identity("seerr", r.requestedBy.value))
  }

  lemma ExpectIsAbout(source: string, r: Request, kind: EventType, key: string, occurred: Option<Time>, partial: bool)
    ensures IsAbout(Expect(source, r, kind, key, occurred, partial), r)
  {
  }

  // And has the time the request was made, or last changed.
  lemma ExpectedSays(source: string, r: Request, e: Event)
    requires e in Expected(source, r)
    ensures e.source == source && e.origin == Reconcile && e.requestId == Some(r.id) && IsLifecycle(e.kind)
    ensures e.occurred == if e.kind == RequestCreated || r.updatedAt.None? then r.createdAt else r.updatedAt
    ensures IsAbout(e, r)
  {
    ExpectIsAbout(source, r, e.kind, e.key, e.occurred, e.partial);
    assert e == Expect(source, r, e.kind, e.key, e.occurred, e.partial);
  }

  // ---- Labels with colons -----------------------------------------------

  function LabelKey(source: string, id: RequestId, tag: string): string {
    FactKey(Fact(source, RequestAvailable, id, tag))
  }

  // Two different requests, or one request twice, under these labels share a key.
  ghost predicate Collide(u: string, v: string) {
    exists source: string, id: RequestId, other: RequestId :: (id, u) != (other, v)
      && LabelKey(source, id, u) == LabelKey(source, other, v)
  }

  // The longer label ends in a colon and the shorter one.
  ghost predicate Extends(long: string, short: string) { exists x: string :: long == x + ":" + short }

  lemma LabelKeyTail(source: string, id: RequestId, tag: string)
    ensures LabelKey(source, id, tag) == (source + ":" + TypeName(RequestAvailable) + ":") + (id + ":" + tag)
  {
  }

  lemma SameLabelKeys(source: string, id: RequestId, u: string, other: RequestId, v: string)
    ensures LabelKey(source, id, u) == LabelKey(source, other, v) <==> id + ":" + u == other + ":" + v
  {
    LabelKeyTail(source, id, u);
    LabelKeyTail(source, other, v);
    var head := source + ":" + TypeName(RequestAvailable) + ":";
    assert (head + (id + ":" + u))[|head|..] == id + ":" + u;
    assert (head + (other + ":" + v))[|head|..] == other + ":" + v;
  }

  lemma LongerExtends(id: string, u: string, other: string, v: string)
    requires id + ":" + u == other + ":" + v && |u| > |v|
    ensures Extends(u, v)
  {
    var s := id + ":" + u;
    assert s == other + ":" + v;
    var cut := |u| - |v| - 1;
    assert u == s[|id| + 1..] && v == s[|other| + 1..];
    assert u[cut] == s[|other|] == ':' && u[cut + 1..] == v;
    assert u == u[..cut] + ":" + v;
  }

  lemma ExtendingCollides(u: string, v: string)
    requires Extends(u, v)
    ensures Collide(u, v) && Collide(v, u)
  {
    var x :| u == x + ":" + v;
    var id: RequestId, other: RequestId := "1", "1" + ":" + x;
    assert id + ":" + u == other + ":" + v;
    SameLabelKeys("seerr", id, u, other, v);
    assert (id, u) != (other, v) && LabelKey("seerr", id, u) == LabelKey("seerr", other, v);
    assert LabelKey("seerr", other, v) == LabelKey("seerr", id, u) && (other, v) != (id, u);
  }

  // Two labels can give different requests one key if and only if one of them is
  // the other with something and a colon before it. A label that no other label
  // in use ends so is safe, colons or not.
  lemma LabelsCollideIff(u: string, v: string)
    ensures Collide(u, v) <==> Extends(u, v) || Extends(v, u)
  {
    if Extends(u, v) { ExtendingCollides(u, v); }
    if Extends(v, u) { ExtendingCollides(v, u); }
    if Collide(u, v) {
      var source: string, id: RequestId, other: RequestId :| (id, u) != (other, v)
        && LabelKey(source, id, u) == LabelKey(source, other, v);
      SameLabelKeys(source, id, u, other, v);
      if |u| > |v| {
        LongerExtends(id, u, other, v);
      } else if |v| > |u| {
        LongerExtends(other, v, id, u);
      } else {
        EqualTails(id, u, other, v);
      }
    }
  }

  lemma EqualTails(id: string, u: string, other: string, v: string)
    requires id + ":" + u == other + ":" + v && |u| == |v|
    ensures id == other && u == v
  {
    var s := id + ":" + u;
    assert u == s[|id| + 1..] && v == s[|other| + 1..] && id == s[..|id|] && other == s[..|other|];
  }
}
