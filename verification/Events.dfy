/** The canonical event contract and the text of event keys. */
module Events {
  import opened Types

  datatype Kind = Movie | Series | Season | Episode

  // `detail` is presentation only and is not modelled.
  datatype MediaRef = MediaRef(
    tmdb: Option<int>, tvdb: Option<int>, imdb: Option<string>,
    title: Option<string>, year: Option<int>, kind: Option<Kind>)

  datatype Identity = Identity(provider: string, externalId: string)

  datatype UserRef = UserRef(identity: Option<Identity>, display: Option<string>)

  // Request ids are non-empty text; an absent id is None.
  type RequestId = s: string | s != "" witness "0"

  // Of `attrs` only what correlation reads is modelled.
  datatype Event = Event(
    source: string, key: string, origin: Origin, kind: EventType,
    occurred: Option<Time>, media: Option<MediaRef>, user: Option<UserRef>,
    requestId: Option<RequestId>, partial: bool)

  predicate IsLifecycle(t: EventType) {
    t in {RequestCreated, RequestApproved, RequestDeclined, RequestAvailable}
  }

  // ---- Python truthiness ------------------------------------------------

  predicate TruthyInt(v: Option<int>) { v.Some? && v.value != 0 }

  predicate TruthyText(v: Option<string>) { v.Some? && v.value != "" }

  // ---- Decimal text -----------------------------------------------------

  function NatText(n: nat): (s: string)
    ensures NoColon(s) && s != ""
  {
    var last := ['0' + (n % 10) as char];
    if n < 10 then last else NatText(n / 10) + last
  }

  function IntText(n: int): (s: string)
    ensures NoColon(s)
  {
    if n < 0 then "-" + NatText(-n) else NatText(n)
  }

  // f"{n:02d}"
  function Pad2(n: int): string {
    if 0 <= n < 10 then "0" + NatText(n) else IntText(n)
  }

  // ---- Colon-separated keys ---------------------------------------------

  predicate NoColon(s: string) { forall i :: 0 <= i < |s| ==> s[i] != ':' }

  // s.split(":")[n]
  function Segment(s: string, n: nat): string
    decreases |s|
  {
    if s == "" then ""
    else if s[0] == ':' then (if n == 0 then "" else Segment(s[1..], n - 1))
    else if n == 0 then [s[0]] + Segment(s[1..], 0)
    else Segment(s[1..], n)
  }

  // f"{source}:{type}:{rest}", the shape of every event key.
  function KeyOf(source: string, typeName: string, rest: string): string {
    source + ":" + (typeName + ":" + rest)
  }

  function OrBlank(tag: string, blank: string): string { if tag == "" then blank else tag }

  // `unknown_event`: the key has the hash of the whole payload.
  function UnknownRest(tag: string, digest: string): string { OrBlank(tag, "none") + ":" + digest }

  function UnknownEvent(source: string, tag: string, digest: string): Event {
    Event(source, KeyOf(source, "unknown", UnknownRest(tag, digest)), Webhook, SourceUnknown, None, None, None, None,
          false)
  }

  // An empty tag is the blank one.
  predicate SameLabel(a: string, b: string, blank: string) {
    a == b || ((a == "" || a == blank) && (b == "" || b == blank))
  }

  lemma UnknownsTell(source: string, a: string, x: string, b: string, y: string)
    requires NoColon(x) && NoColon(y)
    ensures UnknownEvent(source, a, x).key == UnknownEvent(source, b, y).key <==> SameLabel(a, b, "none") && x == y
  {
    if UnknownEvent(source, a, x).key == UnknownEvent(source, b, y).key {
      KeysSplit(source, "unknown", UnknownRest(a, x), "unknown", UnknownRest(b, y));
      LastColonSplits(OrBlank(a, "none"), x, OrBlank(b, "none"), y);
    }
  }

  // Keys of one source are equal if and only if type and rest are.
  lemma KeysSplit(source: string, a: string, x: string, b: string, y: string)
    requires NoColon(a) && NoColon(b) && KeyOf(source, a, x) == KeyOf(source, b, y)
    ensures a == b && x == y
  {
    var n := |source| + 1;
    assert KeyOf(source, a, x)[n..] == a + ":" + x && KeyOf(source, b, y)[n..] == b + ":" + y;
    FirstColonSplits(a, x, b, y);
  }

  lemma ThirdSegmentOf(source: string, typeName: string, third: string, rest: string)
    requires NoColon(source) && NoColon(typeName) && NoColon(third)
    ensures Segment(KeyOf(source, typeName, third + ":" + rest), 2) == third
  {
    SegmentSkips(source, typeName + ":" + (third + ":" + rest), 2);
    SegmentSkips(typeName, third + ":" + rest, 1);
    SegmentSkips(third, rest, 0);
    assert KeyOf(source, typeName, third + ":" + rest) == source + ":" + (typeName + ":" + (third + ":" + rest));
    assert typeName + ":" + (third + ":" + rest) == typeName + ":" + (third + ":" + rest);
  }

  lemma {:induction false} SegmentSkips(a: string, rest: string, n: nat)
    requires NoColon(a)
    ensures Segment(a + ":" + rest, n) == if n == 0 then a else Segment(rest, n - 1)
  {
    var s := a + ":" + rest;
    if a == "" {
      assert s[1..] == rest;
    } else {
      assert s[1..] == a[1..] + ":" + rest;
      SegmentSkips(a[1..], rest, n);
    }
  }

  lemma FirstColonSplits(a: string, x: string, b: string, y: string)
    requires NoColon(a) && NoColon(b) && a + ":" + x == b + ":" + y
    ensures a == b && x == y
  {
    var s, t := a + ":" + x, b + ":" + y;
    assert forall i :: 0 <= i < |a| ==> s[i] == a[i];
    assert forall i :: 0 <= i < |b| ==> t[i] == b[i];
    assert s[|a|] == ':' && t[|b|] == ':';
    assert |a| == |b|;
    assert a == s[..|a|] && b == t[..|b|];
    assert x == s[|a| + 1..] && y == t[|b| + 1..];
  }

  lemma LastColonSplits(a: string, x: string, b: string, y: string)
    requires NoColon(x) && NoColon(y) && a + ":" + x == b + ":" + y
    ensures a == b && x == y
  {
    var s, t := a + ":" + x, b + ":" + y;
    assert forall i :: |a| < i < |s| ==> s[i] == x[i - |a| - 1];
    assert forall i :: |b| < i < |t| ==> t[i] == y[i - |b| - 1];
    assert s[|a|] == ':' && t[|b|] == ':';
    assert |a| == |b|;
    assert a == s[..|a|] && b == t[..|b|];
    assert x == s[|a| + 1..] && y == t[|b| + 1..];
  }

  lemma NatTextLength(n: nat)
    ensures n < 10 <==> |NatText(n)| == 1
  {
  }

  lemma {:induction false} NatTextInjective(m: nat, n: nat)
    requires NatText(m) == NatText(n)
    ensures m == n
  {
    var s, t := NatText(m), NatText(n);
    assert s[|s| - 1] == '0' + (m % 10) as char && t[|t| - 1] == '0' + (n % 10) as char;
    NatTextLength(m);
    NatTextLength(n);
    if m >= 10 && n >= 10 {
      assert NatText(m / 10) == s[..|s| - 1] && NatText(n / 10) == t[..|t| - 1];
      NatTextInjective(m / 10, n / 10);
    }
  }

  // Decimal digits and a sign, nothing else.
  predicate Numeral(s: string) { forall i :: 0 <= i < |s| ==> s[i] == '-' || '0' <= s[i] <= '9' }

  lemma {:induction false} NatTextDigits(n: nat)
    ensures forall i :: 0 <= i < |NatText(n)| ==> '0' <= NatText(n)[i] <= '9'
  {
    if n >= 10 { NatTextDigits(n / 10); }
  }

  lemma IntTextInjective(m: int, n: int)
    requires IntText(m) == IntText(n)
    ensures m == n
  {
    var a, b := if m < 0 then -m else m, if n < 0 then -n else n;
    NatTextDigits(a);
    NatTextDigits(b);
    if m < 0 && n < 0 {
      assert NatText(a) == IntText(m)[1..] && NatText(b) == IntText(n)[1..];
    } else {
      assert IntText(m)[0] == IntText(n)[0];
    }
    NatTextInjective(a, b);
  }

  lemma IntTextIsNumeral(n: int)
    ensures Numeral(IntText(n))
  {
    NatTextDigits(if n < 0 then -n else n);
  }

  predicate IsMediaEvent(t: EventType) { t.MediaGrabbed? || t.MediaImported? || t.MediaUpgraded? || t.MediaDeleted? }

  predicate AboutMedia(t: EventType) { IsLifecycle(t) || IsMediaEvent(t) }

  lemma MediaNameHasNoColon(t: EventType)
    requires AboutMedia(t)
    ensures NoColon(TypeName(t))
  {
  }

  lemma OtherNameHasNoColon(t: EventType)
    requires !AboutMedia(t)
    ensures NoColon(TypeName(t))
  {
  }

  lemma TypeNameHasNoColon(t: EventType)
    ensures NoColon(TypeName(t))
  {
    if AboutMedia(t) { MediaNameHasNoColon(t); } else { OtherNameHasNoColon(t); }
  }

  lemma MediaNamesDiffer(t: EventType, u: EventType)
    requires IsMediaEvent(t) && IsMediaEvent(u) && TypeName(t) == TypeName(u)
    ensures t == u
  {
  }

  lemma LifecycleNamesDiffer(t: EventType, u: EventType)
    requires IsLifecycle(t) && IsLifecycle(u) && TypeName(t) == TypeName(u)
    ensures t == u
  {
  }
}
