/** Timestamps are stored as text and compared as text. A stamp printed by
    `_iso` omits the microseconds when they are zero, so two stored strings may
    have different lengths. This module proves that comparing the text is
    comparing the instants, which is why the rest of the model may use integers.
 */
module Timestamps {
  import opened Types
  import opened Events
  import Like

  // A UTC `datetime`.
  datatype Stamp = Stamp(year: int, month: int, day: int, hour: int, minute: int, second: int, micro: int)

  predicate Leap(y: int) { y % 4 == 0 && (y % 100 != 0 || y % 400 == 0) }

  function DaysInMonth(y: int, m: int): nat {
    if m == 2 then (if Leap(y) then 29 else 28)
    else if m in {4, 6, 9, 11} then 30 else 31
  }

  predicate Valid(s: Stamp) {
    && 1 <= s.year <= 9999 && 1 <= s.month <= 12 && 1 <= s.day <= DaysInMonth(s.year, s.month)
    && 0 <= s.hour < 24 && 0 <= s.minute < 60 && 0 <= s.second < 60 && 0 <= s.micro < 1_000_000
  }

  function DaysInYear(y: int): nat { if Leap(y) then 366 else 365 }

  function DaysBeforeYear(y: int): nat
    requires y >= 1
  {
    if y == 1 then 0 else DaysBeforeYear(y - 1) + DaysInYear(y - 1)
  }

  function DaysBeforeMonth(y: int, m: int): nat
    requires m >= 1
  {
    if m == 1 then 0 else DaysBeforeMonth(y, m - 1) + DaysInMonth(y, m - 1)
  }

  // Proleptic Gregorian day number.
  function Ordinal(s: Stamp): int
    requires s.year >= 1 && s.month >= 1
  {
    DaysBeforeYear(s.year) + DaysBeforeMonth(s.year, s.month) + s.day
  }

  // The instant a stamp denotes.
  function Instant(s: Stamp): Time
    requires s.year >= 1 && s.month >= 1
  {
    Ordinal(s) * DAY + s.hour * HOUR + s.minute * MINUTE + s.second * SECOND + s.micro
  }

  // ---- Text -------------------------------------------------------------

  // SQLite's BINARY collation.
  predicate TextLess(a: string, b: string) {
    b != "" && (a == "" || a[0] < b[0] || (a[0] == b[0] && TextLess(a[1..], b[1..])))
  }

  function Power10(w: nat): nat { if w == 0 then 1 else 10 * Power10(w - 1) }

  // `n` in decimal, zero-padded to `w` digits.
  function Digits(n: nat, w: nat): (s: string)
    ensures |s| == w
  {
    if w == 0 then "" else Digits(n / 10, w - 1) + ['0' + (n % 10) as char]
  }

  function FractionText(micro: nat): string {
    if micro == 0 then "" else "." + Digits(micro, 6)
  }

  // `dt.astimezone(UTC).isoformat()`
  function Iso(s: Stamp): string
    requires Valid(s)
  {
    Digits(s.year, 4) + "-" + (Digits(s.month, 2) + "-" + (Digits(s.day, 2) + "T" + (
      Digits(s.hour, 2) + ":" + (Digits(s.minute, 2) + ":" + (
        Digits(s.second, 2) + "" + (FractionText(s.micro) + "+00:00"))))))
  }

  lemma {:induction false} TextLessAppend(p: string, q: string, x: string, y: string)
    requires |p| == |q|
    ensures TextLess(p + x, q + y) <==> TextLess(p, q) || (p == q && TextLess(x, y))
  {
    if p == "" {
      assert p + x == x && q + y == y;
    } else {
      assert (p + x)[1..] == p[1..] + x && (q + y)[1..] == q[1..] + y;
      TextLessAppend(p[1..], q[1..], x, y);
      assert p == q <==> p[0] == q[0] && p[1..] == q[1..];
    }
  }

  lemma {:induction false} TextLessIrreflexive(p: string)
    ensures !TextLess(p, p)
  {
    if p != "" { TextLessIrreflexive(p[1..]); }
  }

  lemma {:induction false} TextLessTotal(a: string, b: string)
    ensures a == b || TextLess(a, b) || TextLess(b, a)
  {
    if a != "" && b != "" && a[0] == b[0] {
      TextLessTotal(a[1..], b[1..]);
      assert a == [a[0]] + a[1..] && b == [b[0]] + b[1..];
    }
  }

  lemma {:induction false} TextLessTransitive(a: string, b: string, c: string)
    requires TextLess(a, b) && TextLess(b, c)
    ensures TextLess(a, c)
  {
    if a != "" && a[0] == b[0] == c[0] { TextLessTransitive(a[1..], b[1..], c[1..]); }
  }

  // Zero-padded numbers of one width compare as numbers.
  lemma {:induction false} DigitsOrder(a: nat, b: nat, w: nat)
    requires a < Power10(w) && b < Power10(w)
    ensures TextLess(Digits(a, w), Digits(b, w)) <==> a < b
    ensures Digits(a, w) == Digits(b, w) <==> a == b
  {
    if w > 0 {
      DigitsOrder(a / 10, b / 10, w - 1);
      var da, db := ['0' + (a % 10) as char], ['0' + (b % 10) as char];
      TextLessAppend(Digits(a / 10, w - 1), Digits(b / 10, w - 1), da, db);
      assert Digits(a, w)[w - 1] == da[0] && Digits(b, w)[w - 1] == db[0];
      assert Digits(a, w)[..w - 1] == Digits(a / 10, w - 1) && Digits(b, w)[..w - 1] == Digits(b / 10, w - 1);
      assert TextLess(da, db) <==> da[0] < db[0];
    }
  }

  lemma FieldOrder(a: nat, b: nat, w: nat, sep: string, x: string, y: string)
    requires a < Power10(w) && b < Power10(w)
    ensures TextLess(Digits(a, w) + sep + x, Digits(b, w) + sep + y) <==> a < b || (a == b && TextLess(x, y))
  {
    DigitsOrder(a, b, w);
    assert Digits(a, w) + sep + x == Digits(a, w) + (sep + x) && Digits(b, w) + sep + y == Digits(b, w) + (sep + y);
    TextLessAppend(Digits(a, w), Digits(b, w), sep + x, sep + y);
    TextLessAppend(sep, sep, x, y);
    TextLessIrreflexive(sep);
  }

  // The mixed case: an absent fraction sorts first because '+' < '.'.
  lemma FractionOrder(a: nat, b: nat)
    requires a < 1_000_000 && b < 1_000_000
    ensures TextLess(FractionText(a) + "+00:00", FractionText(b) + "+00:00") <==> a < b
  {
    assert Power10(6) == 1_000_000;
    var tail := "+00:00";
    TextLessIrreflexive(tail);
    if a != 0 && b != 0 {
      FieldOrder(a, b, 6, "", tail, tail);
      assert FractionText(a) + tail == "." + (Digits(a, 6) + "" + tail);
      assert FractionText(b) + tail == "." + (Digits(b, 6) + "" + tail);
      TextLessAppend(".", ".", Digits(a, 6) + "" + tail, Digits(b, 6) + "" + tail);
      TextLessIrreflexive(".");
    } else {
      assert FractionText(0) + tail == tail;
    }
  }

  // ---- Calendar ---------------------------------------------------------

  predicate DateLess(a: Stamp, b: Stamp) {
    a.year < b.year || (a.year == b.year && (a.month < b.month || (a.month == b.month && a.day < b.day)))
  }

  lemma {:induction false} MonthsGrow(y: int, m: int, n: int)
    requires 1 <= m < n
    ensures DaysBeforeMonth(y, m) + DaysInMonth(y, m) <= DaysBeforeMonth(y, n)
  {
    if m < n - 1 { MonthsGrow(y, m, n - 1); }
  }

  lemma YearDays(y: int)
    ensures DaysBeforeMonth(y, 13) == DaysInYear(y)
  {
    var spring := if Leap(y) then 60 else 59;
    assert DaysBeforeMonth(y, 2) == 31;
    assert DaysBeforeMonth(y, 3) == spring;
    assert DaysBeforeMonth(y, 5) == spring + 61;
    assert DaysBeforeMonth(y, 7) == spring + 122;
    assert DaysBeforeMonth(y, 9) == spring + 184;
    assert DaysBeforeMonth(y, 11) == spring + 245;
  }

  lemma {:induction false} YearsGrow(y: int, z: int)
    requires 1 <= y < z
    ensures DaysBeforeYear(y) + DaysInYear(y) <= DaysBeforeYear(z)
  {
    if y < z - 1 { YearsGrow(y, z - 1); }
  }

  lemma DateOrder(a: Stamp, b: Stamp)
    requires Valid(a) && Valid(b) && DateLess(a, b)
    ensures Ordinal(a) < Ordinal(b)
  {
    if a.year < b.year {
      YearsGrow(a.year, b.year);
      YearDays(a.year);
      MonthsGrow(a.year, a.month, 13);
    } else if a.month < b.month {
      MonthsGrow(a.year, a.month, b.month);
    }
  }

  function SecondOfDay(s: Stamp): int { s.hour * 3600 + s.minute * 60 + s.second }

  lemma InstantParts(s: Stamp)
    requires Valid(s)
    ensures Instant(s) == Ordinal(s) * 86_400_000_000 + SecondOfDay(s) * 1_000_000 + s.micro
    ensures 0 <= SecondOfDay(s) < 86_400
  {
  }

  lemma InstantOrder(a: Stamp, b: Stamp)
    requires Valid(a) && Valid(b)
    ensures DateLess(a, b) ==> Instant(a) < Instant(b)
    ensures DateLess(b, a) ==> Instant(b) < Instant(a)
    ensures !DateLess(a, b) && !DateLess(b, a) ==>
      (Instant(a) < Instant(b) <==>
       SecondOfDay(a) < SecondOfDay(b) || (SecondOfDay(a) == SecondOfDay(b) && a.micro < b.micro))
  {
    if DateLess(a, b) { DateOrder(a, b); }
    if DateLess(b, a) { DateOrder(b, a); }
    InstantParts(a);
    InstantParts(b);
  }

  // The text order of stored timestamps is the order of the instants, even
  // when only one of them carries microseconds.
  lemma TextOrderIsTimeOrder(a: Stamp, b: Stamp)
    requires Valid(a) && Valid(b)
    ensures TextLess(Iso(a), Iso(b)) <==> Instant(a) < Instant(b)
  {
    assert Power10(4) == 10_000 && Power10(2) == 100;
    var fa, fb := FractionText(a.micro) + "+00:00", FractionText(b.micro) + "+00:00";
    FractionOrder(a.micro, b.micro);
    FieldOrder(a.second, b.second, 2, "", fa, fb);
    var sa, sb := Digits(a.second, 2) + "" + fa, Digits(b.second, 2) + "" + fb;
    FieldOrder(a.minute, b.minute, 2, ":", sa, sb);
    var ma, mb := Digits(a.minute, 2) + ":" + sa, Digits(b.minute, 2) + ":" + sb;
    FieldOrder(a.hour, b.hour, 2, ":", ma, mb);
    var ha, hb := Digits(a.hour, 2) + ":" + ma, Digits(b.hour, 2) + ":" + mb;
    FieldOrder(a.day, b.day, 2, "T", ha, hb);
    var da, db := Digits(a.day, 2) + "T" + ha, Digits(b.day, 2) + "T" + hb;
    FieldOrder(a.month, b.month, 2, "-", da, db);
    FieldOrder(a.year, b.year, 4, "-", Digits(a.month, 2) + "-" + da, Digits(b.month, 2) + "-" + db);
    InstantOrder(a, b);
  }

  // ---- Reading a stamp back -----------------------------------------------

  predicate AllDigits(s: string) { forall i :: 0 <= i < |s| ==> '0' <= s[i] <= '9' }

  function NumberOf(s: string): nat
    requires AllDigits(s)
  {
    if s == "" then 0 else NumberOf(s[..|s| - 1]) * 10 + (s[|s| - 1] - '0') as nat
  }

  datatype Field = Field(value: int, rest: string)

  // `w` digits, then the separator.
  function Take(s: string, w: nat, sep: string): Option<Field> {
    if w + |sep| <= |s| && AllDigits(s[..w]) && s[w..w + |sep|] == sep
    then Some(Field(NumberOf(s[..w]), s[w + |sep|..])) else None
  }

  function TakeFraction(s: string): Option<Field> {
    if s != "" && s[0] == '.' then Take(s[1..], 6, "+00:00") else Take(s, 0, "+00:00")
  }

  // `datetime.fromisoformat` on the shape that `isoformat` prints for UTC.
  function ParseIso(s: string): Option<Stamp> {
    var y := Take(s, 4, "-");
    if y.None? then None else
    var m := Take(y.value.rest, 2, "-");
    if m.None? then None else
    var d := Take(m.value.rest, 2, "T");
    if d.None? then None else
    var h := Take(d.value.rest, 2, ":");
    if h.None? then None else
    var n := Take(h.value.rest, 2, ":");
    if n.None? then None else
    var c := Take(n.value.rest, 2, "");
    if c.None? then None else
    var u := TakeFraction(c.value.rest);
    if u.None? || u.value.rest != "" then None else
    var t := Stamp(y.value.value, m.value.value, d.value.value, h.value.value, n.value.value, c.value.value,
      u.value.value);
    if Valid(t) then Some(t) else None
  }

  lemma {:induction false} DigitsRead(n: nat, w: nat)
    requires n < Power10(w)
    ensures AllDigits(Digits(n, w)) && NumberOf(Digits(n, w)) == n
  {
    if w > 0 {
      DigitsRead(n / 10, w - 1);
      assert Digits(n, w)[..w - 1] == Digits(n / 10, w - 1);
    }
  }

  lemma TakesField(n: nat, w: nat, sep: string, rest: string)
    requires n < Power10(w)
    ensures Take(Digits(n, w) + sep + rest, w, sep) == Some(Field(n, rest))
  {
    var s := Digits(n, w) + sep + rest;
    DigitsRead(n, w);
    assert s[..w] == Digits(n, w) && s[w..w + |sep|] == sep && s[w + |sep|..] == rest;
  }

  lemma TakesFraction(micro: nat)
    requires micro < 1_000_000
    ensures TakeFraction(FractionText(micro) + "+00:00") == Some(Field(micro, ""))
  {
    assert Power10(6) == 1_000_000 && Power10(0) == 1;
    var tail := "+00:00";
    if micro == 0 {
      TakesField(0, 0, tail, "");
      assert FractionText(0) + tail == Digits(0, 0) + tail + "";
    } else {
      TakesField(micro, 6, tail, "");
      assert (FractionText(micro) + tail)[1..] == Digits(micro, 6) + tail + "";
    }
  }

  // A printed stamp reads back as itself; so different instants print differently.
  lemma IsoRoundTrip(s: Stamp)
    requires Valid(s)
    ensures ParseIso(Iso(s)) == Some(s)
  {
    assert Power10(4) == 10_000 && Power10(2) == 100;
    var f := FractionText(s.micro) + "+00:00";
    TakesFraction(s.micro);
    TakesField(s.second, 2, "", f);
    var c := Digits(s.second, 2) + "" + f;
    TakesField(s.minute, 2, ":", c);
    var n := Digits(s.minute, 2) + ":" + c;
    TakesField(s.hour, 2, ":", n);
    var h := Digits(s.hour, 2) + ":" + n;
    TakesField(s.day, 2, "T", h);
    var d := Digits(s.day, 2) + "T" + h;
    TakesField(s.month, 2, "-", d);
    TakesField(s.year, 4, "-", Digits(s.month, 2) + "-" + d);
  }

  // ---- The text of an instant ----------------------------------------------

  function YearAt(n: nat, y: int): (r: int)
    requires y >= 1 && DaysBeforeYear(y) < n
    ensures y <= r && DaysBeforeYear(r) < n <= DaysBeforeYear(r) + DaysInYear(r)
    decreases n - DaysBeforeYear(y)
  {
    if n <= DaysBeforeYear(y) + DaysInYear(y) then y else YearAt(n, y + 1)
  }

  function MonthAt(y: int, n: nat, m: int): (r: int)
    requires 1 <= m <= 12 && DaysBeforeMonth(y, m) < n <= DaysBeforeMonth(y, 13)
    ensures m <= r <= 12 && DaysBeforeMonth(y, r) < n <= DaysBeforeMonth(y, r) + DaysInMonth(y, r)
    decreases 12 - m
  {
    if n <= DaysBeforeMonth(y, m) + DaysInMonth(y, m) then m
    else
      assert DaysBeforeMonth(y, m + 1) == DaysBeforeMonth(y, m) + DaysInMonth(y, m);
      MonthAt(y, n, m + 1)
  }

  // A `datetime` has a year of one to four digits.
  predicate Dated(t: Time) { t / 86_400_000_000 >= 1 && YearAt(t / 86_400_000_000, 1) <= 9999 }

  function DateAt(n: nat): (s: Stamp)
    requires n >= 1 && YearAt(n, 1) <= 9999
    ensures Valid(s) && Ordinal(s) == n && s.hour == s.minute == s.second == s.micro == 0
  {
    var y := YearAt(n, 1);
    YearDays(y);
    var m := MonthAt(y, n - DaysBeforeYear(y), 1);
    Stamp(y, m, n - DaysBeforeYear(y) - DaysBeforeMonth(y, m), 0, 0, 0, 0)
  }

  lemma ClockParts(n: nat)
    requires n < 86_400
    ensures 0 <= n / 3600 < 24 && 0 <= n / 60 % 60 < 60
    ensures n / 3600 * 3600 + n / 60 % 60 * 60 + n % 60 == n
  {
    var minutes := n / 60;
    assert minutes / 60 == n / 3600;
    assert minutes == minutes / 60 * 60 + minutes % 60;
  }

  lemma DayParts(t: Time)
    ensures var rest := t % 86_400_000_000;
      && 0 <= rest / 1_000_000 < 86_400
      && t / 86_400_000_000 * 86_400_000_000 + rest / 1_000_000 * 1_000_000 + rest % 1_000_000 == t
  {
  }

  // The stamp that denotes an instant.
  function StampOf(t: Time): (s: Stamp)
    requires Dated(t)
    ensures Valid(s)
  {
    var rest := t % 86_400_000_000;
    var n := rest / 1_000_000;
    DayParts(t);
    ClockParts(n);
    DateAt(t / 86_400_000_000).(hour := n / 3600, minute := n / 60 % 60, second := n % 60, micro := rest % 1_000_000)
  }

  lemma StampDenotes(t: Time)
    requires Dated(t)
    ensures Instant(StampOf(t)) == t
  {
    var s := StampOf(t);
    DayParts(t);
    ClockParts(t % 86_400_000_000 / 1_000_000);
    assert Ordinal(s) == t / 86_400_000_000;
    InstantParts(s);
  }

  // The text the code prints for an instant; one that no `datetime` denotes
  // prints as its number.
  function TimeText(t: Time): string { if Dated(t) then Iso(StampOf(t)) else IntText(t) }

  lemma InstantsDiffer(a: Stamp, b: Stamp)
    requires Valid(a) && Valid(b) && Iso(a) == Iso(b)
    ensures a == b
  {
    IsoRoundTrip(a);
    IsoRoundTrip(b);
  }

  lemma TimeTextInjective(a: Time, b: Time)
    requires TimeText(a) == TimeText(b)
    ensures a == b
  {
    IntTextIsNumeral(a);
    IntTextIsNumeral(b);
    if Dated(a) { IsoHasT(StampOf(a)); }
    if Dated(b) { IsoHasT(StampOf(b)); }
    if Dated(a) && Dated(b) {
      InstantsDiffer(StampOf(a), StampOf(b));
      StampDenotes(a);
      StampDenotes(b);
    } else if !Dated(a) && !Dated(b) {
      IntTextInjective(a, b);
    }
  }

  lemma IsoHasT(s: Stamp)
    requires Valid(s)
    ensures |Iso(s)| > 10 && Iso(s)[10] == 'T'
  {
  }

  // Comparing the texts of two instants is comparing the instants.
  lemma TimeTextOrder(a: Time, b: Time)
    requires Dated(a) && Dated(b)
    ensures TextLess(TimeText(a), TimeText(b)) <==> a < b
  {
    TextOrderIsTimeOrder(StampOf(a), StampOf(b));
    StampDenotes(a);
    StampDenotes(b);
  }

  // Every colon in it is followed by a digit.
  predicate DigitAfterColon(s: string) {
    forall i :: 0 <= i < |s| - 1 && s[i] == ':' ==> '0' <= s[i + 1] <= '9'
  }

  predicate DigitFirst(s: string) { s != "" && '0' <= s[0] <= '9' }

  lemma FieldColons(n: nat, w: nat, sep: string, rest: string)
    requires n < Power10(w) && w > 0 && |sep| <= 1 && DigitAfterColon(rest) && (sep == ":" ==> DigitFirst(rest))
    ensures DigitAfterColon(Digits(n, w) + sep + rest) && DigitFirst(Digits(n, w) + sep + rest)
  {
    DigitsRead(n, w);
    var s := Digits(n, w) + sep + rest;
    forall i | 0 <= i < |s| - 1 && s[i] == ':'
      ensures '0' <= s[i + 1] <= '9'
    {
      if i >= w + |sep| { assert s[i] == rest[i - w - |sep|] && s[i + 1] == rest[i + 1 - w - |sep|]; }
    }
  }

  lemma FractionColons(micro: nat)
    requires micro < 1_000_000
    ensures DigitAfterColon(FractionText(micro) + "+00:00")
  {
    assert Power10(6) == 1_000_000;
    DigitsRead(micro, 6);
  }

  lemma IsoColons(s: Stamp)
    requires Valid(s)
    ensures DigitAfterColon(Iso(s)) && DigitFirst(Iso(s))
  {
    assert Power10(4) == 10_000 && Power10(2) == 100;
    var f := FractionText(s.micro) + "+00:00";
    FractionColons(s.micro);
    FieldColons(s.second, 2, "", f);
    var c := Digits(s.second, 2) + "" + f;
    FieldColons(s.minute, 2, ":", c);
    var n := Digits(s.minute, 2) + ":" + c;
    FieldColons(s.hour, 2, ":", n);
    var h := Digits(s.hour, 2) + ":" + n;
    FieldColons(s.day, 2, "T", h);
    var d := Digits(s.day, 2) + "T" + h;
    FieldColons(s.month, 2, "-", d);
    FieldColons(s.year, 4, "-", Digits(s.month, 2) + "-" + d);
  }

  // ---- Printing into keys ------------------------------------------------------

  // A text that may follow the gap marker's mark, `reconcile.gap:`. The letter the
  // mark starts with comes in it neither first nor after a colon.
  predicate KeyText(s: string) { Like.NeverAfterColon(":" + s, 'r') }

  ghost predicate Prints(f: Time -> string) {
    (forall a, b :: f(a) == f(b) ==> a == b) && (forall t :: KeyText(f(t)))
  }

  lemma TimeTextIsKeyText(t: Time)
    ensures KeyText(TimeText(t))
  {
    var text := TimeText(t);
    if Dated(t) { IsoColons(StampOf(t)); } else { IntTextIsNumeral(t); }
    forall i | 0 <= i < |":" + text| - 1 && (":" + text)[i] == ':'
      ensures (":" + text)[i + 1] == '-' || '0' <= (":" + text)[i + 1] <= '9'
    {
      if i > 0 { assert text[i - 1] == ':'; }
    }
  }

  lemma TimeTextPrints()
    ensures Prints(TimeText)
  {
    forall a, b | TimeText(a) == TimeText(b) ensures a == b { TimeTextInjective(a, b); }
    forall t ensures KeyText(TimeText(t)) { TimeTextIsKeyText(t); }
  }

  // ---- The digest's ledger key --------------------------------------------

  datatype Bounds = Bounds(since: Stamp, until: Stamp)

  function DigestKeyText(b: Bounds): string
    requires Valid(b.since) && Valid(b.until)
  {
    "digest:" + (Iso(b.since) + "|" + Iso(b.until))
  }

  // `str.partition("|")`
  function BarAt(s: string): (at: Option<nat>)
    ensures at.Some? ==> at.value < |s| && s[at.value] == '|' && forall i :: 0 <= i < at.value ==> s[i] != '|'
    ensures at.None? ==> forall i :: 0 <= i < |s| ==> s[i] != '|'
  {
    if s == "" then None
    else if s[0] == '|' then Some(0)
    else
      var rest := BarAt(s[1..]);
      assert forall i :: 1 <= i < |s| ==> s[i] == s[1..][i - 1];
      if rest.Some? then Some(rest.value + 1) else None
  }

  function ParseDigestKey(key: string): Option<Bounds> {
    var body := if "digest:" <= key then key[7..] else key;
    var at := BarAt(body);
    if at.None? then None else
    assert at.value < |body|;
    var since, until := ParseIso(body[..at.value]), ParseIso(body[at.value + 1..]);
    if since.Some? && until.Some? then Some(Bounds(since.value, until.value)) else None
  }

  predicate NoBar(s: string) { forall i :: 0 <= i < |s| ==> s[i] != '|' }

  lemma FieldHasNoBar(n: nat, w: nat, sep: string, rest: string)
    requires n < Power10(w) && NoBar(sep) && NoBar(rest)
    ensures NoBar(Digits(n, w) + sep + rest)
  {
    DigitsRead(n, w);
  }

  lemma IsoHasNoBar(s: Stamp)
    requires Valid(s)
    ensures NoBar(Iso(s))
  {
    assert Power10(6) == 1_000_000 && Power10(4) == 10_000 && Power10(2) == 100;
    DigitsRead(s.micro, 6);
    var f := FractionText(s.micro) + "+00:00";
    FieldHasNoBar(s.second, 2, "", f);
    var c := Digits(s.second, 2) + "" + f;
    FieldHasNoBar(s.minute, 2, ":", c);
    var n := Digits(s.minute, 2) + ":" + c;
    FieldHasNoBar(s.hour, 2, ":", n);
    var h := Digits(s.hour, 2) + ":" + n;
    FieldHasNoBar(s.day, 2, "T", h);
    var d := Digits(s.day, 2) + "T" + h;
    FieldHasNoBar(s.month, 2, "-", d);
    FieldHasNoBar(s.year, 4, "-", Digits(s.month, 2) + "-" + d);
  }

  lemma TimeTextHasNoBar(t: Time)
    ensures NoBar(TimeText(t))
  {
    if Dated(t) { IsoHasNoBar(StampOf(t)); }
    IntTextIsNumeral(t);
  }

  lemma FirstBar(x: string, y: string)
    requires NoBar(x)
    ensures BarAt(x + "|" + y) == Some(|x|) && (x + "|" + y)[..|x|] == x && (x + "|" + y)[|x| + 1..] == y
  {
    var body := x + "|" + y;
    assert body[|x|] == '|' && forall i :: 0 <= i < |x| ==> body[i] == x[i];
  }

  lemma PrefixRemoved(body: string)
    ensures "digest:" <= "digest:" + body && ("digest:" + body)[7..] == body
  {
  }

  // The renderer recovers from the key the window the row was enqueued for.
  lemma DigestKeyRoundTrip(b: Bounds)
    requires Valid(b.since) && Valid(b.until)
    ensures ParseDigestKey(DigestKeyText(b)) == Some(b)
  {
    PrefixRemoved(Iso(b.since) + "|" + Iso(b.until));
    IsoHasNoBar(b.since);
    FirstBar(Iso(b.since), Iso(b.until));
    IsoRoundTrip(b.since);
    IsoRoundTrip(b.until);
  }
}
