/** Media identity: resolving a reference to a row of the media table. The
    schema puts no uniqueness on the external ids; the lookup order keeps the
    TMDB id unique, and only that one.
 */
module Media {
  import opened Types
  import opened Events

  // `kind` is Movie or Series. A row's id is its position: rows are only added.
  datatype Row = Row(
    kind: Kind, tmdb: Option<int>, tvdb: Option<int>, imdb: Option<string>,
    title: Option<string>, year: Option<int>)

  datatype Column = Tmdb | Tvdb | Imdb

  datatype Value = Number(n: int) | Text(s: string)

  function RowKind(ref: MediaRef): Kind {
    if ref.kind in {Some(Series), Some(Season), Some(Episode)} then Series else Movie
  }

  function RowValue(row: Row, c: Column): Option<Value> {
    match c
    case Tmdb => if row.tmdb.Some? then Some(Number(row.tmdb.value)) else None
    case Tvdb => if row.tvdb.Some? then Some(Number(row.tvdb.value)) else None
    case Imdb => if row.imdb.Some? then Some(Text(row.imdb.value)) else None
  }

  function RefValue(ref: MediaRef, c: Column): Option<Value> {
    match c
    case Tmdb => if ref.tmdb.Some? then Some(Number(ref.tmdb.value)) else None
    case Tvdb => if ref.tvdb.Some? then Some(Number(ref.tvdb.value)) else None
    case Imdb => if ref.imdb.Some? then Some(Text(ref.imdb.value)) else None
  }

  // `SELECT ... fetchone()`: the first row, in insertion order, that passes.
  function First(rows: seq<Row>, passes: Row -> bool): (hit: Option<nat>)
    ensures hit.Some? ==> hit.value < |rows| && passes(rows[hit.value])
    ensures forall j :: 0 <= j < (if hit.Some? then hit.value else |rows|) ==> !passes(rows[j])
  {
    if rows == [] then None
    else if passes(rows[0]) then Some(0)
    else
      var rest := First(rows[1..], passes);
      assert forall j :: 1 <= j < |rows| ==> rows[j] == rows[1..][j - 1];
      if rest.Some? then Some(rest.value + 1) else None
  }

  // Without a value the query is not made.
  function ByColumn(rows: seq<Row>, ref: MediaRef, c: Column): Option<nat> {
    var v := RefValue(ref, c);
    if v.None? then None
    else First(rows, (row: Row) => row.kind == RowKind(ref) && RowValue(row, c) == v)
  }

  // `title = ?` never holds for NULL, `year IS ?` does.
  function ByTitle(rows: seq<Row>, ref: MediaRef): Option<nat> {
    First(rows, (row: Row) => row.kind == RowKind(ref) && ref.title.Some? && row.title == ref.title
      && row.year == ref.year)
  }

  predicate AnyId(ref: MediaRef) {
    TruthyInt(ref.tmdb) || TruthyInt(ref.tvdb) || TruthyText(ref.imdb)
  }

  function Lookup(rows: seq<Row>, ref: MediaRef): Option<nat> {
    if ByColumn(rows, ref, Tmdb).Some? then ByColumn(rows, ref, Tmdb)
    else if ByColumn(rows, ref, Tvdb).Some? then ByColumn(rows, ref, Tvdb)
    else if ByColumn(rows, ref, Imdb).Some? then ByColumn(rows, ref, Imdb)
    else if !AnyId(ref) then ByTitle(rows, ref)
    else None
  }

  function Backfill(row: Row, ref: MediaRef): Row {
    Row(row.kind, Or(row.tmdb, ref.tmdb), Or(row.tvdb, ref.tvdb), Or(row.imdb, ref.imdb),
        Or(row.title, ref.title), Or(row.year, ref.year))
  }

  datatype Resolved = Resolved(rows: seq<Row>, id: nat)

  function FindOrCreate(rows: seq<Row>, ref: MediaRef): (r: Resolved)
    ensures r.id < |r.rows|
  {
    var hit := Lookup(rows, ref);
    if hit.Some? then
      assert hit.value < |rows|;
      Resolved(rows[hit.value := Backfill(rows[hit.value], ref)], hit.value)
    else
      Resolved(rows + [Row(RowKind(ref), ref.tmdb, ref.tvdb, ref.imdb, ref.title, ref.year)], |rows|)
  }

  // ---- Which row is found -------------------------------------------------

  // What each query in turn asks for: the TMDB id, the TVDB id, the IMDb id and,
  // for a reference without ids, title and year.
  predicate Fits(row: Row, ref: MediaRef, step: nat) {
    && (row.kind == if ref.kind in {Some(Series), Some(Season), Some(Episode)} then Series else Movie)
    && match step
       case 0 => ref.tmdb.Some? && row.tmdb == ref.tmdb
       case 1 => ref.tvdb.Some? && row.tvdb == ref.tvdb
       case 2 => ref.imdb.Some? && row.imdb == ref.imdb
       case _ =>
         && step == 3 && ref.tmdb in {None, Some(0)} && ref.tvdb in {None, Some(0)} && ref.imdb in {None, Some("")}
         && ref.title.Some? && row.title == ref.title && row.year == ref.year
  }

  ghost predicate FirstToFit(rows: seq<Row>, ref: MediaRef, id: nat, step: nat)
    requires id < |rows|
  {
    && Fits(rows[id], ref, step)
    && (forall i, s: nat :: 0 <= i < |rows| && s < step ==> !Fits(rows[i], ref, s))
    && (forall i :: 0 <= i < id ==> !Fits(rows[i], ref, step))
  }

  // The row found is the first that fits the earliest query any row fits. If none
  // fits any, a new row says what the reference says.
  lemma FoundRow(rows: seq<Row>, ref: MediaRef)
    ensures var r := FindOrCreate(rows, ref);
      if exists i, step: nat :: 0 <= i < |rows| && Fits(rows[i], ref, step)
      then r.id < |rows| == |r.rows| && exists step: nat :: FirstToFit(rows, ref, r.id, step)
      else r.id == |rows| && |r.rows| == |rows| + 1
  {
    var hit := Lookup(rows, ref);
    if hit.Some? {
      var step := if ByColumn(rows, ref, Tmdb).Some? then 0 else if ByColumn(rows, ref, Tvdb).Some? then 1
        else if ByColumn(rows, ref, Imdb).Some? then 2 else 3;
      assert FirstToFit(rows, ref, hit.value, step);
    }
  }

  // What the reference says is there afterwards unless the row said otherwise.
  lemma FoundRowIsFilled(rows: seq<Row>, ref: MediaRef)
    ensures var r := FindOrCreate(rows, ref); var row := r.rows[r.id];
      && (row.kind == if ref.kind in {Some(Series), Some(Season), Some(Episode)} then Series else Movie)
      && (r.id == |rows| ==>
            row.tmdb == ref.tmdb && row.tvdb == ref.tvdb && row.imdb == ref.imdb && row.title == ref.title
              && row.year == ref.year)
      && (r.id < |rows| ==>
            && (rows[r.id].tmdb.None? ==> row.tmdb == ref.tmdb) && (rows[r.id].tvdb.None? ==> row.tvdb == ref.tvdb)
            && (rows[r.id].imdb.None? ==> row.imdb == ref.imdb) && (rows[r.id].title.None? ==> row.title == ref.title)
            && (rows[r.id].year.None? ==> row.year == ref.year))
  {
    if Lookup(rows, ref).Some? { HitHasKind(rows, ref); }
  }

  // ---- TMDB identity ----------------------------------------------------

  predicate ColumnUnique(rows: seq<Row>, c: Column) {
    forall i, j :: 0 <= i < j < |rows| && rows[i].kind == rows[j].kind && RowValue(rows[i], c).Some? ==>
      RowValue(rows[i], c) != RowValue(rows[j], c)
  }

  predicate TmdbUnique(rows: seq<Row>) { ColumnUnique(rows, Tmdb) }

  // No column that was set is ever changed, and no row disappears.
  predicate Keeps(old_: seq<Row>, new_: seq<Row>) {
    && |old_| <= |new_|
    && forall i :: 0 <= i < |old_| ==>
         && new_[i].kind == old_[i].kind
         && (old_[i].tmdb.Some? ==> new_[i].tmdb == old_[i].tmdb)
         && (old_[i].tvdb.Some? ==> new_[i].tvdb == old_[i].tvdb)
         && (old_[i].imdb.Some? ==> new_[i].imdb == old_[i].imdb)
         && (old_[i].title.Some? ==> new_[i].title == old_[i].title)
         && (old_[i].year.Some? ==> new_[i].year == old_[i].year)
  }

  lemma FindOrCreateKeeps(rows: seq<Row>, ref: MediaRef)
    ensures Keeps(rows, FindOrCreate(rows, ref).rows)
    ensures TmdbUnique(rows) ==> TmdbUnique(FindOrCreate(rows, ref).rows)
  {
  }

  predicate Carries(row: Row, ref: MediaRef, c: Column) {
    RefValue(ref, c).Some? && RowValue(row, c) == RefValue(ref, c)
  }

  // The row is of the kind the reference asks for and has one of its ids, or its
  // title if it has no ids.
  predicate Names(rows: seq<Row>, id: nat, ref: MediaRef) {
    && id < |rows| && rows[id].kind == RowKind(ref)
    && (Carries(rows[id], ref, Tmdb) || Carries(rows[id], ref, Tvdb) || Carries(rows[id], ref, Imdb)
        || (!AnyId(ref) && ref.title.Some? && rows[id].title == ref.title))
  }

  lemma FoundIsNamed(rows: seq<Row>, ref: MediaRef)
    requires Identified(ref)
    ensures var r := FindOrCreate(rows, ref); Names(r.rows, r.id, ref)
  {
  }

  // The table after resolving a sequence of references in turn.
  function ResolveAll(rows: seq<Row>, refs: seq<MediaRef>): seq<Row>
    decreases refs
  {
    if refs == [] then rows else ResolveAll(FindOrCreate(rows, refs[0]).rows, refs[1..])
  }

  lemma {:induction false} TmdbStaysUnique(rows: seq<Row>, refs: seq<MediaRef>)
    requires TmdbUnique(rows)
    ensures TmdbUnique(ResolveAll(rows, refs)) && Keeps(rows, ResolveAll(rows, refs))
    decreases refs
  {
    if refs != [] {
      FindOrCreateKeeps(rows, refs[0]);
      TmdbStaysUnique(FindOrCreate(rows, refs[0]).rows, refs[1..]);
    }
  }

  // Once a TMDB id sits on a row, a reference carrying it resolves to that row
  // whatever was resolved in between.
  lemma TmdbResolvesForever(rows: seq<Row>, refs: seq<MediaRef>, id: nat, ref: MediaRef)
    requires TmdbUnique(rows) && id < |rows|
    requires ref.tmdb.Some? && rows[id].tmdb == ref.tmdb && rows[id].kind == RowKind(ref)
    ensures FindOrCreate(ResolveAll(rows, refs), ref).id == id
  {
    TmdbStaysUnique(rows, refs);
    var later := ResolveAll(rows, refs);
    var hit := ByColumn(later, ref, Tmdb);
    assert later[id].kind == RowKind(ref) && RowValue(later[id], Tmdb) == RefValue(ref, Tmdb);
    assert hit.Some?;
    var at := hit.value;
    assert later[at].kind == later[id].kind && RowValue(later[at], Tmdb) == RowValue(later[id], Tmdb);
  }

  // ---- The other ids ----------------------------------------------------

  // The call copies an id onto the row it found although another row has it.
  predicate CopiesId(rows: seq<Row>, ref: MediaRef, c: Column) {
    Lookup(rows, ref).Some? && RowValue(rows[Lookup(rows, ref).value], c).None? && ByColumn(rows, ref, c).Some?
  }

  lemma CopyRepeats(rows: seq<Row>, ref: MediaRef, c: Column)
    requires CopiesId(rows, ref, c)
    ensures !ColumnUnique(FindOrCreate(rows, ref).rows, c)
  {
    var r, other := FindOrCreate(rows, ref), ByColumn(rows, ref, c).value;
    assert other != r.id && r.rows[other] == rows[other];
    assert RowValue(r.rows[r.id], c) == RefValue(ref, c) == RowValue(r.rows[other], c);
    assert r.rows[r.id].kind == rows[r.id].kind;
    HitHasKind(rows, ref);
    var i, j := Min(r.id, other), Max(r.id, other);
    assert r.rows[i].kind == r.rows[j].kind && RowValue(r.rows[i], c) == RowValue(r.rows[j], c);
  }

  lemma HitHasKind(rows: seq<Row>, ref: MediaRef)
    requires Lookup(rows, ref).Some?
    ensures rows[Lookup(rows, ref).value].kind == RowKind(ref)
  {
  }

  lemma OtherwiseUnique(rows: seq<Row>, ref: MediaRef, c: Column)
    requires ColumnUnique(rows, c) && !CopiesId(rows, ref, c)
    ensures ColumnUnique(FindOrCreate(rows, ref).rows, c)
  {
    var r := FindOrCreate(rows, ref);
    forall i, j | 0 <= i < j < |r.rows| && r.rows[i].kind == r.rows[j].kind && RowValue(r.rows[i], c).Some?
      ensures RowValue(r.rows[i], c) != RowValue(r.rows[j], c)
    {
      var other := if r.id == i then j else i;
      if Lookup(rows, ref).Some? { HitHasKind(rows, ref); }
      if RefValue(ref, c).Some? && ByColumn(rows, ref, c).None? && other < |rows| {
        assert !(rows[other].kind == RowKind(ref) && RowValue(rows[other], c) == RefValue(ref, c));
      }
    }
  }

  // A call keeps an id column unique if and only if it does not do that. For the
  // TMDB id, which is looked up first, it never does.
  lemma ColumnStaysUniqueIff(rows: seq<Row>, ref: MediaRef, c: Column)
    requires ColumnUnique(rows, c)
    ensures ColumnUnique(FindOrCreate(rows, ref).rows, c) <==> !CopiesId(rows, ref, c)
    ensures c == Tmdb ==> !CopiesId(rows, ref, c)
  {
    if CopiesId(rows, ref, c) { CopyRepeats(rows, ref, c); } else { OtherwiseUnique(rows, ref, c); }
  }

  // And it can happen: a reference found by its TMDB id copies its TVDB id onto
  // that row although another row already has it.
  lemma TvdbMayRepeat()
    ensures var refs := [MediaRef(Some(1), None, None, None, None, None),
                         MediaRef(None, Some(7), None, None, None, None),
                         MediaRef(Some(1), Some(7), None, None, None, None)];
      var rows := ResolveAll([], refs);
      |rows| == 2 && rows[0].kind == rows[1].kind && rows[0].tvdb == rows[1].tvdb == Some(7)
  {
    var a := MediaRef(Some(1), None, None, None, None, None);
    var b := MediaRef(None, Some(7), None, None, None, None);
    var c := MediaRef(Some(1), Some(7), None, None, None, None);
    var r1 := FindOrCreate([], a).rows;
    assert r1 == [Row(Movie, Some(1), None, None, None, None)];
    var r2 := FindOrCreate(r1, b).rows;
    assert ByColumn(r1, b, Tvdb).None?;
    assert r2 == r1 + [Row(Movie, None, Some(7), None, None, None)];
    assert r2[0].kind == RowKind(c) && RowValue(r2[0], Tmdb) == RefValue(c, Tmdb);
    assert ByColumn(r2, c, Tmdb) == Some(0);
    var r3 := FindOrCreate(r2, c).rows;
    assert r3 == r2[0 := Row(Movie, Some(1), Some(7), None, None, None)];
    assert [a, b, c][1..] == [b, c] && [b, c][1..] == [c] && [c][1..] == [];
    assert ResolveAll(r2, [c]) == r3;
    assert ResolveAll(r1, [b, c]) == r3;
  }

  // ---- Repeating a call -------------------------------------------------

  predicate Identified(ref: MediaRef) {
    ref.tmdb.Some? || ref.tvdb.Some? || ref.imdb.Some? || ref.title.Some?
  }

  // What a column lookup finds in the table the first call left behind.
  lemma ColumnAgain(rows: seq<Row>, ref: MediaRef, c: Column)
    requires RefValue(ref, c).Some?
    ensures var r := FindOrCreate(rows, ref);
            var was, now := ByColumn(rows, ref, c), ByColumn(r.rows, ref, c);
      && (was == Some(r.id) ==> now == Some(r.id))
      && (was == None ==> now == if RowValue(r.rows[r.id], c) == RefValue(ref, c) then Some(r.id) else None)
  {
    var r := FindOrCreate(rows, ref);
    var v := RefValue(ref, c);
    var was, now := ByColumn(rows, ref, c), ByColumn(r.rows, ref, c);
    var hits := (row: Row) => row.kind == RowKind(ref) && RowValue(row, c) == v;
    assert forall i :: 0 <= i < |rows| && i != r.id ==> r.rows[i] == rows[i];
    assert r.rows[r.id].kind == RowKind(ref);
    assert was.None? ==> forall i :: 0 <= i < |rows| ==> !hits(rows[i]);
    assert now.None? ==> forall i :: 0 <= i < |r.rows| ==> !hits(r.rows[i]);
    assert was == Some(r.id) ==> hits(rows[r.id]) && hits(r.rows[r.id]) && forall i :: 0 <= i < r.id ==> !hits(rows[i]);
  }

  lemma TitleAgain(rows: seq<Row>, ref: MediaRef)
    requires ref.title.Some?
    requires Lookup(rows, ref) == ByTitle(rows, ref)
    ensures ByTitle(FindOrCreate(rows, ref).rows, ref) == Some(FindOrCreate(rows, ref).id)
  {
    var r := FindOrCreate(rows, ref);
    var hits := (row: Row) => row.kind == RowKind(ref) && ref.title.Some? && row.title == ref.title
      && row.year == ref.year;
    var was, now := ByTitle(rows, ref), ByTitle(r.rows, ref);
    assert forall i :: 0 <= i < |rows| && i != r.id ==> r.rows[i] == rows[i];
    assert forall i :: 0 <= i < r.id ==> !hits(rows[i]);
    assert hits(r.rows[r.id]);
  }

  lemma SecondLookup(rows: seq<Row>, ref: MediaRef)
    requires Identified(ref)
    ensures Lookup(FindOrCreate(rows, ref).rows, ref) == Some(FindOrCreate(rows, ref).id)
  {
    if RefValue(ref, Tmdb).Some? { ColumnAgain(rows, ref, Tmdb); }
    if RefValue(ref, Tvdb).Some? { ColumnAgain(rows, ref, Tvdb); }
    if RefValue(ref, Imdb).Some? { ColumnAgain(rows, ref, Imdb); }
    if ref.title.Some? && Lookup(rows, ref) == ByTitle(rows, ref) { TitleAgain(rows, ref); }
  }

  lemma BackfilledIsFull(rows: seq<Row>, ref: MediaRef)
    ensures var r := FindOrCreate(rows, ref); Backfill(r.rows[r.id], ref) == r.rows[r.id]
  {
  }

  // A second identical call returns the same id and changes nothing, for
  // exactly those references that name something.
  lemma SecondCallIsNoOp(rows: seq<Row>, ref: MediaRef)
    ensures FindOrCreate(FindOrCreate(rows, ref).rows, ref) == FindOrCreate(rows, ref) <==> Identified(ref)
  {
    var r := FindOrCreate(rows, ref);
    if Identified(ref) {
      SecondLookup(rows, ref);
      BackfilledIsFull(rows, ref);
      assert r.rows[r.id := r.rows[r.id]] == r.rows;
    } else {
      assert Lookup(r.rows, ref).None?;
      assert |FindOrCreate(r.rows, ref).rows| == |r.rows| + 1;
    }
  }
}
