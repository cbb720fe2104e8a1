/** What `exportToExcel` hands to the spreadsheet library: one row object
    per business, with five fixed keys in a fixed order, a sheet name and a
    file name derived from the current query and today's date. */
module Export {
  import opened Results
  import opened Strings
  import opened Generator

  /** A spreadsheet cell: a string, or a JavaScript number. Numbers are held
      in tenths so that one-decimal ratings stay exact. */
  datatype Cell = Text(s: string) | Num(tenths: int)

  /** A row object: its keys, in insertion order, with their values. */
  type Row = seq<(string, Cell)>

  /** What the library is asked to write. */
  datatype Workbook = Workbook(sheetName: string, rows: seq<Row>, fileName: string)

  const Header: seq<string> := ["Business Name", "Phone Number", "Location", "Rating", "Reviews"]
  const NotAvailable: string := "N/A"
  const SheetName: string := "Businesses"
  const NoDataMessage: string := "No data to export"

  function Keys(row: Row): (keys: seq<string>)
    ensures |keys| == |row|
    ensures forall i :: 0 <= i < |row| ==> keys[i] == row[i].0
  {
    if row == [] then [] else [row[0].0] + Keys(row[1..])
  }

  /** The value stored under `key`, if the row has that key. */
  function Lookup(row: Row, key: string): Option<Cell> {
    if row == [] then None else if row[0].0 == key then Some(row[0].1) else Lookup(row[1..], key)
  }

  /** JavaScript truthiness of an optional number: `undefined` and 0 are
      falsy. */
  predicate Truthy(v: Option<int>) {
    v.Some? && v.value != 0
  }

  /** `value || 'N/A'` for a number held in units of `1 / scale`. */
  function OrNotAvailable(v: Option<int>, scale: int): (c: Cell)
    ensures c == Text(NotAvailable) <==> !Truthy(v)
    ensures Truthy(v) ==> c == Num(v.value * scale)
  {
    if Truthy(v) then Num(v.value * scale) else Text(NotAvailable)
  }

  /** The object literal built for one business by the `map` callback. */
  function ToRow(b: Business): (row: Row)
    ensures Keys(row) == Header
  {
    [ ("Business Name", Text(b.name)),
      ("Phone Number", Text(b.phone)),
      ("Location", Text(b.address)),
      ("Rating", OrNotAvailable(b.rating, 1)),
      ("Reviews", OrNotAvailable(b.reviews, 10)) ]
  }

  /** `businesses.map(...)`. */
  function Rows(bs: seq<Business>): (rows: seq<Row>)
    ensures |rows| == |bs|
  {
    seq(|bs|, i requires 0 <= i < |bs| => ToRow(bs[i]))
  }

  /** Reads a number cell back in units of `1 / scale`; `N/A` reads as
      absent. */
  function ReadNumber(c: Cell, scale: int): Option<int>
    requires scale > 0
  {
    match c
    case Num(t) => Some(t / scale)
    case Text(_) => None
  }

  /** Re-parses a row of the sheet into a business record; `None` when a
      column is missing or a text column holds a number. */
  function ReadBack(row: Row): Option<Business> {
    match (Lookup(row, "Business Name"), Lookup(row, "Phone Number"), Lookup(row, "Location"),
           Lookup(row, "Rating"), Lookup(row, "Reviews"))
    case (Some(Text(n)), Some(Text(p)), Some(Text(a)), Some(r), Some(v)) =>
      Some(Business(n, p, a, ReadNumber(r, 1), ReadNumber(v, 10)))
    case _ => None
  }

  /** The record as the sheet shows it: falsy rating and review counts
      become absent. */
  function Normalize(b: Business): Business {
    b.(rating := if Truthy(b.rating) then b.rating else None,
       reviews := if Truthy(b.reviews) then b.reviews else None)
  }

  /** Each column of a row holds its field of the record; `Rating` and
      `Reviews` hold `N/A` exactly when the field is absent or 0. */
  lemma {:induction false} RowCells(b: Business)
    ensures Lookup(ToRow(b), "Business Name") == Some(Text(b.name))
    ensures Lookup(ToRow(b), "Phone Number") == Some(Text(b.phone))
    ensures Lookup(ToRow(b), "Location") == Some(Text(b.address))
    ensures Lookup(ToRow(b), "Rating") == Some(Text(NotAvailable)) <==> !Truthy(b.rating)
    ensures Truthy(b.rating) ==> Lookup(ToRow(b), "Rating") == Some(Num(b.rating.value))
    ensures Lookup(ToRow(b), "Reviews") == Some(Text(NotAvailable)) <==> !Truthy(b.reviews)
    ensures Truthy(b.reviews) ==> Lookup(ToRow(b), "Reviews") == Some(Num(10 * b.reviews.value))
  {
    var row := ToRow(b);
    var rating, reviews := OrNotAvailable(b.rating, 1), OrNotAvailable(b.reviews, 10);
    var r1 := row[1..];
    var r2 := r1[1..];
    var r3 := r2[1..];
    var r4 := r3[1..];
    assert r1 == [("Phone Number", Text(b.phone)), ("Location", Text(b.address)), ("Rating", rating), ("Reviews", reviews)];
    assert r2 == [("Location", Text(b.address)), ("Rating", rating), ("Reviews", reviews)];
    assert r3 == [("Rating", rating), ("Reviews", reviews)];
    assert r4 == [("Reviews", reviews)];
    assert Lookup(row, "Location") == Lookup(r1, "Location") == Lookup(r2, "Location");
    assert Lookup(row, "Rating") == Lookup(r1, "Rating") == Lookup(r2, "Rating") == Lookup(r3, "Rating");
    assert Lookup(row, "Reviews") == Lookup(r1, "Reviews") == Lookup(r2, "Reviews")
      == Lookup(r3, "Reviews") == Lookup(r4, "Reviews");
  }

  /** Re-parsing an exported row gives back the record, with falsy rating
      and review counts turned into absent ones. */
  lemma {:induction false} ReadBackRoundTrip(b: Business)
    ensures ReadBack(ToRow(b)) == Some(Normalize(b))
  {
    RowCells(b);
  }

  /** The sheet has one row per business, in the same order, and every row
      has exactly the five header keys and reads back as its record. */
  lemma {:induction false} RowsCorrespond(bs: seq<Business>, i: nat)
    requires i < |bs|
    ensures |Rows(bs)| == |bs|
    ensures Keys(Rows(bs)[i]) == Header
    ensures ReadBack(Rows(bs)[i]) == Some(Normalize(bs[i]))
  {
    ReadBackRoundTrip(bs[i]);
  }

  lemma {:induction false} AllRowsReadBack(bs: seq<Business>)
    ensures forall i :: 0 <= i < |bs| ==> ReadBack(Rows(bs)[i]) == Some(Normalize(bs[i]))
  {
    forall i | 0 <= i < |bs| ensures ReadBack(Rows(bs)[i]) == Some(Normalize(bs[i])) {
      RowsCorrespond(bs, i);
    }
  }

  /** Generated records have ratings and review counts that are never
      falsy, so their rows never show `N/A` and read back exactly. */
  lemma {:induction false} GeneratedRowsExact(bs: seq<Business>, i: nat)
    requires AllWellFormed(bs)
    requires i < |bs|
    ensures Lookup(Rows(bs)[i], "Rating") != Some(Text(NotAvailable))
    ensures Lookup(Rows(bs)[i], "Reviews") != Some(Text(NotAvailable))
    ensures ReadBack(Rows(bs)[i]) == Some(bs[i])
  {
    assert WellFormed(bs[i]);
    RowCells(bs[i]);
    ReadBackRoundTrip(bs[i]);
  }

  /** `s.replace(/\s+/g, '_')`: every maximal run of white space becomes a
      single underscore. A white-space character followed by another one is
      dropped, and the last one of its run is replaced. */
  function Slug(s: string): (r: string)
    ensures NoWhitespace(r)
    ensures |r| <= |s|
  {
    if s == [] then []
    else if !IsWhitespace(s[0]) then [s[0]] + Slug(s[1..])
    else if |s| > 1 && IsWhitespace(s[1]) then Slug(s[1..])
    else "_" + Slug(s[1..])
  }

  /** Characters other than white space are copied through. */
  lemma {:induction false} SlugWordPrefix(w: string, rest: string)
    requires NoWhitespace(w)
    ensures Slug(w + rest) == w + Slug(rest)
  {
    if w == [] {
      assert w + rest == rest;
    } else {
      assert (w + rest)[0] == w[0];
      assert (w + rest)[1..] == w[1..] + rest;
      SlugWordPrefix(w[1..], rest);
    }
  }

  /** A maximal white-space run at the front becomes one `_`. */
  lemma {:induction false} SlugOfRun(run: string, rest: string)
    requires run != [] && AllWhitespace(run)
    requires rest == [] || !IsWhitespace(rest[0])
    ensures Slug(run + rest) == "_" + Slug(rest)
  {
    var tail := run + rest;
    assert tail[0] == run[0];
    assert tail[1..] == run[1..] + rest;
    if |run| > 1 {
      assert tail[1] == run[1];
      SlugOfRun(run[1..], rest);
    } else {
      assert run[1..] + rest == rest;
    }
  }

  /** A word, then a maximal white-space run, then the rest: the word is
      kept, the run becomes one `_`, and the rest is slugged on its own. */
  lemma {:induction false} SlugRun(w: string, run: string, rest: string)
    requires NoWhitespace(w)
    requires run != [] && AllWhitespace(run)
    requires rest == [] || !IsWhitespace(rest[0])
    ensures Slug(w + run + rest) == w + "_" + Slug(rest)
  {
    var tail := run + rest;
    var slugged := Slug(rest);
    SlugOfRun(run, rest);
    SlugWordPrefix(w, tail);
    Concat3(w, run, rest);
    Concat3(w, "_", slugged);
  }

  /** Concatenation is associative. */
  lemma Concat3<T>(a: seq<T>, b: seq<T>, c: seq<T>)
    ensures a + b + c == a + (b + c)
  {
  }

  /** A string without white space is its own slug, so slugging twice
      changes nothing. */
  lemma {:induction false} SlugIdempotent(s: string)
    ensures NoWhitespace(s) ==> Slug(s) == s
    ensures Slug(Slug(s)) == Slug(s)
  {
    assert s + [] == s;
    assert Slug(s) + [] == Slug(s);
    if NoWhitespace(s) {
      SlugWordPrefix(s, []);
    }
    SlugWordPrefix(Slug(s), []);
  }

  /** `new Date().toISOString().split('T')[0]`: the text before the first
      `T` (the whole string if there is none). */
  function DatePart(iso: string): (d: string)
    ensures |d| <= |iso| && d == iso[..|d|]
    ensures 'T' !in d
    ensures |d| < |iso| ==> iso[|d|] == 'T'
  {
    if iso == [] || iso[0] == 'T' then [] else [iso[0]] + DatePart(iso[1..])
  }

  /** An ISO timestamp `<date>T<time>` yields its date. */
  lemma {:induction false} DatePartOfTimestamp(date: string, time: string)
    requires 'T' !in date
    ensures DatePart(date + "T" + time) == date
  {
    if date != [] {
      assert (date + "T" + time)[1..] == date[1..] + "T" + time;
      DatePartOfTimestamp(date[1..], time);
    } else {
      assert date + "T" + time == "T" + time;
    }
  }

  /** The file name: fixed prefix and extension around the slugged query
      and the date; it has no white space when the date part has none. */
  function FileName(query: string, iso: string): (r: string)
    ensures |r| >= 17 && r[..11] == "businesses_" && r[|r| - 5..] == ".xlsx"
    ensures NoWhitespace(DatePart(iso)) ==> NoWhitespace(r)
  {
    "businesses_" + Slug(query) + "_" + DatePart(iso) + ".xlsx"
  }

  /** A query of two words separated by white space (such as "Coffee
      Shops"), exported at `<date>T<time>` (such as 2024-01-15T10:30:00.000Z),
      gives `businesses_<word>_<word>_<date>.xlsx`. */
  lemma {:induction false} FileNameOfTwoWords(first: string, gap: string, second: string, date: string, time: string)
    requires NoWhitespace(first) && NoWhitespace(second)
    requires gap != [] && AllWhitespace(gap)
    requires 'T' !in date
    ensures FileName(first + gap + second, date + "T" + time)
      == "businesses_" + first + "_" + second + "_" + date + ".xlsx"
  {
    calc {
      Slug(first + gap + second);
      { SlugRun(first, gap, second); }
      first + "_" + Slug(second);
      { SlugIdempotent(second); }
      first + "_" + second;
    }
    DatePartOfTimestamp(date, time);
  }

  /** The export preparation: an empty list is the no-data error;
      otherwise one row per business in order, the sheet name and the
      file name from the query and the clock reading. */
  function PrepareExport(bs: seq<Business>, query: string, iso: string): (r: Result<Workbook>)
    ensures r.Err? <==> bs == []
    ensures r.Err? ==> r.message == NoDataMessage
    ensures r.Ok? ==> (
      && r.value.sheetName == SheetName
      && r.value.rows == Rows(bs)
      && |r.value.rows| == |bs|
      && (forall i :: 0 <= i < |bs| ==> ReadBack(r.value.rows[i]) == Some(Normalize(bs[i])))
      && r.value.fileName == FileName(query, iso))
  {
    if bs == [] then Err(NoDataMessage)
    else
      AllRowsReadBack(bs);
      Ok(Workbook(SheetName, Rows(bs), FileName(query, iso)))
  }
}
