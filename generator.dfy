/** The mock-record generator of the search page (`generateMockData`):
    a count of records and, for each, tokens from three fixed tables and
    numeric draws, formatted into a `Business` record.

    Every `Math.random()` call of the source is a parameter here: a `Draw`
    holds, for one record, the integers `Math.floor(Math.random() * k)` that
    the source computes before adding its offset, in the order the source
    draws them; the rating, which the source rounds to one decimal, is
    given directly in tenths. */
module Generator {
  import opened Results
  import opened Strings

  /** One business listing. `rating` is held in tenths (4.5 is 45). */
  datatype Business = Business(
    name: string,
    phone: string,
    address: string,
    rating: Option<int>,
    reviews: Option<int>)

  const BusinessTypes: seq<string> :=
    ["Restaurant", "Cafe", "Store", "Salon", "Gym", "Pharmacy", "Bakery", "Hotel"]
  const Names: seq<string> :=
    ["Golden", "Royal", "Prime", "Elite", "Modern", "Classic", "Fresh", "Urban", "Cozy", "Grand"]
  const Streets: seq<string> :=
    ["Main St", "Oak Ave", "Pine Rd", "Maple Dr", "Cedar Ln", "Elm St", "Park Ave", "Lake Rd"]

  /** Location used when the location field is empty. */
  const DefaultLocation: string := "New York"

  /** The random draws behind one record. */
  datatype Draw = Draw(
    typeIndex: nat,
    nameIndex: nat,
    streetIndex: nat,
    streetNum: nat,
    area: nat,
    exchange: nat,
    line: nat,
    zip: nat,
    ratingTenths: nat,
    reviews: nat)

  /** The ranges `Math.floor(Math.random() * k)` can produce for each draw. */
  predicate ValidDraw(d: Draw) {
    && d.typeIndex < |BusinessTypes|
    && d.nameIndex < |Names|
    && d.streetIndex < |Streets|
    && d.streetNum < 999
    && d.area < 900
    && d.exchange < 900
    && d.line < 9000
    && d.zip < 90000
    && 30 <= d.ratingTenths <= 50
    && d.reviews < 500
  }

  /** JavaScript's `a || b` on strings: the empty string is falsy, so the
      result is `a` unless `a` is empty, and is empty only when both are. */
  function OrElse(a: string, b: string): (r: string)
    ensures a != [] ==> r == a
    ensures a == [] ==> r == b
    ensures r == [] <==> a == [] && b == []
  {
    if a != [] then a else b
  }

  /** Every record of a list is well formed. */
  predicate AllWellFormed(bs: seq<Business>) {
    forall i :: 0 <= i < |bs| ==> WellFormed(bs[i])
  }

  /** The phone template literal, given its three numbers: the country
      prefix `+1 (` comes first, the area code right after it, and the line
      number last. */
  function FormatPhone(area: nat, exchange: nat, line: nat): (r: string)
    ensures |r| == 7 + |Decimal(area)| + |Decimal(exchange)| + |Decimal(line)|
    ensures r[..4] == "+1 (" && r[4..4 + |Decimal(area)|] == Decimal(area)
    ensures r[|r| - |Decimal(line)|..] == Decimal(line)
  {
    "+1 (" + Decimal(area) + ") " + Decimal(exchange) + "-" + Decimal(line)
  }

  /** The address template literal, given its parts: the street number
      comes first, and the location (or the default), the region code NY and
      the zip come last. */
  function FormatAddress(streetNum: nat, street: string, loc: string, zip: nat): (r: string)
    ensures |r| > |Decimal(streetNum)| && r[..|Decimal(streetNum)|] == Decimal(streetNum)
    ensures var tail := ", " + OrElse(loc, DefaultLocation) + ", NY " + Decimal(zip);
      |r| > |tail| && r[|r| - |tail|..] == tail
  {
    Decimal(streetNum) + " " + street + ", " + OrElse(loc, DefaultLocation) + ", NY " + Decimal(zip)
  }

  /** The record the loop body pushes for one draw; every record built
      from in-range draws is well formed. */
  function MakeRecord(query: string, loc: string, d: Draw): (b: Business)
    requires ValidDraw(d)
    ensures WellFormed(b)
  {
    PhoneFormat(d.area + 100, d.exchange + 100, d.line + 1000);
    Business(
      Names[d.nameIndex] + " " + OrElse(query, BusinessTypes[d.typeIndex]),
      FormatPhone(d.area + 100, d.exchange + 100, d.line + 1000),
      FormatAddress(d.streetNum + 1, Streets[d.streetIndex], loc, d.zip + 10000),
      Some(d.ratingTenths),
      Some(d.reviews + 10))
  }

  /** `+1 (\d{3}) \d{3}-\d{4}`. */
  predicate PhonePattern(s: string) {
    && |s| == 17
    && s[..4] == "+1 ("
    && IsDigits(s[4..7])
    && s[7..9] == ") "
    && IsDigits(s[9..12])
    && s[12] == '-'
    && IsDigits(s[13..])
  }

  /** `s` ends with `, <place>, NY ` followed by five digits. */
  predicate EndsWithPlaceAndZip(s: string, place: string) {
    var tail := ", " + place + ", NY ";
    && |s| >= |tail| + 5
    && s[|s| - 5 - |tail|..|s| - 5] == tail
    && IsDigits(s[|s| - 5..])
  }

  /** What every generated record satisfies, whatever the draws. */
  predicate WellFormed(b: Business) {
    && b.name != []
    && PhonePattern(b.phone)
    && b.address != []
    && b.rating.Some? && 30 <= b.rating.value <= 50
    && b.reviews.Some? && 10 <= b.reviews.value <= 509
  }

  /** Three digit groups of widths 3, 3 and 4 laid out as a phone number
      match the pattern, and each group sits at its fixed position. */
  lemma {:induction false} PhoneLayout(a: string, b: string, c: string)
    requires |a| == 3 && |b| == 3 && |c| == 4
    requires IsDigits(a) && IsDigits(b) && IsDigits(c)
    ensures var p := "+1 (" + a + ") " + b + "-" + c;
      PhonePattern(p) && p[4..7] == a && p[9..12] == b && p[13..] == c
  {
  }

  /** A number with k + 1 digits renders as k + 1 digits that read back as
      the number. */
  lemma {:induction false} DigitGroup(n: nat, k: nat)
    requires Pow10(k) <= n < Pow10(k + 1)
    ensures |Decimal(n)| == k + 1 && DecimalValue(Decimal(n)) == n
  {
    DecimalWidth(n, k);
    DecimalRoundTrip(n);
  }

  /** The phone number matches `+1 (\d{3}) \d{3}-\d{4}` and its three digit
      groups read back as the area code, exchange and line, each in the
      range the draws allow. */
  lemma {:induction false} PhoneFormat(area: nat, exchange: nat, line: nat)
    requires 100 <= area <= 999 && 100 <= exchange <= 999 && 1000 <= line <= 9999
    ensures var p := FormatPhone(area, exchange, line);
      && PhonePattern(p)
      && DecimalValue(p[4..7]) == area
      && DecimalValue(p[9..12]) == exchange
      && DecimalValue(p[13..]) == line
  {
    var a, b, c := Decimal(area), Decimal(exchange), Decimal(line);
    DigitGroup(area, 2);
    DigitGroup(exchange, 2);
    DigitGroup(line, 3);
    PhoneLayout(a, b, c);
  }

  /** Laying out an address puts the street part first and the place,
      region code and five-digit zip last. */
  lemma {:induction false} AddressLayout(front: string, place: string, zip: string)
    requires |zip| == 5 && IsDigits(zip)
    ensures var s := front + ", " + place + ", NY " + zip;
      && |s| == |front| + |", " + place + ", NY "| + 5
      && EndsWithPlaceAndZip(s, place) && s[|s| - 5..] == zip && s[..|front|] == front
  {
  }

  /** Street numbers 1..999 are rendered with one to three digits. */
  lemma {:induction false} StreetNumberWidth(n: nat)
    requires 1 <= n <= 999
    ensures 1 <= |Decimal(n)| <= 3
  {
    if n < 10 {
      DecimalWidth(n, 0);
    } else if n < 100 {
      DecimalWidth(n, 1);
    } else {
      DecimalWidth(n, 2);
    }
  }

  /** The address is `<street number> <street>, <place>, NY <zip>`: the
      street number (one to three digits) and street come first, the
      location given (or "New York" when it is empty) and the fixed region
      code NY come last, followed by a five-digit postal code. */
  lemma {:induction false} AddressFormat(streetNum: nat, street: string, loc: string, zip: nat)
    requires 1 <= streetNum <= 999 && 10000 <= zip <= 99999
    ensures var s := FormatAddress(streetNum, street, loc, zip);
      var place := if loc != [] then loc else DefaultLocation;
      var num := Decimal(streetNum);
      && EndsWithPlaceAndZip(s, place)
      && DecimalValue(s[|s| - 5..]) == zip
      && s[..|num| + 1 + |street|] == num + " " + street
      && |s| == |num| + 1 + |street| + |", " + place + ", NY "| + 5
      && 1 <= |num| <= 3 && DecimalValue(num) == streetNum
  {
    var num := Decimal(streetNum);
    DigitGroup(zip, 4);
    DecimalRoundTrip(streetNum);
    StreetNumberWidth(streetNum);
    AddressLayout(num + " " + street, OrElse(loc, DefaultLocation), Decimal(zip));
  }

  /** The name is a token of the name table and a space, followed by the
      raw query when it is non-empty, otherwise by a token of the
      business-type table. */
  lemma {:induction false} NameFormat(query: string, loc: string, d: Draw)
    requires ValidDraw(d)
    ensures var n := MakeRecord(query, loc, d).name;
      var k := |Names[d.nameIndex]| + 1;
      && |n| > k
      && n[..k] == Names[d.nameIndex] + " "
      && (query != [] ==> n[k..] == query)
      && (query == [] ==> n[k..] in BusinessTypes)
  {
  }

  /** From the search path the query is not blank, so every name ends with
      the query verbatim (untrimmed) and the business-type token is never
      used. */
  lemma {:induction false} SearchNamesUseQuery(query: string, loc: string, d: Draw)
    requires ValidDraw(d)
    requires Trim(query) != []
    ensures var n := MakeRecord(query, loc, d).name;
      && n == Names[d.nameIndex] + " " + query
      && n[|n| - |query|..] == query
  {
  }

  /** A record's address ends in the location (or the default place)
      and a five-digit zip, whatever the draw. */
  lemma RecordAddress(query: string, loc: string, d: Draw)
    requires ValidDraw(d)
    ensures EndsWithPlaceAndZip(MakeRecord(query, loc, d).address,
      if loc != [] then loc else DefaultLocation)
  {
    var address := FormatAddress(d.streetNum + 1, Streets[d.streetIndex], loc, d.zip + 10000);
    AddressFormat(d.streetNum + 1, Streets[d.streetIndex], loc, d.zip + 10000);
    assert EndsWithPlaceAndZip(address, if loc != [] then loc else DefaultLocation);
    assert MakeRecord(query, loc, d).address == address;
  }

  /** `generateMockData`: `10 + countOffset` iterations (countOffset is
      `Math.floor(Math.random() * 15)`), each pushing the record built from
      the next draw. */
  method GenerateMockData(query: string, loc: string, countOffset: nat, draws: seq<Draw>)
    returns (data: seq<Business>)
    requires countOffset < 15
    requires countOffset + 10 <= |draws|
    requires forall i :: 0 <= i < |draws| ==> ValidDraw(draws[i])
    ensures 10 <= |data| <= 24 && |data| == countOffset + 10
    ensures forall i :: 0 <= i < |data| ==> data[i] == MakeRecord(query, loc, draws[i])
    ensures AllWellFormed(data)
    ensures forall i :: 0 <= i < |data| ==>
      EndsWithPlaceAndZip(data[i].address, if loc != [] then loc else DefaultLocation)
  {
    data := [];
    var numResults := countOffset + 10;
    for i := 0 to numResults
      invariant |data| == i
      invariant forall k :: 0 <= k < i ==> data[k] == MakeRecord(query, loc, draws[k])
    {
      var record := MakeRecord(query, loc, draws[i]);
      data := data + [record];
    }
    forall i | 0 <= i < |data|
      ensures WellFormed(data[i])
      ensures EndsWithPlaceAndZip(data[i].address, if loc != [] then loc else DefaultLocation)
    {
      RecordAddress(query, loc, draws[i]);
    }
  }
}
