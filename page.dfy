/** The state of the search page (`Home`) and its three transitions:
    starting a search, the delayed completion that installs the generated
    records, and the export. */
module Page {
  import opened Results
  import opened Strings
  import opened Generator
  import opened Export

  const EmptyQueryMessage: string := "Please enter a search query"

  /** The query and location a started search captured; the delayed
      completion generates from these, not from the fields as they are by
      then. */
  datatype Request = Request(query: string, location: string)

  class Home {
    var searchQuery: string
    var location: string
    var businesses: seq<Business>
    var loading: bool
    var error: string

    /** The records on display are the output of the generator. */
    ghost predicate Valid()
      reads this
    {
      AllWellFormed(businesses)
    }

    /** The initial state: empty fields, no records, not loading, no error. */
    constructor ()
      ensures Valid()
      ensures searchQuery == "" && location == "" && businesses == []
      ensures !loading && error == ""
    {
      searchQuery := "";
      location := "";
      businesses := [];
      loading := false;
      error := "";
    }

    /** The synchronous part of `handleSearch`: a query that is blank after
        trimming only sets the error; otherwise the error is cleared,
        loading starts and the query and location are captured. */
    method StartSearch() returns (request: Option<Request>)
      requires Valid()
      modifies this`error, this`loading
      ensures Valid()
      ensures AllWhitespace(searchQuery) ==>
        request == None && error == EmptyQueryMessage && loading == old(loading)
      ensures !AllWhitespace(searchQuery) ==>
        request == Some(Request(searchQuery, location)) && error == "" && loading
    {
      TrimEmptyIffBlank(searchQuery);
      if Trim(searchQuery) == [] {
        error := EmptyQueryMessage;
        request := None;
      } else {
        error := "";
        loading := true;
        request := Some(Request(searchQuery, location));
      }
    }

    /** The timer callback of `handleSearch`: the records generated from the
        captured request replace the list wholesale and loading stops. */
    method CompleteSearch(request: Request, countOffset: nat, draws: seq<Draw>)
      requires Valid()
      requires countOffset < 15
      requires countOffset + 10 <= |draws|
      requires forall i :: 0 <= i < |draws| ==> ValidDraw(draws[i])
      modifies this
      ensures Valid()
      ensures 10 <= |businesses| <= 24 && |businesses| == countOffset + 10
      ensures forall i :: 0 <= i < |businesses| ==>
        businesses[i] == MakeRecord(request.query, request.location, draws[i])
      ensures !loading
      ensures searchQuery == old(searchQuery) && location == old(location) && error == old(error)
    {
      var mockData := GenerateMockData(request.query, request.location, countOffset, draws);
      businesses := mockData;
      loading := false;
    }

    /** `exportToExcel`: with no records, sets the no-data error and hands
        nothing to the library; otherwise returns the workbook to write
        (rows in order, file name from the current query) and changes
        nothing. */
    method ExportToExcel(iso: string) returns (workbook: Option<Workbook>)
      requires Valid()
      modifies this`error
      ensures Valid()
      ensures businesses == [] ==> workbook == None && error == NoDataMessage
      ensures businesses != [] ==>
        error == old(error) && workbook == Some(PrepareExport(businesses, searchQuery, iso).value)
      ensures workbook.Some? ==> forall i :: 0 <= i < |businesses| ==>
        ReadBack(workbook.value.rows[i]) == Some(businesses[i])
    {
      var prepared := PrepareExport(businesses, searchQuery, iso);
      if prepared.Err? {
        error := prepared.message;
        return None;
      }
      forall i | 0 <= i < |businesses| ensures ReadBack(prepared.value.rows[i]) == Some(businesses[i]) {
        GeneratedRowsExact(businesses, i);
      }
      workbook := Some(prepared.value);
    }
  }
}
