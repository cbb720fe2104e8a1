# Business extractor search page — a Dafny model

The repository is a single-page demo, "Google Maps Business Extractor". Its `Home`
component does three things:

- It takes a search query and an optional location.
- After a simulated delay, it fills the page with pseudo-random `Business` records.
  Each record has a name, phone, address, rating and review count.
- It exports the records on display to a spreadsheet.

This project models the logic of that component and proves properties of it.

- `results.dfy` (`Results`): the optional value behind `rating?` and `reviews?`, and a
  result that is a value or an error message.
- `strings.dfy` (`Strings`): the JavaScript behaviour the page depends on.
  - White space as `trim()` and `\s` see it.
  - `trim()` itself.
  - How a template literal renders a non-negative integer.
- `generator.dfy` (`Generator`): the `Business` record, the three token tables and
  `generateMockData`.
  - `GenerateMockData` is a method with the source's counted loop.
  - The source calls `Math.random()` for each value. Here those values are parameters.
  - The count offset `Math.floor(Math.random() * 15)` is one parameter.
  - A `Draw` per record holds the token indices and numeric draws, in source order.
  - Each draw is the integer before the source adds its offset.
  - The rating is given already rounded, in tenths (30..50).
- `export.dfy` (`Export`): the `exportToExcel` preparation.
  - The row object built for each business.
  - The sheet name.
  - The file name, built from a slug of the query and the date part of an ISO timestamp.
  - `ReadBack` re-parses a row and is the inverse used to prove the mapping.
- `page.dfy` (`Page`): the component state as a class `Home`.
  - Its fields are `searchQuery`, `location`, `businesses`, `loading` and `error`.
  - `StartSearch` is the synchronous part of `handleSearch`.
  - `CompleteSearch` is its timer callback.
  - `ExportToExcel` sets the no-data error or returns the workbook to write.

Three points of behaviour are easy to miss:

- The file name slugs the current `searchQuery` field at export time (app/page.tsx:83).
  That field may have been edited since the last search, so the name need not match the
  query the records were generated from. `ExportToExcel` reads the current field.
- Errors from `writeFile` are not caught (app/page.tsx:84), so a failed write sets no
  error message. The model has no write step; see "Left out".
- The timer callback generates from the query and location captured when
  `handleSearch` ran (app/page.tsx:58). It does not read them when it fires.
  `StartSearch` returns that captured `Request`, and `CompleteSearch` consumes it.

## Model

| member | source | states |
|---|---|---|
| Strings.TrimStart | app/page.tsx:49 | The result is the suffix of the input that starts at its first non-white-space character; everything dropped is white space |
| Strings.TrimEnd | app/page.tsx:49 | The result is the prefix of the input that ends at its last non-white-space character; everything dropped is white space |
| Strings.Trim | app/page.tsx:49 | `trim()` builds a string no longer than its input that neither starts nor ends with white space, and keeps a string without white space as it is; `TrimStart`, `TrimEnd` and `TrimEmptyIffBlank` carry the rest |
| Strings.TrimEmptyIffBlank | app/page.tsx:49 | `query.trim()` is empty (falsy) exactly when the query consists of white space only, in both directions |
| Strings.Decimal | app/page.tsx:38-39 | A rendered integer is a non-empty string of decimal digits with no leading zero |
| Strings.DecimalRoundTrip | app/page.tsx:38-39 | Reading the digits of a rendered integer back gives the integer |
| Strings.DecimalWidth | app/page.tsx:38-39 | A number between 10^k and 10^(k+1) - 1 renders with exactly k + 1 digits |
| Generator.OrElse | app/page.tsx:37-39 | The logical-or fallback on strings (`query` or the business type, `loc` or "New York"): the first operand when it is non-empty, otherwise the second; empty only when both are |
| Generator.FormatPhone | app/page.tsx:38 | The phone template literal: `+1 (` then the area code first, the line number last, and the length of the three groups plus seven fixed characters; `PhoneFormat` proves the full pattern |
| Generator.PhoneLayout | app/page.tsx:38 | Digit groups of widths 3, 3 and 4 placed in the phone template match `+1 (\d{3}) \d{3}-\d{4}` at fixed positions |
| Generator.PhoneFormat | app/page.tsx:38 | The phone matches `+1 (\d{3}) \d{3}-\d{4}`; its groups read back as the area code and exchange (100..999) and line (1000..9999) |
| Generator.FormatAddress | app/page.tsx:39 | The address template literal: it starts with the street number and ends with `, <loc or "New York">, NY ` and the zip; `AddressFormat` proves widths and values |
| Generator.AddressLayout | app/page.tsx:39 | The address template puts the street part first and `, <place>, NY ` plus the 5-digit zip last, with nothing else in between |
| Generator.StreetNumberWidth | app/page.tsx:34 | A street number in 1..999 renders with one to three digits |
| Generator.AddressFormat | app/page.tsx:33-39 | The address is exactly the street number (value kept, 1-3 digits), a space and the street token, then `, <loc or "New York">, NY ` and a 5-digit zip that reads back as the drawn value, whatever `loc` is; its total length is the sum of these parts, so nothing lies between them |
| Generator.NameFormat | app/page.tsx:31-37 | The name is a name-table token and a space, then the raw query if it is non-empty, else a business-type token |
| Generator.SearchNamesUseQuery | app/page.tsx:48-58 | For a query that passes the search guard, every name ends with the untrimmed query and the business-type token is never used |
| Generator.MakeRecord | app/page.tsx:36-42 | The object literal pushed for one draw. Every record built from in-range draws has a non-empty name and address, a phone of the required shape, a rating of 30..50 tenths and 10..509 reviews; `NameFormat` and `AddressFormat` carry the name and address |
| Generator.RecordAddress | app/page.tsx:39 | Whatever the draw, a record's address ends in `, <loc or "New York">, NY ` and five digits |
| Generator.GenerateMockData | app/page.tsx:22-46 | The list has between 10 and 24 records (10 + count offset), one per loop iteration in draw order; each is the record of its draw, well formed, with the address ending in the location (or "New York") |
| Export.OrNotAvailable | app/page.tsx:75-76 | The logical-or fallback to `'N/A'` on a number: `N/A` exactly when the value is absent or 0, otherwise the number (scaled to cell units) |
| Export.ToRow | app/page.tsx:71-77 | Each row object has exactly the keys `Business Name`, `Phone Number`, `Location`, `Rating`, `Reviews`, in that order |
| Export.Rows | app/page.tsx:70-78 | The mapping yields one row per business |
| Export.RowCells | app/page.tsx:71-77 | Each column holds its field. `Rating` and `Reviews` hold `N/A` exactly when the field is absent or 0 (logical-or fallback), and the number otherwise |
| Export.ReadBackRoundTrip | app/page.tsx:70-78 | Re-parsing an exported row gives back the record, with falsy rating and reviews turned into absent ones |
| Export.RowsCorrespond | app/page.tsx:70-78 | Row i of the sheet has the five header keys and reads back as business i: one row per business, same order |
| Export.AllRowsReadBack | app/page.tsx:70-78 | Every row of the mapped list reads back as the business at the same index |
| Export.GeneratedRowsExact | app/page.tsx:40-41 | For generated records the `N/A` fallbacks never fire, and every row reads back as exactly its record |
| Export.Slug | app/page.tsx:83 | `replace(/\s+/g, '_')` leaves no white space and never lengthens the string; `SlugOfRun` and `SlugRun` show that each maximal run becomes one `_` |
| Export.SlugWordPrefix | app/page.tsx:83 | Characters other than white space are copied through unchanged |
| Export.SlugOfRun | app/page.tsx:83 | A maximal white-space run at the front becomes one `_` |
| Export.SlugRun | app/page.tsx:83 | For a word, then a maximal white-space run, then the rest: the word is kept, the run becomes one `_`, and the rest is slugged on its own |
| Export.SlugIdempotent | app/page.tsx:83 | A string without white space is its own slug; slugging twice equals slugging once |
| Export.DatePart | app/page.tsx:83 | `split('T')[0]` is the longest prefix without `T`: it is followed by `T` or by the end of the string |
| Export.DatePartOfTimestamp | app/page.tsx:83 | For an ISO timestamp `<date>T<time>`, the date part is `<date>` |
| Export.FileName | app/page.tsx:83 | The file name starts with `businesses_`, ends with `.xlsx`, is at least 17 characters long, and has no white space when the date part has none; `FileNameOfTwoWords` gives its exact value for a two-word query |
| Export.FileNameOfTwoWords | app/page.tsx:83 | A query `<word><spaces><word>` exported at `<date>T<time>` gives `businesses_<word>_<word>_<date>.xlsx` (e.g. "Coffee Shops" on 2024-01-15) |
| Export.PrepareExport | app/page.tsx:64-85 | An empty list is the "No data to export" error. Any other list gives sheet `Businesses`, exactly the mapped rows (one per business, each reading back as that business), and the file name from the query and date |
| Page.Home.constructor | app/page.tsx:16-20 | The initial state has empty query and location, no records, no loading and no error |
| Page.Home.StartSearch | app/page.tsx:48-55 | A blank query sets the error to "Please enter a search query" and changes nothing else. Any other query clears the error, sets loading and captures the query and location. Records are untouched either way |
| Page.Home.CompleteSearch | app/page.tsx:57-61 | The list is replaced wholesale by 10..24 records generated from the captured request; loading stops; query, location and error are unchanged |
| Page.Home.ExportToExcel | app/page.tsx:64-85 | With no records: the error is "No data to export" and no workbook is produced. Otherwise: the workbook of `PrepareExport` for the current query, with every row reading back as its record, and the error left unchanged. Nothing else changes |

## Left out

- JSX markup, styling, icons, and the input wiring that assigns `searchQuery` and `location` (app/page.tsx:87-224): these are presentation only. The fields are public, so a caller assigns them directly.
- `app/layout.tsx`: it holds page metadata only.
- The 1500 ms `setTimeout` delay: the asynchrony is modelled as two separate methods, `StartSearch` and `CompleteSearch`, which a caller may interleave with other calls.
- `Math.random()`: every draw is a parameter with its range as a precondition. The uniform distribution is not modelled.
- Floating-point arithmetic: ratings are integer tenths, and the rounding `Math.round((r * 2 + 3) * 10) / 10` is replaced by a draw of 30..50 tenths. A rating that is not a whole number of tenths, or `NaN` (also falsy for `||`), cannot be expressed.
- Spreadsheet cell numbers are held in tenths (`Num`), so a review count n is the cell `Num(10 * n)`.
- The `xlsx` calls (`json_to_sheet`, `book_new`, `book_append_sheet`, `writeFile`) are foreign code and file I/O. The model stops at the value handed to them: the row objects, the sheet name and the file name. The header row that `json_to_sheet` derives from the keys is stated as `Keys(row) == Header`. Write failures are not modelled.
- `new Date().toISOString()` reads the clock: the timestamp is a parameter. The model does not check that it is a valid ISO string.
- White space: one fixed predicate gives the ECMAScript WhiteSpace and LineTerminator code points, which `trim()` and `\s` share. JavaScript strings are UTF-16 code units; here a `char` is a Unicode scalar value.
