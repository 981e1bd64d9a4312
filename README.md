# ExcelClient range requests, in Dafny

This project models, and proves properties of, the request-building and
range-addressing part of `ExcelClient` in `msgraph.py`. That client prepares
Microsoft Graph calls on a worksheet range of an Excel workbook. It has two parts:

- **`get_range_of_data`** computes the address `"A1:<column letters><rows>"`
  of the cells a table occupies. A `while` loop counts the base-26 digits of
  the column count. A `for` loop then writes them from the most significant
  digit down, each digit `d` as `chr(64 + d)`.
- **Six descriptor builders** each check their arguments' types and return
  `[path, verb, body]` for one call. They are `update_range`, `get_range`,
  `insert_empty_cells`, `clear_range`, `delete_range` and `get_rangeFormat`.
  `update_range` validates in three loops over dict literals. It then builds
  a PATCH body and deletes the entries whose value is None from it.

Modules, one per file:

- `PyValues` (`py_values.dfy`): the dynamically typed arguments (`Value`), the
  exceptions (`Error` with class `TypeError`, `ValueError` or `IndexError`),
  `Result`, and `Shape`, which is `np.shape` for nested lists.
- `DictOrder` (`dict_order.dfy`): a validation loop over a dict literal's
  `items()`. Python 2 visits the entries in an order set by the key hashes,
  so that order is a parameter: any permutation `order` of the entries.
  `FirstFailure` is the exception the loop raises, and `Validate` is the loop.
- `RangeAddress` (`range_address.dfy`): `get_range_of_data` as the methods
  `CountDigits`, `WriteColumn` and `RangeOfData`. They are proved equal to
  the functions `NumDigits`, `ColumnLetters` and `RangeAddressOf`. Digit
  count, digit range, leading digit and a decode/parse round trip are proved
  about those functions.
- `Requests` (`requests.dfy`): the five simple builders, as functions.
- `RangeUpdate` (`update_range.dfy`): `update_range`, as the methods
  `ValidateUpdate`, `DeleteNoneEntries` and `UpdateRange`. They are proved
  against the functions `UpdateRangeFailure`, `WithoutNone` and
  `UpdateRangeOutcome`, and lemmas characterise those functions for every
  iteration order.

Where the code does something other than what it is evidently expected to
do, the model follows the code:

- **Column letters.** The docstring of `get_range_of_data` promises the
  "occupied range of cells in the excel file" (msgraph.py:255), so the
  expected column part is the spreadsheet's own column name, in bijective
  base 26 (26 is "Z", 52 is "AZ"). The code writes plain positional base 26,
  where a zero digit is `'@'`: 26 is "A@", 52 is "B@", and 'Z' never
  appears. The model computes what the code computes; see "## Findings".
- **Error classes.** Absent data and shape mismatches raise the built-in
  `ValueError`; an argument of the wrong type raises `TypeError`. There are
  no dedicated exception classes.
- **Scalar data.** The code does not guard `np.shape(data)[0]`, so scalar
  data for `get_range_of_data` raises `IndexError`, not `ValueError`.
- **Column count.** The code takes it from `np.shape(data)[1]`, not from the
  first row's length. An empty, flat or ragged list therefore has no second
  dimension and is refused with `ValueError`.
- **Ragged `data` in `update_range`.** The code checks only that `data` is
  given and is a list, and that the other table arguments have
  `np.shape(data)` (msgraph.py:85-94); it never requires `data` itself to be
  rectangular. `RangeUpdate.ValidUpdate` accordingly asks `data` only to be
  a list, so ragged data is accepted.
- **`shift` and `applyTo`.** The code checks only that they are strings.
  Any string is passed on, not only the documented values.
- **Order of failures.** When several entries of one validation dict fail,
  the exception names whichever comes first in the iteration order. In the
  second loop of `update_range` even its class can depend on that order.
  `DataVisitedFirst` and `FormatVisitedFirst` give one such pair of orders.

## Model

| member | source | states |
|---|---|---|
| `PyValues.CommonPrefix` | msgraph.py:93 | the dimensions numpy keeps for a list are a common prefix of its elements' shapes, and the first dimension after it differs |
| `PyValues.FlatListShape` | msgraph.py:264-268 | a flat list of n scalars has the one-dimensional shape [n], so it has no second dimension |
| `PyValues.UniformChildShape` | msgraph.py:87 | elements that all have shape s share exactly s |
| `PyValues.MixedChildShape` | msgraph.py:264-268 | two one-dimensional elements of different lengths share no dimension |
| `PyValues.ChildShapeIsPrefix` | msgraph.py:87 | what the elements share is a prefix of each element's shape |
| `PyValues.RectangularShape` | msgraph.py:264-266 | a non-empty r x c table of scalars has shape [r, c] |
| `PyValues.RaggedShape` | msgraph.py:264-268 | a ragged table of scalars has the single dimension [r] |
| `DictOrder.FirstFailureVisited` | msgraph.py:82-84 | the loop raises nothing exactly when every visited entry passes, and what it raises is the failure of a visited entry |
| `DictOrder.FirstFailureSpec` | msgraph.py:82-84 | for every iteration order, the loop raises nothing exactly when every entry passes, and what it raises is some entry's failure |
| `DictOrder.FirstFailureKind` | msgraph.py:88-94 | when all failing entries fail with one exception class, that class is raised whatever the order |
| `DictOrder.Validate` | msgraph.py:82-84 | the loop with early exit returns exactly the first failure in the iteration order; None iff every entry passes |
| `Requests.CheckStrings` | msgraph.py:129-131 | the string check raises nothing iff every entry is a str; otherwise a TypeError naming a non-str entry |
| `Requests.Describe` | msgraph.py:129-133 | shared builder: Ok iff all entries are strings, then the range path plus suffix, verb and body; otherwise a TypeError naming a non-string argument |
| `Requests.GetRange` | msgraph.py:115-133 | Ok iff the three identifiers are strings; then a GET of the range path with no body; otherwise a TypeError naming a bad identifier |
| `Requests.InsertEmptyCells` | msgraph.py:135-161 | Ok iff the identifiers and `shift` are strings; then a POST to .../insert with body {"shift": shift}; otherwise a TypeError naming a bad argument |
| `Requests.ClearRange` | msgraph.py:163-190 | Ok iff the identifiers and `applyTo` are strings; then a POST to .../clear with body {"applyTo": applyTo}; otherwise a TypeError |
| `Requests.DeleteRange` | msgraph.py:192-218 | Ok iff the identifiers and `shift` are strings; then a POST to .../delete with body {"shift": shift}; otherwise a TypeError |
| `Requests.GetRangeFormat` | msgraph.py:220-237 | Ok iff the identifiers are strings; then a GET of .../format with no body; otherwise a TypeError |
| `Requests.DefaultBodies` | msgraph.py:135 | the default bodies are shift "Down" for insert, applyTo "All" for clear and shift "Up" for delete (lines 135, 163, 192) |
| `Requests.OperationPathsDistinct` | msgraph.py:132 | for one range, the five builders address five different paths (lines 132, 160, 189, 217, 236) |
| `Requests.ExamplePath` | msgraph.py:217 | the path of range "A1:B3" of "Sheet1" of file "X", written out |
| `Requests.DeleteRangeExample` | msgraph.py:211-218 | delete_range on that range posts {"shift": "Up"} to ".../range(address='A1:B3')/delete" |
| `RangeUpdate.WithoutNone` | msgraph.py:108-110 | the body keeps exactly the keys whose value is not None, with their values |
| `RangeUpdate.DeleteNoneEntries` | msgraph.py:108-110 | the deletion loop, with keys taken in an arbitrary order, leaves exactly the body without its None entries |
| `RangeUpdate.TableFailure` | msgraph.py:88-94 | the second loop raises nothing iff every table argument fits data's shape; what it raises is a fault of one argument |
| `RangeUpdate.TableFaultKind` | msgraph.py:91-94 | a fault of the second loop is a TypeError if no argument has the wrong shape, and a ValueError if every given argument is a list |
| `RangeUpdate.FlagFailure` | msgraph.py:95-97 | the third loop raises nothing iff both flags are None or bool; otherwise a TypeError naming a bad flag |
| `RangeUpdate.UpdateRangeFailure` | msgraph.py:82-97 | the whole validation raises nothing, for every iteration order, exactly on valid arguments |
| `RangeUpdate.UpdateBody` | msgraph.py:99-110 | body keys are Graph field names with non-None values; each field is present iff its argument is given, and holds that argument; `format` goes under "numberFormat" |
| `RangeUpdate.UpdateRangeOutcome` | msgraph.py:48-113 | Ok iff the arguments are valid, and then a PATCH of the un-suffixed range path carrying UpdateBody |
| `RangeUpdate.ValidateUpdate` | msgraph.py:82-97 | the three loops and the `data is None` test raise exactly what UpdateRangeFailure specifies |
| `RangeUpdate.UpdateRange` | msgraph.py:48-113 | the method returns exactly UpdateRangeOutcome |
| `RangeUpdate.IdTypeError` | msgraph.py:82-84 | a non-string identifier gives a TypeError naming a non-string identifier, whatever the other arguments |
| `RangeUpdate.MissingData` | msgraph.py:85-86 | string identifiers and no data give ValueError "Invalid data" |
| `RangeUpdate.TableError` | msgraph.py:88-94 | a table argument that does not fit gives a fault of the second loop: TypeError when no argument has the wrong shape, ValueError when none is a non-list |
| `RangeUpdate.FlagError` | msgraph.py:95-97 | with everything else valid, a bad flag gives the TypeError naming a bad flag |
| `RangeUpdate.TableClass` | msgraph.py:88-94 | unless the table faults are mixed, the table stage raises the class ErrorClass reads off the arguments |
| `RangeUpdate.OutcomeClass` | msgraph.py:82-97 | unless the table faults are mixed, the exception class equals ErrorClass of the arguments, for every iteration order |
| `RangeUpdate.OrderIndependence` | msgraph.py:82-97 | two sets of iteration orders agree on success, on the returned request, and (unless the table faults are mixed) on the exception class |
| `RangeUpdate.DataVisitedFirst` | msgraph.py:88-92 | with data "x" and format [], visiting data first raises the TypeError for data |
| `RangeUpdate.FormatVisitedFirst` | msgraph.py:88-94 | with the same arguments, visiting format first raises the ValueError for format, so the class depends on the order |
| `RangeUpdate.DataOnlyBody` | msgraph.py:99-113 | called with only the data, the body is exactly {"values": data} |
| `RangeAddress.NumDigitsIsLeast` | msgraph.py:270-274 | the digit count is the smallest k >= 1 with col < 26^k |
| `RangeAddress.NumDigitsUnique` | msgraph.py:272-274 | the bounds the counting loop ends with determine the digit count |
| `RangeAddress.CountDigits` | msgraph.py:270-274 | the `degree` loop ends with `digits_num` equal to NumDigits(col) |
| `RangeAddress.LettersDigits` | msgraph.py:276-279 | k digits are written, each in '@'..'Y' (0..25) |
| `RangeAddress.LettersRoundTrip` | msgraph.py:276-279 | decoding the written letters positionally gives back the number |
| `RangeAddress.LettersLeading` | msgraph.py:276-278 | a number that needs all k digits has a leading digit of at least 'A' |
| `RangeAddress.LettersHead` | msgraph.py:277-279 | read from the most significant end, the letters of d*26^(k-1)+r are chr(64+d) and then the letters of r |
| `RangeAddress.NextDigit` | msgraph.py:277-279 | one turn writes a digit n < 26 and leaves a rest below the next place value, with the letters still to come unchanged |
| `RangeAddress.WriteDigit` | msgraph.py:277-279 | the body of the writing loop keeps "written + letters of rest" constant |
| `RangeAddress.WriteColumn` | msgraph.py:270-279 | both loops together produce exactly ColumnLetters(col) |
| `RangeAddress.ColumnLettersSpec` | msgraph.py:270-279 | the letters are NumDigits(col) characters in '@'..'Y', start with at least 'A' when col >= 1, and decode to col |
| `RangeAddress.NoZ` | msgraph.py:278 | 'Z' is never written |
| `RangeAddress.SingleLetters` | msgraph.py:276-279 | column counts below 26 are the single letter chr(64 + col) |
| `RangeAddress.ZeroDigitExamples` | msgraph.py:276-279 | 26 is "A@", 52 is "B@", 27 is "AA", 675 is "YY", 676 is "A@@" |
| `RangeAddress.DecimalRoundTrip` | msgraph.py:281 | the row numeral is non-empty digits with no leading zero and reads back as the row count |
| `RangeAddress.RangeOfData` | msgraph.py:253-281 | the method returns exactly RangeAddressOf(data): ValueError for None, IndexError for a scalar, ValueError with no second dimension, else "A1:" + letters(shape[1]) + str(shape[0]) |
| `RangeAddress.ParseAddressSplit` | msgraph.py:281 | column text followed by a numeral is split where the digits begin |
| `RangeAddress.AddressRoundTrip` | msgraph.py:281 | every address reads back as its column and row counts |
| `RangeAddress.RectangularTableAddress` | msgraph.py:264-281 | a non-empty rectangular c-column table of r rows gets "A1:" + letters(c) + str(r) |
| `RangeAddress.NoSecondDimensionRefused` | msgraph.py:262-268 | a ragged table, an empty list and a flat list are refused with ValueError |
| `RangeAddress.ThreeByTwoExample` | msgraph.py:253-281 | a 3-row, 2-column table gets "A1:B3" |
| `RangeAddress.TwentySevenColumnsExample` | msgraph.py:253-281 | one row of 27 cells gets "A1:AA1" |
| `RangeAddress.TwentySixColumnsMisnamed` | msgraph.py:276-279 | as written, 26 columns are "A@", where the spreadsheet's name is "Z" |
| `RangeAddress.ColumnNamingDiverges` | msgraph.py:276-279 | the written letters equal the spreadsheet column name exactly when they contain no '@' |
| `RangeAddress.SpreadsheetColumnRoundTrip` | msgraph.py:276-279 | corrected naming: every column number c >= 1 gets a name of letters 'A'..'Z' that decodes to c |
| `RangeAddress.SpreadsheetColumnOnto` | msgraph.py:276-279 | corrected naming: every name of letters 'A'..'Z' is the name of the column it decodes to (a bijection) |
| `RangeAddress.SpreadsheetColumnExamples` | msgraph.py:276-279 | corrected naming: 26 is "Z", 27 "AA", 52 "AZ", 53 "BA", 702 "ZZ", 703 "AAA" |
| `RangeAddress.SpreadsheetAddressRoundTrip` | msgraph.py:281 | the corrected address of (col, row) reads back as (col, row) |
| `RangeAddress.SpreadsheetTableAddress` | msgraph.py:253-281 | corrected get_range_of_data: a rectangular c-column table gets "A1:" + name(c) + str(r), which reads back as (c, r) |

## Left out

- `get_data` (csv file reading), `get_port` (socket binding), the Flask routes, the OAuth flow and session state, and the `graphcall` HTTP dispatch are not part of this model. They are I/O and web plumbing. A table is an input `Value`, and a request is the returned descriptor.
- The constructor `__init__` only stores configuration strings and is not modelled.
- Python 2 dict iteration order is not computed from string hashes. Each validation loop instead takes any permutation of its dict's entries as a parameter.
- `RangeUpdate.DeleteNoneEntries`: it picks the next key arbitrarily and works on a copy of the dict. It does not model Python 3, where deleting while iterating raises `RuntimeError`.
- `PyValues.Shape` models numpy's old object-array rule: the shape stops at the first dimension the elements do not share. Newer numpy raises on ragged input, and that is not modelled. The internals of numpy arrays, tuples and numpy scalars as arguments are not modelled either.
- Floats, dicts, tuples and other Python types are not in `Value`. The `unicode`/`str` distinction of Python 2 is not modelled: every string is a `Str`.
- Exception messages are modelled where the code writes them. The `IndexError` text for scalar data is Python's own "tuple index out of range".

## Findings

| source | as written | input that shows it | evidently intended | confidence | as-written member | corrected member |
|---|---|---|---|---|---|---|
| msgraph.py:276-279 | each base-26 digit d is written as chr(64 + d), so a zero digit becomes '@' and 'Z' never appears | a table with 26 columns gets "A1:A@<rows>" (52 columns give "B@") | spreadsheet column names in bijective base 26: 26 columns end at "Z", 52 at "AZ" | not executed | `RangeAddress.TwentySixColumnsMisnamed` | `RangeAddress.SpreadsheetTableAddress` |
