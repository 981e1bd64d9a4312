/** `ExcelClient.update_range`: validation in three loops over dict literals,
    then a PATCH whose body holds `values` and every optional field that was
    given, after the None entries are deleted from it. */
module RangeUpdate {
  import opened PyValues
  import opened DictOrder
  import opened Requests

  /** The entries of the second validation dict, `{"data": data, "format":
      format, "formulas": ..., "formulasLocal": ..., "formulasR1C1": ...}`. */
  function TableEntries(data: Value, format: Value, formulas: Value, formulasLocal: Value, formulasR1C1: Value): seq<(string, Value)> {
    [("data", data), ("format", format), ("formulas", formulas),
     ("formulasLocal", formulasLocal), ("formulasR1C1", formulasR1C1)]
  }

  /** The entries of the third validation dict. */
  function FlagEntries(columnHidden: Value, rowHidden: Value): seq<(string, Value)> {
    [("columnHidden", columnHidden), ("rowHidden", rowHidden)]
  }

  /** A given table argument that is not a list. */
  predicate NotAList(v: Value) {
    !v.Null? && !v.List?
  }

  /** A given list argument whose shape is not `size`. */
  predicate WrongShape(v: Value, size: seq<nat>) {
    v.List? && Shape(v) != size
  }

  /** A table argument the second loop lets through: not given, or a list of
      shape `size`. */
  predicate Fits(v: Value, size: seq<nat>) {
    v.Null? || (v.List? && Shape(v) == size)
  }

  function ShapeErrorFor(key: string): Error {
    Error(ValueError, key + " shape and data shape must be the same")
  }

  /** One step of the second loop: a non-None value must be a list (else
      TypeError) of the data's shape (else ValueError). */
  function CheckTableEntry(size: seq<nat>, entry: (string, Value)): (e: Option<Error>)
    ensures e.None? <==> Fits(entry.1, size)
    ensures NotAList(entry.1) ==> e == Some(TypeErrorFor(entry.0))
    ensures WrongShape(entry.1, size) ==> e == Some(ShapeErrorFor(entry.0))
  {
    if entry.1.Null? then None
    else if !entry.1.List? then Some(TypeErrorFor(entry.0))
    else if Shape(entry.1) != size then Some(ShapeErrorFor(entry.0))
    else None
  }

  function TableCheck(size: seq<nat>): ((string, Value)) -> Option<Error> {
    entry => CheckTableEntry(size, entry)
  }

  /** `e` is what the second loop raises for one of `entries`: a TypeError
      naming an argument that is not a list, or a ValueError naming a list of
      the wrong shape. */
  predicate TableFault(e: Error, entries: seq<(string, Value)>, size: seq<nat>) {
    exists j :: 0 <= j < |entries| &&
      ((NotAList(entries[j].1) && e == TypeErrorFor(entries[j].0)) ||
       (WrongShape(entries[j].1, size) && e == ShapeErrorFor(entries[j].0)))
  }

  /** One step of the third loop: a non-None value must be a bool. */
  function CheckFlag(entry: (string, Value)): (e: Option<Error>)
    ensures e.None? <==> entry.1.Null? || entry.1.Bool?
    ensures e.Some? ==> e.value == TypeErrorFor(entry.0)
  {
    if entry.1.Null? || entry.1.Bool? then None else Some(TypeErrorFor(entry.0))
  }

  predicate IsFlag(v: Value) {
    v.Null? || v.Bool?
  }

  /** The fields of the PATCH body of a range. */
  const BodyKeys: set<string> := {"values", "numberFormat", "columnHidden", "formulas",
                                  "formulasLocal", "formulasR1C1", "rowHidden"}

  /** The request body before the None entries are deleted. */
  function FullBody(data: Value, format: Value, columnHidden: Value, formulas: Value,
                    formulasLocal: Value, formulasR1C1: Value, rowHidden: Value): map<string, Value> {
    map["values" := data, "numberFormat" := format, "columnHidden" := columnHidden,
        "formulas" := formulas, "formulasLocal" := formulasLocal,
        "formulasR1C1" := formulasR1C1, "rowHidden" := rowHidden]
  }

  /** The entries of `m` whose value is not None. */
  function WithoutNone(m: map<string, Value>): (r: map<string, Value>)
    ensures forall k :: k in r <==> k in m && m[k] != Null
    ensures forall k :: k in r ==> r[k] == m[k] && r[k] != Null
  {
    map k | k in m && m[k] != Null :: m[k]
  }

  /** The deletion loop of `update_range`: it walks a snapshot of the
      body's entries and deletes every key whose value is None. Python 2's
      `items()` is a list in an order the program does not control, so the
      next key is chosen arbitrarily; the result is the same for every
      order. */
  method DeleteNoneEntries(requestBody: map<string, Value>) returns (body: map<string, Value>)
    ensures body == WithoutNone(requestBody)
  {
    body := requestBody;
    var pending := requestBody.Keys;
    while pending != {}
      invariant pending <= requestBody.Keys
      invariant forall k :: k in body <==> k in requestBody && (k in pending || requestBody[k] != Null)
      invariant forall k :: k in body ==> body[k] == requestBody[k]
      decreases pending
    {
      var k :| k in pending;
      if requestBody[k] == Null {
        body := body - {k};
      }
      pending := pending - {k};
    }
  }

  /** The second loop: each given table argument must be a list of the
      shape of `data`. Which argument is reported, and so which exception,
      depends on the order when several are wrong. */
  function TableFailure(tableOrder: seq<nat>, data: Value, format: Value, formulas: Value,
                        formulasLocal: Value, formulasR1C1: Value): (r: Option<Error>)
    requires IsIterationOrder(tableOrder, 5)
    ensures var size := Shape(data);
      r.None? <==> Fits(data, size) && Fits(format, size) && Fits(formulas, size)
                   && Fits(formulasLocal, size) && Fits(formulasR1C1, size)
    ensures r.Some? ==> TableFault(r.value, TableEntries(data, format, formulas, formulasLocal, formulasR1C1), Shape(data))
  {
    var entries := TableEntries(data, format, formulas, formulasLocal, formulasR1C1);
    var check := TableCheck(Shape(data));
    FirstFailureSpec(entries, tableOrder, check);
    FiveChecks(entries, check);
    FirstFailure(entries, tableOrder, check)
  }

  lemma FiveChecks(entries: seq<(string, Value)>, check: ((string, Value)) -> Option<Error>)
    requires |entries| == 5
    ensures (forall j :: 0 <= j < |entries| ==> check(entries[j]).None?) <==>
      check(entries[0]).None? && check(entries[1]).None? && check(entries[2]).None?
      && check(entries[3]).None? && check(entries[4]).None?
  {
    if check(entries[0]).None? && check(entries[1]).None? && check(entries[2]).None?
       && check(entries[3]).None? && check(entries[4]).None? {
      forall j | 0 <= j < |entries|
        ensures check(entries[j]).None?
      {
        if j == 0 {} else if j == 1 {} else if j == 2 {} else if j == 3 {} else {}
      }
    }
  }

  lemma TwoChecks(entries: seq<(string, Value)>, check: ((string, Value)) -> Option<Error>)
    requires |entries| == 2
    ensures (forall j :: 0 <= j < |entries| ==> check(entries[j]).None?) <==>
      check(entries[0]).None? && check(entries[1]).None?
  {
    if check(entries[0]).None? && check(entries[1]).None? {
      forall j | 0 <= j < |entries|
        ensures check(entries[j]).None?
      {
        if j == 0 {} else {}
      }
    }
  }

  /** The third loop: each given flag must be a bool. */
  function FlagFailure(flagOrder: seq<nat>, columnHidden: Value, rowHidden: Value): (r: Option<Error>)
    requires IsIterationOrder(flagOrder, 2)
    ensures r.None? <==> IsFlag(columnHidden) && IsFlag(rowHidden)
    ensures r.Some? ==>
      ((!IsFlag(columnHidden) && r.value == TypeErrorFor("columnHidden")) ||
       (!IsFlag(rowHidden) && r.value == TypeErrorFor("rowHidden")))
  {
    var entries := FlagEntries(columnHidden, rowHidden);
    FirstFailureSpec(entries, flagOrder, CheckFlag);
    TwoChecks(entries, CheckFlag);
    FirstFailure(entries, flagOrder, CheckFlag)
  }

  /** The arguments `update_range` accepts: three strings, a given `data`,
      table arguments that are absent or shaped like `data`, and flags that
      are absent or booleans. */
  predicate ValidUpdate(fileId: Value, sheetname: Value, range: Value, data: Value,
                        format: Value, columnHidden: Value, formulas: Value,
                        formulasLocal: Value, formulasR1C1: Value, rowHidden: Value) {
    var size := Shape(data);
    && fileId.Str? && sheetname.Str? && range.Str?
    && data.List?
    && Fits(format, size) && Fits(formulas, size) && Fits(formulasLocal, size) && Fits(formulasR1C1, size)
    && IsFlag(columnHidden) && IsFlag(rowHidden)
  }

  /** Iteration orders of the three validation dicts of `update_range`. */
  predicate UpdateOrders(idOrder: seq<nat>, tableOrder: seq<nat>, flagOrder: seq<nat>) {
    IsIterationOrder(idOrder, 3) && IsIterationOrder(tableOrder, 5) && IsIterationOrder(flagOrder, 2)
  }

  /** The exception the validation of `update_range` raises, if any: the
      identifying strings first, then `data` itself, then the table-shaped
      arguments, then the two flags, each dict in the given iteration order.
      Whatever the orders, it raises nothing exactly on valid arguments. */
  function UpdateRangeFailure(idOrder: seq<nat>, tableOrder: seq<nat>, flagOrder: seq<nat>,
                              fileId: Value, sheetname: Value, range: Value, data: Value,
                              format: Value, columnHidden: Value, formulas: Value,
                              formulasLocal: Value, formulasR1C1: Value, rowHidden: Value): (r: Option<Error>)
    requires UpdateOrders(idOrder, tableOrder, flagOrder)
    ensures r.None? <==> ValidUpdate(fileId, sheetname, range, data, format, columnHidden,
                                     formulas, formulasLocal, formulasR1C1, rowHidden)
  {
    ThreeStrings(IdEntries(fileId, sheetname, range));
    var idFailure := CheckStrings(IdEntries(fileId, sheetname, range), idOrder);
    if idFailure.Some? then idFailure
    else if data.Null? then Some(Error(ValueError, "Invalid data"))
    else
      var tableFailure := TableFailure(tableOrder, data, format, formulas, formulasLocal, formulasR1C1);
      if tableFailure.Some? then tableFailure
      else FlagFailure(flagOrder, columnHidden, rowHidden)
  }

  /** The PATCH of the range, once its identifying arguments passed. */
  function Patch(fileId: string, sheetname: string, range: string, body: map<string, Value>): Result<Descriptor> {
    Ok(Descriptor(RangePath(fileId, sheetname, range), "patch", Fields(body)))
  }

  /** The request body `update_range` sends for the given arguments:
      `values` carries the data, and each optional field appears, under its
      Graph name, exactly when its argument was given. */
  function UpdateBody(data: Value, format: Value, columnHidden: Value, formulas: Value,
                      formulasLocal: Value, formulasR1C1: Value, rowHidden: Value): (r: map<string, Value>)
    ensures forall k :: k in r ==> k in BodyKeys && r[k] != Null
    ensures ("values" in r <==> data != Null) && ("values" in r ==> r["values"] == data)
    ensures ("numberFormat" in r <==> format != Null) && ("numberFormat" in r ==> r["numberFormat"] == format)
    ensures ("columnHidden" in r <==> columnHidden != Null) && ("columnHidden" in r ==> r["columnHidden"] == columnHidden)
    ensures ("formulas" in r <==> formulas != Null) && ("formulas" in r ==> r["formulas"] == formulas)
    ensures ("formulasLocal" in r <==> formulasLocal != Null) && ("formulasLocal" in r ==> r["formulasLocal"] == formulasLocal)
    ensures ("formulasR1C1" in r <==> formulasR1C1 != Null) && ("formulasR1C1" in r ==> r["formulasR1C1"] == formulasR1C1)
    ensures ("rowHidden" in r <==> rowHidden != Null) && ("rowHidden" in r ==> r["rowHidden"] == rowHidden)
  {
    WithoutNone(FullBody(data, format, columnHidden, formulas, formulasLocal, formulasR1C1, rowHidden))
  }

  /** Everything `update_range` may return or raise, for the given iteration
      orders of its three validation dicts: on valid arguments, a PATCH of
      the range with the body above, and otherwise the exception. */
  function UpdateRangeOutcome(idOrder: seq<nat>, tableOrder: seq<nat>, flagOrder: seq<nat>,
                              fileId: Value, sheetname: Value, range: Value, data: Value,
                              format: Value, columnHidden: Value, formulas: Value,
                              formulasLocal: Value, formulasR1C1: Value, rowHidden: Value): (r: Result<Descriptor>)
    requires UpdateOrders(idOrder, tableOrder, flagOrder)
    ensures r.Ok? <==> ValidUpdate(fileId, sheetname, range, data, format, columnHidden,
                                   formulas, formulasLocal, formulasR1C1, rowHidden)
    ensures r.Ok? ==> r.value == Descriptor(RangePath(fileId.s, sheetname.s, range.s), "patch",
                                            Fields(UpdateBody(data, format, columnHidden, formulas,
                                                              formulasLocal, formulasR1C1, rowHidden)))
  {
    var failure := UpdateRangeFailure(idOrder, tableOrder, flagOrder, fileId, sheetname, range, data,
                                      format, columnHidden, formulas, formulasLocal, formulasR1C1, rowHidden);
    if failure.Some? then Err(failure.value)
    else Patch(fileId.s, sheetname.s, range.s,
               UpdateBody(data, format, columnHidden, formulas, formulasLocal, formulasR1C1, rowHidden))
  }

  /** The three validation loops of `update_range` and the `data is None`
      test between the first two. */
  method ValidateUpdate(idOrder: seq<nat>, tableOrder: seq<nat>, flagOrder: seq<nat>,
                        fileId: Value, sheetname: Value, range: Value, data: Value,
                        format: Value, columnHidden: Value, formulas: Value,
                        formulasLocal: Value, formulasR1C1: Value, rowHidden: Value)
    returns (failure: Option<Error>)
    requires UpdateOrders(idOrder, tableOrder, flagOrder)
    ensures failure == UpdateRangeFailure(idOrder, tableOrder, flagOrder, fileId, sheetname, range, data,
                                          format, columnHidden, formulas, formulasLocal, formulasR1C1, rowHidden)
  {
    ghost var ids := CheckStrings(IdEntries(fileId, sheetname, range), idOrder);
    ghost var tables := TableFailure(tableOrder, data, format, formulas, formulasLocal, formulasR1C1);
    ghost var flags := FlagFailure(flagOrder, columnHidden, rowHidden);
    assert UpdateRangeFailure(idOrder, tableOrder, flagOrder, fileId, sheetname, range, data,
                              format, columnHidden, formulas, formulasLocal, formulasR1C1, rowHidden)
        == if ids.Some? then ids
           else if data.Null? then Some(Error(ValueError, "Invalid data"))
           else if tables.Some? then tables
           else flags;
    failure := Validate(IdEntries(fileId, sheetname, range), idOrder, CheckStr);
    if failure.Some? {
      return;
    }
    if data.Null? {
      return Some(Error(ValueError, "Invalid data"));
    }
    var size := Shape(data);
    failure := Validate(TableEntries(data, format, formulas, formulasLocal, formulasR1C1), tableOrder, TableCheck(size));
    if failure.Some? {
      return;
    }
    failure := Validate(FlagEntries(columnHidden, rowHidden), flagOrder, CheckFlag);
  }

  /** `update_range`, for the given iteration orders of its three
      validation dicts. */
  method UpdateRange(idOrder: seq<nat>, tableOrder: seq<nat>, flagOrder: seq<nat>,
                     fileId: Value, sheetname: Value, range: Value, data: Value,
                     format: Value := Null, columnHidden: Value := Null, formulas: Value := Null,
                     formulasLocal: Value := Null, formulasR1C1: Value := Null, rowHidden: Value := Null)
    returns (r: Result<Descriptor>)
    requires UpdateOrders(idOrder, tableOrder, flagOrder)
    ensures r == UpdateRangeOutcome(idOrder, tableOrder, flagOrder, fileId, sheetname, range, data,
                                    format, columnHidden, formulas, formulasLocal, formulasR1C1, rowHidden)
  {
    ghost var spec := UpdateRangeFailure(idOrder, tableOrder, flagOrder, fileId, sheetname, range, data,
                                         format, columnHidden, formulas, formulasLocal, formulasR1C1, rowHidden);
    ghost var body := UpdateBody(data, format, columnHidden, formulas, formulasLocal, formulasR1C1, rowHidden);
    assert UpdateRangeOutcome(idOrder, tableOrder, flagOrder, fileId, sheetname, range, data,
                              format, columnHidden, formulas, formulasLocal, formulasR1C1, rowHidden)
        == if spec.Some? then Err(spec.value) else Patch(fileId.s, sheetname.s, range.s, body);
    var failure := ValidateUpdate(idOrder, tableOrder, flagOrder, fileId, sheetname, range, data,
                                  format, columnHidden, formulas, formulasLocal, formulasR1C1, rowHidden);
    if failure.Some? {
      return Err(failure.value);
    }
    var requestBody := FullBody(data, format, columnHidden, formulas, formulasLocal, formulasR1C1, rowHidden);
    requestBody := DeleteNoneEntries(requestBody);
    return Patch(fileId.s, sheetname.s, range.s, requestBody);
  }

  /** Two of the table arguments fail differently: one is not a list and
      another is a list of the wrong shape. Only then does the exception
      class depend on the iteration order. */
  predicate MixedTableFaults(data: Value, format: Value, formulas: Value, formulasLocal: Value, formulasR1C1: Value) {
    var entries := TableEntries(data, format, formulas, formulasLocal, formulasR1C1);
    (exists j :: 0 <= j < |entries| && NotAList(entries[j].1)) &&
    (exists j :: 0 <= j < |entries| && WrongShape(entries[j].1, Shape(data)))
  }

  /** An identifying argument that is not a string: a TypeError naming one
      such argument, whatever the orders and the other arguments. */
  lemma IdTypeError(idOrder: seq<nat>, tableOrder: seq<nat>, flagOrder: seq<nat>,
                    fileId: Value, sheetname: Value, range: Value, data: Value,
                    format: Value, columnHidden: Value, formulas: Value,
                    formulasLocal: Value, formulasR1C1: Value, rowHidden: Value)
    requires UpdateOrders(idOrder, tableOrder, flagOrder)
    requires !(fileId.Str? && sheetname.Str? && range.Str?)
    ensures var r := UpdateRangeOutcome(idOrder, tableOrder, flagOrder, fileId, sheetname, range, data,
                                        format, columnHidden, formulas, formulasLocal, formulasR1C1, rowHidden);
      r.Err? && r.error.kind == TypeError && NamesNonString(r.error, IdEntries(fileId, sheetname, range))
  {
    ThreeStrings(IdEntries(fileId, sheetname, range));
    var e := CheckStrings(IdEntries(fileId, sheetname, range), idOrder);
    assert e.Some?;
    assert UpdateRangeFailure(idOrder, tableOrder, flagOrder, fileId, sheetname, range, data,
                              format, columnHidden, formulas, formulasLocal, formulasR1C1, rowHidden) == e;
  }

  /** Valid identifying strings but no data: ValueError "Invalid data". */
  lemma MissingData(idOrder: seq<nat>, tableOrder: seq<nat>, flagOrder: seq<nat>,
                    fileId: string, sheetname: string, range: string,
                    format: Value, columnHidden: Value, formulas: Value,
                    formulasLocal: Value, formulasR1C1: Value, rowHidden: Value)
    requires UpdateOrders(idOrder, tableOrder, flagOrder)
    ensures UpdateRangeOutcome(idOrder, tableOrder, flagOrder, Str(fileId), Str(sheetname), Str(range), Null,
                               format, columnHidden, formulas, formulasLocal, formulasR1C1, rowHidden)
         == Err(Error(ValueError, "Invalid data"))
  {
    ThreeStrings(IdEntries(Str(fileId), Str(sheetname), Str(range)));
  }

  /** A table argument that is not a list or not shaped like `data`: the
      exception names one such argument; it is a TypeError when no argument
      has the wrong shape and a ValueError when every given argument is a
      list. */
  lemma TableError(idOrder: seq<nat>, tableOrder: seq<nat>, flagOrder: seq<nat>,
                   fileId: string, sheetname: string, range: string, data: Value,
                   format: Value, columnHidden: Value, formulas: Value,
                   formulasLocal: Value, formulasR1C1: Value, rowHidden: Value)
    requires UpdateOrders(idOrder, tableOrder, flagOrder)
    requires data != Null
    requires var size := Shape(data);
      !(Fits(data, size) && Fits(format, size) && Fits(formulas, size) && Fits(formulasLocal, size) && Fits(formulasR1C1, size))
    ensures var r := UpdateRangeOutcome(idOrder, tableOrder, flagOrder, Str(fileId), Str(sheetname), Str(range), data,
                                        format, columnHidden, formulas, formulasLocal, formulasR1C1, rowHidden);
      var entries := TableEntries(data, format, formulas, formulasLocal, formulasR1C1);
      && r.Err?
      && TableFault(r.error, entries, Shape(data))
      && ((forall j :: 0 <= j < |entries| ==> !WrongShape(entries[j].1, Shape(data))) ==> r.error.kind == TypeError)
      && ((forall j :: 0 <= j < |entries| ==> !NotAList(entries[j].1)) ==> r.error.kind == ValueError)
  {
    var ids := IdEntries(Str(fileId), Str(sheetname), Str(range));
    ThreeStrings(ids);
    assert CheckStrings(ids, idOrder).None?;
    var t := TableFailure(tableOrder, data, format, formulas, formulasLocal, formulasR1C1);
    assert t.Some?;
    assert UpdateRangeFailure(idOrder, tableOrder, flagOrder, Str(fileId), Str(sheetname), Str(range), data,
                              format, columnHidden, formulas, formulasLocal, formulasR1C1, rowHidden) == t;
    TableFaultKind(t.value, TableEntries(data, format, formulas, formulasLocal, formulasR1C1), Shape(data));
  }

  /** A fault of the second loop is a TypeError when no entry has the wrong
      shape, and a ValueError when every entry is absent or a list. */
  lemma TableFaultKind(e: Error, entries: seq<(string, Value)>, size: seq<nat>)
    requires TableFault(e, entries, size)
    ensures (forall j :: 0 <= j < |entries| ==> !WrongShape(entries[j].1, size)) ==> e.kind == TypeError
    ensures (forall j :: 0 <= j < |entries| ==> !NotAList(entries[j].1)) ==> e.kind == ValueError
  {
    var j :| 0 <= j < |entries| &&
      ((NotAList(entries[j].1) && e == TypeErrorFor(entries[j].0)) ||
       (WrongShape(entries[j].1, size) && e == ShapeErrorFor(entries[j].0)));
  }

  /** Valid strings and tables but a flag that is neither None nor a bool: a
      TypeError naming such a flag. */
  lemma FlagError(idOrder: seq<nat>, tableOrder: seq<nat>, flagOrder: seq<nat>,
                  fileId: string, sheetname: string, range: string, data: Value,
                  format: Value, columnHidden: Value, formulas: Value,
                  formulasLocal: Value, formulasR1C1: Value, rowHidden: Value)
    requires UpdateOrders(idOrder, tableOrder, flagOrder)
    requires data.List?
    requires var size := Shape(data);
      Fits(format, size) && Fits(formulas, size) && Fits(formulasLocal, size) && Fits(formulasR1C1, size)
    requires !(IsFlag(columnHidden) && IsFlag(rowHidden))
    ensures var r := UpdateRangeOutcome(idOrder, tableOrder, flagOrder, Str(fileId), Str(sheetname), Str(range), data,
                                        format, columnHidden, formulas, formulasLocal, formulasR1C1, rowHidden);
      || (r == Err(TypeErrorFor("columnHidden")) && !IsFlag(columnHidden))
      || (r == Err(TypeErrorFor("rowHidden")) && !IsFlag(rowHidden))
  {
    ThreeStrings(IdEntries(Str(fileId), Str(sheetname), Str(range)));
  }

  /** The exception class `update_range` raises on invalid arguments, read
      off the arguments alone: TypeError for a non-string identifier, then
      ValueError for missing data, then for the table arguments TypeError if
      one is not a list and ValueError otherwise, then TypeError for a flag. */
  function ErrorClass(fileId: Value, sheetname: Value, range: Value, data: Value,
                      format: Value, formulas: Value, formulasLocal: Value, formulasR1C1: Value): ErrorKind {
    var size := Shape(data);
    var entries := TableEntries(data, format, formulas, formulasLocal, formulasR1C1);
    if !(fileId.Str? && sheetname.Str? && range.Str?) then TypeError
    else if data.Null? then ValueError
    else if !(Fits(data, size) && Fits(format, size) && Fits(formulas, size) && Fits(formulasLocal, size) && Fits(formulasR1C1, size)) then
      if exists j :: 0 <= j < |entries| && NotAList(entries[j].1) then TypeError else ValueError
    else TypeError
  }

  /** Unless the table arguments fail in both ways, the exception class is
      the one read off the arguments, whatever the orders. */
  lemma OutcomeClass(idOrder: seq<nat>, tableOrder: seq<nat>, flagOrder: seq<nat>,
                     fileId: Value, sheetname: Value, range: Value, data: Value,
                     format: Value, columnHidden: Value, formulas: Value,
                     formulasLocal: Value, formulasR1C1: Value, rowHidden: Value)
    requires UpdateOrders(idOrder, tableOrder, flagOrder)
    requires !MixedTableFaults(data, format, formulas, formulasLocal, formulasR1C1)
    ensures var r := UpdateRangeOutcome(idOrder, tableOrder, flagOrder, fileId, sheetname, range, data,
                                        format, columnHidden, formulas, formulasLocal, formulasR1C1, rowHidden);
      r.Err? ==> r.error.kind == ErrorClass(fileId, sheetname, range, data, format, formulas, formulasLocal, formulasR1C1)
  {
    var size := Shape(data);
    var k := ErrorClass(fileId, sheetname, range, data, format, formulas, formulasLocal, formulasR1C1);
    if !(fileId.Str? && sheetname.Str? && range.Str?) {
      assert k == TypeError;
      IdTypeError(idOrder, tableOrder, flagOrder, fileId, sheetname, range, data,
                  format, columnHidden, formulas, formulasLocal, formulasR1C1, rowHidden);
    } else if data.Null? {
      assert k == ValueError;
      MissingData(idOrder, tableOrder, flagOrder, fileId.s, sheetname.s, range.s,
                  format, columnHidden, formulas, formulasLocal, formulasR1C1, rowHidden);
    } else if !(Fits(data, size) && Fits(format, size) && Fits(formulas, size) && Fits(formulasLocal, size) && Fits(formulasR1C1, size)) {
      TableClass(idOrder, tableOrder, flagOrder, fileId.s, sheetname.s, range.s, data,
                 format, columnHidden, formulas, formulasLocal, formulasR1C1, rowHidden);
    } else {
      assert k == TypeError;
      if !(IsFlag(columnHidden) && IsFlag(rowHidden)) {
        FlagError(idOrder, tableOrder, flagOrder, fileId.s, sheetname.s, range.s, data,
                  format, columnHidden, formulas, formulasLocal, formulasR1C1, rowHidden);
      }
    }
  }

  /** The table case of OutcomeClass. */
  lemma TableClass(idOrder: seq<nat>, tableOrder: seq<nat>, flagOrder: seq<nat>,
                   fileId: string, sheetname: string, range: string, data: Value,
                   format: Value, columnHidden: Value, formulas: Value,
                   formulasLocal: Value, formulasR1C1: Value, rowHidden: Value)
    requires UpdateOrders(idOrder, tableOrder, flagOrder)
    requires data != Null
    requires var size := Shape(data);
      !(Fits(data, size) && Fits(format, size) && Fits(formulas, size) && Fits(formulasLocal, size) && Fits(formulasR1C1, size))
    requires !MixedTableFaults(data, format, formulas, formulasLocal, formulasR1C1)
    ensures var r := UpdateRangeOutcome(idOrder, tableOrder, flagOrder, Str(fileId), Str(sheetname), Str(range), data,
                                        format, columnHidden, formulas, formulasLocal, formulasR1C1, rowHidden);
      r.Err? && r.error.kind == ErrorClass(Str(fileId), Str(sheetname), Str(range), data, format, formulas, formulasLocal, formulasR1C1)
  {
    TableError(idOrder, tableOrder, flagOrder, fileId, sheetname, range, data,
               format, columnHidden, formulas, formulasLocal, formulasR1C1, rowHidden);
  }

  /** The iteration orders decide at most which invalid argument is named:
      whether the call succeeds, what it returns, and the exception class
      (unless the table arguments fail in both ways) are the same for every
      order. */
  lemma OrderIndependence(idOrder: seq<nat>, tableOrder: seq<nat>, flagOrder: seq<nat>,
                          idOrder': seq<nat>, tableOrder': seq<nat>, flagOrder': seq<nat>,
                          fileId: Value, sheetname: Value, range: Value, data: Value,
                          format: Value, columnHidden: Value, formulas: Value,
                          formulasLocal: Value, formulasR1C1: Value, rowHidden: Value)
    requires UpdateOrders(idOrder, tableOrder, flagOrder)
    requires UpdateOrders(idOrder', tableOrder', flagOrder')
    ensures var r := UpdateRangeOutcome(idOrder, tableOrder, flagOrder, fileId, sheetname, range, data,
                                        format, columnHidden, formulas, formulasLocal, formulasR1C1, rowHidden);
      var r' := UpdateRangeOutcome(idOrder', tableOrder', flagOrder', fileId, sheetname, range, data,
                                   format, columnHidden, formulas, formulasLocal, formulasR1C1, rowHidden);
      && (r.Ok? <==> r'.Ok?)
      && (r.Ok? ==> r == r')
      && (r.Err? && !MixedTableFaults(data, format, formulas, formulasLocal, formulasR1C1) ==> r.error.kind == r'.error.kind)
  {
    if !MixedTableFaults(data, format, formulas, formulasLocal, formulasR1C1) {
      OutcomeClass(idOrder, tableOrder, flagOrder, fileId, sheetname, range, data,
                   format, columnHidden, formulas, formulasLocal, formulasR1C1, rowHidden);
      OutcomeClass(idOrder', tableOrder', flagOrder', fileId, sheetname, range, data,
                   format, columnHidden, formulas, formulasLocal, formulasR1C1, rowHidden);
    }
  }

  predicate SmallOrdersHold() {
    UpdateOrders([0, 1, 2], [0, 1, 2, 3, 4], [0, 1]) && UpdateOrders([0, 1, 2], [1, 0, 2, 3, 4], [0, 1])
  }

  lemma SmallOrders()
    ensures SmallOrdersHold()
  {
    assert 0 in [0, 1, 2] && 1 in [0, 1, 2] && 2 in [0, 1, 2] && 0 in [0, 1] && 1 in [0, 1];
    assert 0 in [0, 1, 2, 3, 4] && 1 in [0, 1, 2, 3, 4] && 2 in [0, 1, 2, 3, 4] && 3 in [0, 1, 2, 3, 4] && 4 in [0, 1, 2, 3, 4];
    assert 0 in [1, 0, 2, 3, 4] && 1 in [1, 0, 2, 3, 4] && 2 in [1, 0, 2, 3, 4] && 3 in [1, 0, 2, 3, 4] && 4 in [1, 0, 2, 3, 4];
  }

  /** When `data` is the string "x" and `format` an empty list, visiting
      `data` first raises the TypeError for `data`... */
  lemma DataVisitedFirst()
    ensures SmallOrdersHold()
    ensures UpdateRangeOutcome([0, 1, 2], [0, 1, 2, 3, 4], [0, 1], Str("id"), Str("Sheet1"), Str("A1:B2"),
                               Str("x"), List([]), Null, Null, Null, Null, Null)
         == Err(TypeErrorFor("data"))
  {
    SmallOrders();
    var ids := IdEntries(Str("id"), Str("Sheet1"), Str("A1:B2"));
    ThreeStrings(ids);
    assert CheckStrings(ids, [0, 1, 2]) == None;
    var entries := TableEntries(Str("x"), List([]), Null, Null, Null);
    assert Shape(Str("x")) == [];
    assert FirstFailure(entries, [0, 1, 2, 3, 4], TableCheck([])) == Some(TypeErrorFor("data"));
    assert TableFailure([0, 1, 2, 3, 4], Str("x"), List([]), Null, Null, Null) == Some(TypeErrorFor("data"));
  }

  /** ...and visiting `format` first raises the ValueError for `format`: for
      these arguments the exception depends on the iteration order. */
  lemma FormatVisitedFirst()
    ensures SmallOrdersHold()
    ensures UpdateRangeOutcome([0, 1, 2], [1, 0, 2, 3, 4], [0, 1], Str("id"), Str("Sheet1"), Str("A1:B2"),
                               Str("x"), List([]), Null, Null, Null, Null, Null)
         == Err(ShapeErrorFor("format"))
  {
    SmallOrders();
    var ids := IdEntries(Str("id"), Str("Sheet1"), Str("A1:B2"));
    ThreeStrings(ids);
    assert CheckStrings(ids, [0, 1, 2]) == None;
    var entries := TableEntries(Str("x"), List([]), Null, Null, Null);
    assert Shape(Str("x")) == [] && Shape(List([])) == [0];
    assert entries[1] == ("format", List([]));
    assert TableCheck([])(entries[1]) == Some(ShapeErrorFor("format"));
    assert FirstFailure(entries, [1, 0, 2, 3, 4], TableCheck([])) == Some(ShapeErrorFor("format"));
    assert TableFailure([1, 0, 2, 3, 4], Str("x"), List([]), Null, Null, Null) == Some(ShapeErrorFor("format"));
  }

  /** Called with only the data, `update_range` sends `{"values": data}`. */
  lemma DataOnlyBody(idOrder: seq<nat>, tableOrder: seq<nat>, flagOrder: seq<nat>,
                     fileId: string, sheetname: string, range: string, cells: seq<Value>)
    requires UpdateOrders(idOrder, tableOrder, flagOrder)
    ensures UpdateRangeOutcome(idOrder, tableOrder, flagOrder, Str(fileId), Str(sheetname), Str(range),
                               List(cells), Null, Null, Null, Null, Null, Null)
         == Ok(Descriptor(RangePath(fileId, sheetname, range), "patch", Fields(map["values" := List(cells)])))
  {
    var body := UpdateBody(List(cells), Null, Null, Null, Null, Null, Null);
    assert body.Keys == {"values"};
    assert body == map["values" := List(cells)];
  }
}
