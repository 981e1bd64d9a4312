/** The request-descriptor builders of ExcelClient: each validates its
    arguments and returns the [path, verb, body] of one workbook-range call
    for the HTTP transport to make. */
module Requests {
  import opened PyValues
  import opened DictOrder

  /** A request body: Python None, or a dict from field name to value. */
  datatype Body = NoBody | Fields(fields: map<string, Value>)

  /** The [path, verb, body] list a builder returns. */
  datatype Descriptor = Descriptor(path: string, verb: string, body: Body)

  /** The path of a worksheet range of a drive item, before any suffix. */
  function RangePath(fileId: string, sheetname: string, range: string): string
  {
    "/me/drive/items/" + fileId + "/workbook/worksheets/" + sheetname + "/range(address='" + range + "')"
  }

  function TypeErrorFor(key: string): Error {
    Error(TypeError, "Invalid " + key + " type")
  }

  /** The check `type(v) is not str` of one dict entry. */
  function CheckStr(entry: (string, Value)): Option<Error> {
    if entry.1.Str? then None else Some(TypeErrorFor(entry.0))
  }

  /** `e` is the TypeError that names an entry whose value is not a string. */
  predicate NamesNonString(e: Error, entries: seq<(string, Value)>) {
    exists j :: 0 <= j < |entries| && !entries[j].1.Str? && e == TypeErrorFor(entries[j].0)
  }

  /** The string-type validation loop over a dict literal's entries. */
  function CheckStrings(entries: seq<(string, Value)>, order: seq<nat>): (e: Option<Error>)
    requires IsIterationOrder(order, |entries|)
    ensures e.None? <==> forall j :: 0 <= j < |entries| ==> entries[j].1.Str?
    ensures e.Some? ==> e.value.kind == TypeError && NamesNonString(e.value, entries)
  {
    FirstFailureSpec(entries, order, CheckStr);
    FirstFailure(entries, order, CheckStr)
  }

  /** The entries of `{'file_id': ..., 'sheetname': ..., 'range': ...}`. */
  function IdEntries(fileId: Value, sheetname: Value, range: Value): seq<(string, Value)> {
    [("file_id", fileId), ("sheetname", sheetname), ("range", range)]
  }

  lemma ThreeStrings(entries: seq<(string, Value)>)
    requires |entries| == 3
    ensures (forall j :: 0 <= j < |entries| ==> entries[j].1.Str?) <==>
      entries[0].1.Str? && entries[1].1.Str? && entries[2].1.Str?
  {
    if entries[0].1.Str? && entries[1].1.Str? && entries[2].1.Str? {
      forall j | 0 <= j < |entries|
        ensures entries[j].1.Str?
      {
        if j == 0 {} else if j == 1 {} else {}
      }
    }
  }

  lemma FourStrings(entries: seq<(string, Value)>)
    requires |entries| == 4
    ensures (forall j :: 0 <= j < |entries| ==> entries[j].1.Str?) <==>
      entries[0].1.Str? && entries[1].1.Str? && entries[2].1.Str? && entries[3].1.Str?
  {
    if entries[0].1.Str? && entries[1].1.Str? && entries[2].1.Str? && entries[3].1.Str? {
      forall j | 0 <= j < |entries|
        ensures entries[j].1.Str?
      {
        if j == 0 {} else if j == 1 {} else if j == 2 {} else {}
      }
    }
  }

  /** The shared shape of the five simple builders: validate the entries
      (the three identifying ones first), then describe the call. */
  function Describe(order: seq<nat>, entries: seq<(string, Value)>, suffix: string, verb: string, body: Body): (r: Result<Descriptor>)
    requires |entries| >= 3 && IsIterationOrder(order, |entries|)
    ensures r.Ok? <==> forall j :: 0 <= j < |entries| ==> entries[j].1.Str?
    ensures r.Err? ==> r.error.kind == TypeError && NamesNonString(r.error, entries)
    ensures r.Ok? ==> r.value == Descriptor(RangePath(entries[0].1.s, entries[1].1.s, entries[2].1.s) + suffix, verb, body)
  {
    var e := CheckStrings(entries, order);
    if e.Some? then Err(e.value)
    else
      assert entries[0].1.Str? && entries[1].1.Str? && entries[2].1.Str?;
      Ok(Descriptor(RangePath(entries[0].1.s, entries[1].1.s, entries[2].1.s) + suffix, verb, body))
  }

  /** `get_range`: a GET of the range, with no body. */
  function GetRange(order: seq<nat>, fileId: Value, sheetname: Value, range: Value): (r: Result<Descriptor>)
    requires IsIterationOrder(order, 3)
    ensures r.Ok? <==> fileId.Str? && sheetname.Str? && range.Str?
    ensures r.Err? ==> r.error.kind == TypeError && NamesNonString(r.error, IdEntries(fileId, sheetname, range))
    ensures r.Ok? ==> r.value == Descriptor(RangePath(fileId.s, sheetname.s, range.s), "get", NoBody)
  {
    var entries := IdEntries(fileId, sheetname, range);
    ThreeStrings(entries);
    var r := Describe(order, entries, "", "get", NoBody);
    assert r.Ok? ==> RangePath(fileId.s, sheetname.s, range.s) + "" == RangePath(fileId.s, sheetname.s, range.s);
    r
  }

  /** `insert_empty_cells`: a POST to .../insert whose body carries `shift`
      (default "Down"); `shift` must be a string too, but any string is let
      through. */
  function InsertEmptyCells(order: seq<nat>, fileId: Value, sheetname: Value, range: Value, shift: Value := Str("Down")): (r: Result<Descriptor>)
    requires IsIterationOrder(order, 4)
    ensures r.Ok? <==> fileId.Str? && sheetname.Str? && range.Str? && shift.Str?
    ensures r.Err? ==> r.error.kind == TypeError && NamesNonString(r.error, IdEntries(fileId, sheetname, range) + [("shift", shift)])
    ensures r.Ok? ==> r.value == Descriptor(RangePath(fileId.s, sheetname.s, range.s) + "/insert", "post", Fields(map["shift" := shift]))
  {
    var entries := IdEntries(fileId, sheetname, range) + [("shift", shift)];
    FourStrings(entries);
    Describe(order, entries, "/insert", "post", Fields(map["shift" := shift]))
  }

  /** `clear_range`: a POST to .../clear whose body carries `applyTo`
      (default "All"). */
  function ClearRange(order: seq<nat>, fileId: Value, sheetname: Value, range: Value, applyTo: Value := Str("All")): (r: Result<Descriptor>)
    requires IsIterationOrder(order, 4)
    ensures r.Ok? <==> fileId.Str? && sheetname.Str? && range.Str? && applyTo.Str?
    ensures r.Err? ==> r.error.kind == TypeError && NamesNonString(r.error, IdEntries(fileId, sheetname, range) + [("applyTo", applyTo)])
    ensures r.Ok? ==> r.value == Descriptor(RangePath(fileId.s, sheetname.s, range.s) + "/clear", "post", Fields(map["applyTo" := applyTo]))
  {
    var entries := IdEntries(fileId, sheetname, range) + [("applyTo", applyTo)];
    FourStrings(entries);
    Describe(order, entries, "/clear", "post", Fields(map["applyTo" := applyTo]))
  }

  /** `delete_range`: a POST to .../delete whose body carries `shift`
      (default "Up"). */
  function DeleteRange(order: seq<nat>, fileId: Value, sheetname: Value, range: Value, shift: Value := Str("Up")): (r: Result<Descriptor>)
    requires IsIterationOrder(order, 4)
    ensures r.Ok? <==> fileId.Str? && sheetname.Str? && range.Str? && shift.Str?
    ensures r.Err? ==> r.error.kind == TypeError && NamesNonString(r.error, IdEntries(fileId, sheetname, range) + [("shift", shift)])
    ensures r.Ok? ==> r.value == Descriptor(RangePath(fileId.s, sheetname.s, range.s) + "/delete", "post", Fields(map["shift" := shift]))
  {
    var entries := IdEntries(fileId, sheetname, range) + [("shift", shift)];
    FourStrings(entries);
    Describe(order, entries, "/delete", "post", Fields(map["shift" := shift]))
  }

  /** `get_rangeFormat`: a GET of .../format, with no body. */
  function GetRangeFormat(order: seq<nat>, fileId: Value, sheetname: Value, range: Value): (r: Result<Descriptor>)
    requires IsIterationOrder(order, 3)
    ensures r.Ok? <==> fileId.Str? && sheetname.Str? && range.Str?
    ensures r.Err? ==> r.error.kind == TypeError && NamesNonString(r.error, IdEntries(fileId, sheetname, range))
    ensures r.Ok? ==> r.value == Descriptor(RangePath(fileId.s, sheetname.s, range.s) + "/format", "get", NoBody)
  {
    ThreeStrings(IdEntries(fileId, sheetname, range));
    Describe(order, IdEntries(fileId, sheetname, range), "/format", "get", NoBody)
  }

  /** Called with only the identifying arguments, the three POST builders
      use their defaults: shift "Down", applyTo "All", shift "Up". */
  lemma DefaultBodies(order: seq<nat>, fileId: string, sheetname: string, range: string)
    requires IsIterationOrder(order, 4)
    ensures InsertEmptyCells(order, Str(fileId), Str(sheetname), Str(range)).value.body == Fields(map["shift" := Str("Down")])
    ensures ClearRange(order, Str(fileId), Str(sheetname), Str(range)).value.body == Fields(map["applyTo" := Str("All")])
    ensures DeleteRange(order, Str(fileId), Str(sheetname), Str(range)).value.body == Fields(map["shift" := Str("Up")])
  {
  }

  /** The path suffixes of get_range, insert_empty_cells, clear_range,
      delete_range and get_rangeFormat. */
  const OperationSuffixes: seq<string> := ["", "/insert", "/clear", "/delete", "/format"]

  /** For the same range, the five calls go to five different paths. */
  lemma OperationPathsDistinct(fileId: string, sheetname: string, range: string, i: nat, j: nat)
    requires i < j < |OperationSuffixes|
    ensures RangePath(fileId, sheetname, range) + OperationSuffixes[i]
         != RangePath(fileId, sheetname, range) + OperationSuffixes[j]
  {
    var p := RangePath(fileId, sheetname, range);
    var a, b := OperationSuffixes[i], OperationSuffixes[j];
    assert a != b by {
      if i == 0 {
        assert |a| != |b|;
      } else {
        assert a[1] != b[1];
      }
    }
    assert a == (p + a)[|p|..] && b == (p + b)[|p|..];
  }

  /** The range path of "A1:B3" on "Sheet1" of file "X". */
  lemma ExamplePath()
    ensures RangePath("X", "Sheet1", "A1:B3") == "/me/drive/items/X/workbook/worksheets/Sheet1/range(address='A1:B3')"
  {
    var p1 := "/me/drive/items/" + "X";
    assert p1 == "/me/drive/items/X";
    var p2 := p1 + "/workbook/worksheets/";
    assert p2 == "/me/drive/items/X/workbook/worksheets/";
    var p3 := p2 + "Sheet1";
    assert p3 == "/me/drive/items/X/workbook/worksheets/Sheet1";
    var p4 := p3 + "/range(address='";
    assert p4 == "/me/drive/items/X/workbook/worksheets/Sheet1/range(address='";
    var p5 := p4 + "A1:B3";
    assert p5 == "/me/drive/items/X/workbook/worksheets/Sheet1/range(address='A1:B3";
  }

  /** The call of the demo program: delete_range on "Sheet1" of file "X" at
      "A1:B3" posts {"shift": "Up"} to the range's /delete path. */
  lemma DeleteRangeExample(order: seq<nat>)
    requires IsIterationOrder(order, 4)
    ensures DeleteRange(order, Str("X"), Str("Sheet1"), Str("A1:B3"))
      == Ok(Descriptor("/me/drive/items/X/workbook/worksheets/Sheet1/range(address='A1:B3')/delete",
                       "post", Fields(map["shift" := Str("Up")])))
  {
    ExamplePath();
    var p := RangePath("X", "Sheet1", "A1:B3");
    assert p + "/delete" == "/me/drive/items/X/workbook/worksheets/Sheet1/range(address='A1:B3')/delete";
  }
}
