/** Python values as the ExcelClient sees them: the dynamically typed
    arguments of its methods, the exceptions they raise, and the shape that
    numpy reports for a (nested) list. */
module PyValues {

  /** A Python argument value. `List` is a Python list; strings, booleans,
      integers and None are scalars. */
  datatype Value =
    | Str(s: string)
    | Bool(b: bool)
    | Int(i: int)
    | List(items: seq<Value>)
    | Null

  datatype Option<+T> = None | Some(value: T)

  /** The built-in exception classes the client raises. */
  datatype ErrorKind = TypeError | ValueError | IndexError

  /** A raised exception: its class and its message. */
  datatype Error = Error(kind: ErrorKind, message: string)

  /** A call either returns a value or raises an exception. */
  datatype Result<+T> = Ok(value: T) | Err(error: Error)

  predicate IsScalar(v: Value) {
    !v.List?
  }

  /** The longest common prefix of two sequences of dimensions. */
  function CommonPrefix(a: seq<nat>, b: seq<nat>): (p: seq<nat>)
    ensures |p| <= |a| && |p| <= |b|
    ensures p == a[..|p|] && p == b[..|p|]
    ensures |p| < |a| && |p| < |b| ==> a[|p|] != b[|p|]
  {
    if a == [] || b == [] || a[0] != b[0] then []
    else [a[0]] + CommonPrefix(a[1..], b[1..])
  }

  /** `np.shape` of a value: a scalar has no dimensions; a list of length n
      has n as its first dimension, followed by the dimensions that all of
      its elements share (for a ragged list that is where the shape stops,
      as numpy does when it builds an array of objects). */
  function Shape(v: Value): seq<nat>
  {
    match v
    case List(items) => [|items|] + ChildShape(items)
    case _ => []
  }

  /** The dimensions shared by every element of `items`. */
  function ChildShape(items: seq<Value>): seq<nat>
  {
    if |items| == 0 then []
    else if |items| == 1 then Shape(items[0])
    else CommonPrefix(Shape(items[0]), ChildShape(items[1..]))
  }

  /** A row-major table of cells, as the csv reader produces it. */
  function Table(rows: seq<seq<Value>>): (t: Value)
    ensures t.List? && |t.items| == |rows|
    ensures forall i :: 0 <= i < |rows| ==> t.items[i] == List(rows[i])
  {
    List(seq(|rows|, i requires 0 <= i < |rows| => List(rows[i])))
  }

  predicate AllScalar(cells: seq<Value>) {
    forall j :: 0 <= j < |cells| ==> IsScalar(cells[j])
  }

  lemma {:induction false} ScalarsShareNothing(cells: seq<Value>)
    requires AllScalar(cells)
    ensures ChildShape(cells) == []
  {
    if |cells| > 1 {
      ScalarsShareNothing(cells[1..]);
    }
  }

  /** A flat list of n scalars has the one-dimensional shape [n]. */
  lemma FlatListShape(cells: seq<Value>)
    requires AllScalar(cells)
    ensures Shape(List(cells)) == [|cells|]
  {
    ScalarsShareNothing(cells);
  }

  /** If every element has the shape `s`, the elements share exactly `s`. */
  lemma {:induction false} UniformChildShape(items: seq<Value>, s: seq<nat>)
    requires |items| > 0
    requires forall i :: 0 <= i < |items| ==> Shape(items[i]) == s
    ensures ChildShape(items) == s
  {
    if |items| > 1 {
      UniformChildShape(items[1..], s);
      assert Shape(items[0]) == s;
    }
  }

  /** If the first element and some other element are one-dimensional with
      different lengths, the elements share no dimension. */
  lemma MixedChildShape(items: seq<Value>, k: nat)
    requires 0 < k < |items|
    requires |Shape(items[0])| == 1 && |Shape(items[k])| == 1
    requires Shape(items[k]) != Shape(items[0])
    ensures ChildShape(items) == []
  {
    ChildShapeIsPrefix(items[1..], k - 1);
    assert items[1..][k - 1] == items[k];
  }

  /** What the elements share is a prefix of every element's shape. */
  lemma {:induction false} ChildShapeIsPrefix(items: seq<Value>, k: nat)
    requires k < |items|
    ensures var c := ChildShape(items);
      |c| <= |Shape(items[k])| && c == Shape(items[k])[..|c|]
  {
    if |items| > 1 {
      if k > 0 {
        ChildShapeIsPrefix(items[1..], k - 1);
        assert items[1..][k - 1] == items[k];
      }
    }
  }

  /** A non-empty rectangular table of scalars with r rows of c cells has the
      two-dimensional shape [r, c]. */
  lemma RectangularShape(rows: seq<seq<Value>>, c: nat)
    requires |rows| > 0
    requires forall i :: 0 <= i < |rows| ==> |rows[i]| == c && AllScalar(rows[i])
    ensures Shape(Table(rows)) == [|rows|, c]
  {
    var t := Table(rows);
    forall i | 0 <= i < |rows|
      ensures Shape(t.items[i]) == [c]
    {
      FlatListShape(rows[i]);
    }
    UniformChildShape(t.items, [c]);
  }

  /** A ragged table of scalars (two rows of different lengths) has only the
      one dimension [r]: numpy finds no common column count. */
  lemma RaggedShape(rows: seq<seq<Value>>, k: nat)
    requires 0 < k < |rows|
    requires forall i :: 0 <= i < |rows| ==> AllScalar(rows[i])
    requires |rows[k]| != |rows[0]|
    ensures Shape(Table(rows)) == [|rows|]
  {
    var t := Table(rows);
    FlatListShape(rows[0]);
    FlatListShape(rows[k]);
    MixedChildShape(t.items, k);
  }
}
