/** The range-addressing part of ExcelClient (`get_range_of_data`): the
    address "A1:<column letters><row count>" of the cells a table occupies.

    The column count is written in plain positional base 26, most significant
    digit first, each digit d as the character with code 64 + d. A zero digit
    therefore comes out as '@' (26 columns give "A@") and 'Z' never appears. */
module RangeAddress {
  import opened PyValues

  function Pow26(k: nat): (p: nat)
    ensures p >= 1
  {
    if k == 0 then 1 else 26 * Pow26(k - 1)
  }

  lemma {:induction false} Pow26Monotonic(j: nat, k: nat)
    requires j <= k
    ensures Pow26(j) <= Pow26(k)
  {
    if j < k {
      Pow26Monotonic(j, k - 1);
    }
  }

  /** The digit count `digits_num`: one digit below 26, one more for every
      further factor of 26. */
  function NumDigits(col: nat): (k: nat)
    ensures k >= 1
  {
    if col < 26 then 1 else 1 + NumDigits(col / 26)
  }

  /** `NumDigits(col)` is the smallest k >= 1 with col < 26^k. */
  lemma {:induction false} NumDigitsIsLeast(col: nat)
    ensures col < Pow26(NumDigits(col))
    ensures forall j :: 1 <= j < NumDigits(col) ==> Pow26(j) <= col
  {
    if col >= 26 {
      var q := col / 26;
      NumDigitsIsLeast(q);
      forall j | 1 <= j < NumDigits(col)
        ensures Pow26(j) <= col
      {
        if j > 1 {
          assert Pow26(j - 1) <= q;
        }
      }
    }
  }

  /** The bounds the digit-count loop establishes determine the count. */
  lemma NumDigitsUnique(col: nat, k: nat)
    requires k >= 1 && col < Pow26(k)
    requires k == 1 || Pow26(k - 1) <= col
    ensures NumDigits(col) == k
  {
    var d := NumDigits(col);
    NumDigitsIsLeast(col);
    if d < k {
      Pow26Monotonic(d, k - 1);
    }
  }

  lemma {:induction false} MulAtLeast(x: int, d: int)
    requires x >= 1 && d > 0
    ensures x * d >= d
    decreases x
  {
    if x > 1 {
      MulAtLeast(x - 1, d);
      assert x * d == (x - 1) * d + d;
    }
  }

  /** Euclidean division is determined by its quotient and remainder. */
  lemma DivModUnique(c: int, d: int, a: int, b: int)
    requires d > 0 && 0 <= b < d && c == a * d + b
    ensures c / d == a && c % d == b
  {
    var q, r := c / d, c % d;
    assert c == q * d + r && 0 <= r < d;
    if a > q {
      assert (a - q) * d == a * d - q * d;
      MulAtLeast(a - q, d);
    } else if a < q {
      assert (q - a) * d == q * d - a * d;
      MulAtLeast(q - a, d);
    }
  }

  /** Splitting c < 26 * p at place value p gives a digit below 26 and a
      remainder below p. */
  lemma DigitSplit(c: nat, p: nat)
    requires p >= 1 && c < 26 * p
    ensures c / p < 26 && c % p < p && (c / p) * p + c % p == c
  {
    var q, r := c / p, c % p;
    assert c == q * p + r && 0 <= r < p;
    MulMonotone(26, q, p);
  }

  lemma MulMonotone(a: nat, b: nat, p: nat)
    ensures a <= b ==> a * p <= b * p
  {
    if a <= b {
      assert b * p - a * p == (b - a) * p;
    }
  }

  /** The k base-26 digits of c < 26^k, each written as the character with
      code 64 + digit, the least significant one last. */
  function Letters(c: nat, k: nat): string
    decreases k
  {
    if k == 0 then ""
    else Letters(c / 26, k - 1) + [(64 + c % 26) as char]
  }

  /** The column letters `xl_col` for a column count. */
  function ColumnLetters(col: nat): string
  {
    NumDigitsIsLeast(col);
    Letters(col, NumDigits(col))
  }

  /** A character of column text: '@' (digit 0) up to 'Z' (digit 26). */
  predicate IsColumnChar(ch: char) {
    '@' <= ch <= 'Z'
  }

  predicate IsColumnText(s: string) {
    forall i :: 0 <= i < |s| ==> IsColumnChar(s[i])
  }

  /** The positional value of column text, read with Horner's rule: the sum
      of (code - 64) * 26^(distance from the right end) over its letters. */
  function Decode(s: string): nat
    requires IsColumnText(s)
  {
    if s == "" then 0
    else 26 * Decode(s[..|s| - 1]) + (s[|s| - 1] as int - 64)
  }

  /** Every letter written is a digit 0..25, i.e. '@'..'Y', and there are
      exactly k of them. */
  lemma {:induction false} LettersDigits(c: nat, k: nat)
    requires c < Pow26(k)
    ensures |Letters(c, k)| == k
    ensures forall i :: 0 <= i < k ==> '@' <= Letters(c, k)[i] <= 'Y'
  {
    if k > 0 {
      LettersDigits(c / 26, k - 1);
    }
  }

  /** Decoding the letters gives back the number they were written from. */
  lemma {:induction false} LettersRoundTrip(c: nat, k: nat)
    requires c < Pow26(k)
    ensures IsColumnText(Letters(c, k))
    ensures Decode(Letters(c, k)) == c
  {
    LettersDigits(c, k);
    if k > 0 {
      var s := Letters(c, k);
      LettersRoundTrip(c / 26, k - 1);
      assert s[..|s| - 1] == Letters(c / 26, k - 1);
    }
  }

  /** A number that needs all k digits has a leading digit of at least 1. */
  lemma {:induction false} LettersLeading(c: nat, k: nat)
    requires 1 <= k && c < Pow26(k)
    requires 1 <= c && Pow26(k - 1) <= c
    ensures |Letters(c, k)| == k && Letters(c, k)[0] >= 'A'
  {
    LettersDigits(c, k);
    if k > 1 {
      LettersLeading(c / 26, k - 1);
    }
  }

  /** Read from the most significant end, the letters of c = d * 26^(k-1) + r
      are the leading digit d followed by r in k - 1 digits: the order in
      which the loop of `get_range_of_data` writes them. */
  lemma {:induction false} LettersHead(c: nat, k: nat, d: nat, r: nat)
    requires 1 <= k && d < 26 && r < Pow26(k - 1) && c == d * Pow26(k - 1) + r
    ensures Letters(c, k) == [(64 + d) as char] + Letters(r, k - 1)
  {
    if k == 1 {
      assert r == 0 && c == d;
    } else {
      var P := Pow26(k - 2);
      assert Pow26(k - 1) == 26 * P;
      LastDigitSplit(c, d, r, P);
      LettersHead(c / 26, k - 1, d, r / 26);
      assert Letters(r, k - 1) == Letters(r / 26, k - 2) + [(64 + r % 26) as char];
    }
  }

  /** Taking off the last digit of d * 26P + r takes it off r. */
  lemma LastDigitSplit(c: nat, d: nat, r: nat, P: nat)
    requires r < 26 * P && c == d * (26 * P) + r
    ensures r / 26 < P && c / 26 == d * P + r / 26 && c % 26 == r % 26
  {
    var r1, r0 := r / 26, r % 26;
    assert c == 26 * (d * P + r1) + r0;
    DivModUnique(c, 26, d * P + r1, r0);
  }

  /** The column letters: NumDigits(col) of them, each in '@'..'Y', the first
      one at least 'A' once there is a column, and decoding them yields the
      column count. */
  lemma ColumnLettersSpec(col: nat)
    ensures |ColumnLetters(col)| == NumDigits(col)
    ensures forall i :: 0 <= i < |ColumnLetters(col)| ==> '@' <= ColumnLetters(col)[i] <= 'Y'
    ensures col >= 1 ==> ColumnLetters(col)[0] >= 'A'
    ensures IsColumnText(ColumnLetters(col)) && Decode(ColumnLetters(col)) == col
  {
    var k := NumDigits(col);
    NumDigitsIsLeast(col);
    LettersDigits(col, k);
    LettersRoundTrip(col, k);
    if col >= 1 {
      if k > 1 {
        assert Pow26(k - 1) <= col;
      }
      LettersLeading(col, k);
    }
  }

  /** 'Z' is never written. */
  lemma NoZ(col: nat)
    ensures 'Z' !in ColumnLetters(col)
  {
    ColumnLettersSpec(col);
  }

  /** Column counts 1..25 are the single letters 'A'..'Y', and a zero
      column count is written '@'. */
  lemma SingleLetters(col: nat)
    requires col < 26
    ensures ColumnLetters(col) == [(64 + col) as char]
  {
    assert Pow26(0) == 1;
  }

  /** A zero digit is written as '@': 26 gives "A@" and 52 gives "B@"; the
      next count 27 gives "AA". */
  lemma ZeroDigitExamples()
    ensures ColumnLetters(26) == "A@"
    ensures ColumnLetters(52) == "B@"
    ensures ColumnLetters(27) == "AA"
    ensures ColumnLetters(675) == "YY"
    ensures ColumnLetters(676) == "A@@"
  {
    assert NumDigits(26) == 2;
    assert NumDigits(676) == 3 by {
      assert NumDigits(26) == 2;
    }
    assert Pow26(2) == 676;
  }

  function DigitChar(d: nat): (ch: char)
    requires d < 10
    ensures '0' <= ch <= '9'
  {
    ('0' as int + d) as char
  }

  predicate IsDigit(ch: char) {
    '0' <= ch <= '9'
  }

  predicate AllDigits(s: string) {
    forall i :: 0 <= i < |s| ==> IsDigit(s[i])
  }

  /** `str(n)`: the decimal numeral of n. */
  function Decimal(n: nat): string
  {
    if n < 10 then [DigitChar(n)] else Decimal(n / 10) + [DigitChar(n % 10)]
  }

  /** The value of a decimal numeral. */
  function ParseDecimal(s: string): nat
    requires AllDigits(s)
  {
    if s == "" then 0
    else ParseDecimal(s[..|s| - 1]) * 10 + (s[|s| - 1] as int - '0' as int)
  }

  /** The numeral is non-empty, all digits, has no leading zero, and reads
      back as n. */
  lemma {:induction false} DecimalRoundTrip(n: nat)
    ensures |Decimal(n)| >= 1 && AllDigits(Decimal(n))
    ensures Decimal(n)[0] == '0' ==> n == 0
    ensures ParseDecimal(Decimal(n)) == n
  {
    if n >= 10 {
      DecimalRoundTrip(n / 10);
      var s := Decimal(n);
      assert s[..|s| - 1] == Decimal(n / 10);
    }
  }

  /** The address of a table with `col` columns and `row` rows. */
  function Address(col: nat, row: nat): string
  {
    "A1:" + ColumnLetters(col) + Decimal(row)
  }

  /** What `get_range_of_data` returns or raises for `data`:
      None is refused with ValueError; a scalar has no first dimension, so
      the unguarded `np.shape(data)[0]` raises IndexError; a value without a
      second dimension (an empty, flat or ragged list) is refused with
      ValueError; otherwise the first two dimensions give the address. */
  function RangeAddressOf(data: Value): Result<string>
  {
    if data.Null? then Err(Error(ValueError, "Invalid input data"))
    else if |Shape(data)| == 0 then Err(Error(IndexError, "tuple index out of range"))
    else if |Shape(data)| == 1 then
      Err(Error(ValueError, "Invalid format of data. Number of columns in lines differ"))
    else Ok(Address(Shape(data)[1], Shape(data)[0]))
  }

  /** The digit count of `get_range_of_data`: `degree` is 26^digits and
      grows until it exceeds the column count. */
  method CountDigits(col: nat) returns (digitsNum: nat)
    ensures digitsNum == NumDigits(col)
  {
    var degree: int := 26;
    digitsNum := 1;
    while col >= degree
      invariant digitsNum >= 1 && degree == Pow26(digitsNum)
      invariant digitsNum == 1 || Pow26(digitsNum - 1) <= col
      decreases col - degree
    {
      degree := degree * 26;
      digitsNum := digitsNum + 1;
    }
    NumDigitsUnique(col, digitsNum);
  }

  /** The column letters of `get_range_of_data`: after counting the digits,
      they are written from the most significant one down. */
  method WriteColumn(col: nat) returns (xlCol: string)
    ensures xlCol == ColumnLetters(col)
  {
    var digitsNum := CountDigits(col);
    NumDigitsIsLeast(col);
    xlCol := "";
    var rest: nat := col;
    // i is the number of digits still to write; the digit written has
    // place value 26^i after the decrement
    ghost var target := ColumnLetters(col);
    for i: nat := digitsNum downto 0
      invariant rest < Pow26(i)
      invariant xlCol + Letters(rest, i) == target
    {
      xlCol, rest := WriteDigit(xlCol, rest, i);
    }
  }

  /** One turn of the writing loop: the digit n of place value 26^i is
      appended as chr(64 + n) and n * 26^i is taken off the rest. */
  method WriteDigit(xlCol: string, rest: nat, i: nat) returns (xlCol': string, rest': nat)
    requires rest < Pow26(i + 1)
    ensures rest' < Pow26(i)
    ensures xlCol' + Letters(rest', i) == xlCol + Letters(rest, i + 1)
  {
    var p := Pow26(i);
    var n := rest / p;
    NextDigit(xlCol, rest, i, p, n);
    xlCol' := xlCol + [(64 + n) as char];
    rest' := rest - n * p;
  }

  /** One step of the writing loop: appending the digit of place value 26^i
      and keeping the rest below it leaves the letters still to come as they
      were. */
  lemma NextDigit(written: string, rest: nat, i: nat, p: nat, n: nat)
    requires rest < Pow26(i + 1) && p == Pow26(i) && n == rest / p
    ensures n < 26 && 0 <= rest - n * p < Pow26(i)
    ensures (written + [(64 + n) as char]) + Letters(rest - n * p, i) == written + Letters(rest, i + 1)
  {
    DigitSplit(rest, p);
    LettersHead(rest, i + 1, n, rest - n * p);
  }

  /** `get_range_of_data`: the digit count grows with `degree` until it
      exceeds the column count, then the digits are written from the most
      significant one down. */
  method RangeOfData(data: Value) returns (r: Result<string>)
    ensures r == RangeAddressOf(data)
  {
    if data.Null? {
      return Err(Error(ValueError, "Invalid input data"));
    }
    var size := Shape(data);
    if |size| == 0 {
      return Err(Error(IndexError, "tuple index out of range"));
    }
    var row := size[0];
    if |size| < 2 {
      return Err(Error(ValueError, "Invalid format of data. Number of columns in lines differ"));
    }
    var col := size[1];

    var xlCol := WriteColumn(col);
    return Ok("A1:" + xlCol + Decimal(row));
  }

  /** The number of leading characters of t that are not decimal digits. */
  function LetterCount(t: string): (k: nat)
    ensures k <= |t|
  {
    if t == [] || IsDigit(t[0]) then 0 else 1 + LetterCount(t[1..])
  }

  /** Reads an address "A1:<letters><digits>" back into its column count and
      row count. */
  function ParseAddress(s: string): Option<(nat, nat)>
  {
    if |s| < 3 || s[..3] != "A1:" then None
    else
      var t := s[3..];
      var k := LetterCount(t);
      if k == 0 || k == |t| || !IsColumnText(t[..k]) || !AllDigits(t[k..]) then None
      else Some((Decode(t[..k]), ParseDecimal(t[k..])))
  }

  lemma {:induction false} LetterCountSplit(l: string, d: string)
    requires forall i :: 0 <= i < |l| ==> !IsDigit(l[i])
    requires d != [] && IsDigit(d[0])
    ensures LetterCount(l + d) == |l|
  {
    if l != [] {
      LetterCountSplit(l[1..], d);
      assert (l + d)[1..] == l[1..] + d;
    } else {
      assert l + d == d;
    }
  }

  /** Column text followed by a numeral is split where the digits start. */
  lemma ParseAddressSplit(l: string, d: string)
    requires l != [] && IsColumnText(l)
    requires d != [] && AllDigits(d)
    ensures ParseAddress("A1:" + l + d) == Some((Decode(l), ParseDecimal(d)))
  {
    var s := "A1:" + l + d;
    assert s[..3] == "A1:";
    var t := s[3..];
    assert t == l + d;
    assert IsDigit(d[0]);
    LetterCountSplit(l, d);
    assert t[..|l|] == l;
    assert t[|l|..] == d;
  }

  /** Every address can be read back: the column letters and the row numeral
      are told apart, and both decode to the counts they encode. */
  lemma AddressRoundTrip(col: nat, row: nat)
    ensures ParseAddress(Address(col, row)) == Some((col, row))
  {
    ColumnLettersSpec(col);
    DecimalRoundTrip(row);
    ParseAddressSplit(ColumnLetters(col), Decimal(row));
  }

  /** A non-empty rectangular table of scalars with r rows of c cells gets
      the address "A1:" + letters(c) + str(r). */
  lemma RectangularTableAddress(rows: seq<seq<Value>>, c: nat)
    requires |rows| > 0
    requires forall i :: 0 <= i < |rows| ==> |rows[i]| == c && AllScalar(rows[i])
    ensures RangeAddressOf(Table(rows)) == Ok("A1:" + ColumnLetters(c) + Decimal(|rows|))
  {
    RectangularShape(rows, c);
  }

  /** A ragged table of scalars, an empty table and a flat list are all
      refused with ValueError. */
  lemma NoSecondDimensionRefused(rows: seq<seq<Value>>, k: nat, cells: seq<Value>)
    requires 0 < k < |rows|
    requires forall i :: 0 <= i < |rows| ==> AllScalar(rows[i])
    requires |rows[k]| != |rows[0]|
    requires AllScalar(cells)
    ensures RangeAddressOf(Table(rows)).Err? && RangeAddressOf(Table(rows)).error.kind == ValueError
    ensures RangeAddressOf(List([])).Err? && RangeAddressOf(List([])).error.kind == ValueError
    ensures RangeAddressOf(List(cells)).Err? && RangeAddressOf(List(cells)).error.kind == ValueError
  {
    RaggedShape(rows, k);
    FlatListShape(cells);
  }

  /** End-to-end example: a 3 x 2 table is "A1:B3". */
  lemma ThreeByTwoExample()
    ensures RangeAddressOf(Table([[Str("a"), Str("b")], [Str("c"), Str("d")], [Str("e"), Str("f")]])) == Ok("A1:B3")
  {
    var t := [[Str("a"), Str("b")], [Str("c"), Str("d")], [Str("e"), Str("f")]];
    RectangularTableAddress(t, 2);
    SingleLetters(2);
    assert Decimal(3) == "3";
    assert "A1:" + "B" + "3" == "A1:B3";
  }

  /** End-to-end example: one row of 27 cells is "A1:AA1". */
  lemma TwentySevenColumnsExample(cells: seq<Value>)
    requires |cells| == 27 && AllScalar(cells)
    ensures RangeAddressOf(Table([cells])) == Ok("A1:AA1")
  {
    RectangularTableAddress([cells], 27);
    ZeroDigitExamples();
    assert Decimal(1) == "1";
    assert "A1:" + "AA" + "1" == "A1:AA1";
  }

  /** The column names a spreadsheet uses: bijective base 26 over 'A'..'Z',
      so 1..26 are "A".."Z", 27 is "AA" and 702 is "ZZ". This is the naming
      the address of `get_range_of_data` evidently means to produce. */
  function SpreadsheetColumn(c: nat): string
    requires c >= 1
  {
    if c <= 26 then [(64 + c) as char]
    else SpreadsheetColumn((c - 1) / 26) + [(65 + (c - 1) % 26) as char]
  }

  /** A non-empty name made of the letters 'A'..'Z'. */
  predicate IsColumnName(s: string) {
    s != [] && forall i :: 0 <= i < |s| ==> 'A' <= s[i] <= 'Z'
  }

  /** Every column number has a name, read back by the same positional
      reading as before (with 'A'..'Z' as the digits 1..26). */
  lemma {:induction false} SpreadsheetColumnRoundTrip(c: nat)
    requires c >= 1
    ensures IsColumnName(SpreadsheetColumn(c))
    ensures IsColumnText(SpreadsheetColumn(c)) && Decode(SpreadsheetColumn(c)) == c
  {
    if c > 26 {
      var q, d := (c - 1) / 26, (c - 1) % 26;
      SpreadsheetColumnRoundTrip(q);
      var s := SpreadsheetColumn(c);
      assert s[..|s| - 1] == SpreadsheetColumn(q);
    }
  }

  /** Every name is the name of exactly one column: the naming is a
      bijection between the positive integers and the names. */
  lemma {:induction false} SpreadsheetColumnOnto(s: string)
    requires IsColumnName(s)
    ensures IsColumnText(s) && Decode(s) >= 1 && SpreadsheetColumn(Decode(s)) == s
  {
    var init, d := s[..|s| - 1], s[|s| - 1] as int - 64;
    assert IsColumnText(init);
    assert Decode(s) == 26 * Decode(init) + d;
    assert s == init + [(64 + d) as char];
    if init != [] {
      assert IsColumnName(init);
      SpreadsheetColumnOnto(init);
      NameStep(Decode(init), d);
    }
  }

  /** Appending the letter of digit d (1..26) to the name of n names 26n + d. */
  lemma NameStep(n: nat, d: int)
    requires n >= 1 && 1 <= d <= 26
    ensures SpreadsheetColumn(26 * n + d) == SpreadsheetColumn(n) + [(64 + d) as char]
  {
    DivModUnique(26 * n + d - 1, 26, n, d - 1);
  }

  lemma SpreadsheetColumnExamples()
    ensures SpreadsheetColumn(26) == "Z"
    ensures SpreadsheetColumn(27) == "AA"
    ensures SpreadsheetColumn(52) == "AZ"
    ensures SpreadsheetColumn(53) == "BA"
    ensures SpreadsheetColumn(702) == "ZZ"
    ensures SpreadsheetColumn(703) == "AAA"
  {
    assert SpreadsheetColumn(1) == "A" && SpreadsheetColumn(26) == "Z";
    assert SpreadsheetColumn(27) == "A" + "A";
    assert SpreadsheetColumn(52) == "A" + "Z";
    assert SpreadsheetColumn(53) == "B" + "A";
    assert SpreadsheetColumn(702) == "Z" + "Z";
    assert SpreadsheetColumn(703) == SpreadsheetColumn(27) + "A";
  }

  /** As written, a table of 26 columns gets "A1:A@<rows>" where the
      spreadsheet's own name of its last column is "Z". */
  lemma TwentySixColumnsMisnamed()
    ensures ColumnLetters(26) == "A@" && SpreadsheetColumn(26) == "Z"
  {
    ZeroDigitExamples();
    SpreadsheetColumnExamples();
  }

  /** The written letters agree with the spreadsheet's name exactly when
      they contain no zero digit '@'. */
  lemma ColumnNamingDiverges(c: nat)
    requires c >= 1
    ensures ColumnLetters(c) == SpreadsheetColumn(c) <==> '@' !in ColumnLetters(c)
  {
    ColumnLettersSpec(c);
    NameOfDigits(ColumnLetters(c), c);
  }

  /** Column text worth c is c's spreadsheet name exactly when it has no '@'. */
  lemma NameOfDigits(s: string, c: nat)
    requires c >= 1 && IsColumnText(s) && Decode(s) == c
    ensures s == SpreadsheetColumn(c) <==> '@' !in s
  {
    SpreadsheetColumnRoundTrip(c);
    if '@' !in s {
      assert IsColumnName(s) by {
        assert s != [];
        forall i | 0 <= i < |s|
          ensures 'A' <= s[i] <= 'Z'
        {
          assert s[i] in s;
        }
      }
      SpreadsheetColumnOnto(s);
    }
  }

  /** The evidently intended address: the last column by its spreadsheet
      name. */
  function SpreadsheetAddress(col: nat, row: nat): string
    requires col >= 1
  {
    "A1:" + SpreadsheetColumn(col) + Decimal(row)
  }

  /** The corrected `get_range_of_data`: as before, but naming the last
      column the way the spreadsheet does. A table without columns has no
      last column and is refused like one without a second dimension. */
  function SpreadsheetRangeAddressOf(data: Value): Result<string>
  {
    if data.Null? then Err(Error(ValueError, "Invalid input data"))
    else if |Shape(data)| == 0 then Err(Error(IndexError, "tuple index out of range"))
    else if |Shape(data)| == 1 || Shape(data)[1] == 0 then
      Err(Error(ValueError, "Invalid format of data. Number of columns in lines differ"))
    else Ok(SpreadsheetAddress(Shape(data)[1], Shape(data)[0]))
  }

  /** The corrected address names the table's last cell: it reads back as
      its column and row counts, and its column is a genuine name. */
  lemma SpreadsheetAddressRoundTrip(col: nat, row: nat)
    requires col >= 1
    ensures IsColumnName(SpreadsheetColumn(col))
    ensures ParseAddress(SpreadsheetAddress(col, row)) == Some((col, row))
  {
    SpreadsheetColumnRoundTrip(col);
    DecimalRoundTrip(row);
    ParseAddressSplit(SpreadsheetColumn(col), Decimal(row));
  }

  /** With the correction, a non-empty rectangular table of c >= 1 columns is
      addressed by the spreadsheet name of its last column. */
  lemma SpreadsheetTableAddress(rows: seq<seq<Value>>, c: nat)
    requires |rows| > 0 && c >= 1
    requires forall i :: 0 <= i < |rows| ==> |rows[i]| == c && AllScalar(rows[i])
    ensures SpreadsheetRangeAddressOf(Table(rows)) == Ok("A1:" + SpreadsheetColumn(c) + Decimal(|rows|))
    ensures ParseAddress(SpreadsheetRangeAddressOf(Table(rows)).value) == Some((c, |rows|))
  {
    RectangularShape(rows, c);
    SpreadsheetAddressRoundTrip(c, |rows|);
  }
}
