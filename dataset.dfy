/** prepare_motorparts_dataset.py: monthly Motorparts sales CSVs are
    normalised to one schema, concatenated in path order, and given
    synthetic product and transaction ids (the motorparts_clean.csv the
    forecasting scripts read). Reading and writing files and pandas' own
    parsing are outside the model: a raw cell carries pandas' parse results. */
module MotorpartsDataset {
  import opened Numbers
  import opened Calendar

  // ---------------------------------------------------------------------
  // Text
  // ---------------------------------------------------------------------

  /** The ASCII characters str.strip() removes (those str.isspace() accepts). */
  predicate IsSpace(c: char) {
    c == ' ' || 9 <= c as int <= 13 || 28 <= c as int <= 31
  }

  /** The number of leading white-space characters. */
  function StripStart(s: string): (r: nat)
    ensures r <= |s| && forall i :: 0 <= i < r ==> IsSpace(s[i])
    ensures r == |s| || !IsSpace(s[r])
    decreases |s|
  {
    if |s| > 0 && IsSpace(s[0]) then 1 + StripStart(s[1..]) else 0
  }

  /** The length of s without its trailing white space. */
  function StripEnd(s: string): (r: nat)
    ensures r <= |s| && forall i :: r <= i < |s| ==> IsSpace(s[i])
    ensures r == 0 || !IsSpace(s[r - 1])
    decreases |s|
  {
    if |s| > 0 && IsSpace(s[|s| - 1]) then StripEnd(s[..|s| - 1]) else |s|
  }

  /** str.strip(): the text between the leading and the trailing white space. */
  function Strip(s: string): (r: string)
    ensures r == [] || (!IsSpace(r[0]) && !IsSpace(r[|r| - 1]))
    ensures StripStart(s) + |r| <= |s| && r == s[StripStart(s)..StripStart(s) + |r|]
    ensures forall i :: StripStart(s) + |r| <= i < |s| ==> IsSpace(s[i])
  {
    var a := StripStart(s);
    if a == |s| then [] else s[a..StripEnd(s)]
  }

  /** Stripping keeps every character from the first to the last that is
      not white space; in particular it leaves such text non-empty. */
  lemma StripKeepsText(s: string, i: nat)
    requires i < |s| && !IsSpace(s[i])
    ensures StripStart(s) <= i < StripStart(s) + |Strip(s)|
    ensures Strip(s) != []
  {
  }

  /** Stripping twice strips nothing more. */
  lemma StripIdempotent(s: string)
    ensures Strip(Strip(s)) == Strip(s)
  {
    var t := Strip(s);
    if t != [] {
      assert StripStart(t) == 0;
      assert StripEnd(t) == |t|;
    }
  }

  /** str.lower() on ASCII letters. */
  function LowerChar(c: char): (r: char)
    ensures 'A' <= c <= 'Z' ==> 'a' <= r <= 'z' && r as int - c as int == 32
    ensures !('A' <= c <= 'Z') ==> r == c
  {
    if 'A' <= c <= 'Z' then (c as int + 32) as char else c
  }

  function Lower(s: string): (r: string)
    ensures |r| == |s|
    ensures forall i :: 0 <= i < |s| ==> r[i] == LowerChar(s[i])
  {
    seq(|s|, i requires 0 <= i < |s| => LowerChar(s[i]))
  }

  /** c.strip().lower(): the key a column name is looked up by. */
  function ColumnKey(c: string): string {
    Lower(Strip(c))
  }

  // ---------------------------------------------------------------------
  // Column resolution
  // ---------------------------------------------------------------------

  /** The keys of the columns, in column order. */
  function Keys(columns: seq<string>): (r: seq<string>)
    ensures |r| == |columns| && forall j :: 0 <= j < |columns| ==> r[j] == ColumnKey(columns[j])
  {
    seq(|columns|, j requires 0 <= j < |columns| => ColumnKey(columns[j]))
  }

  /** A dictionary built from key/value pairs in order: a later pair with
      the same key replaces an earlier one. */
  function PairMap(keys: seq<string>, values: seq<string>): map<string, string>
    requires |keys| == |values|
    decreases |keys|
  {
    if |keys| == 0 then map[]
    else
      var n := |keys| - 1;
      PairMap(keys[..n], values[..n])[keys[n] := values[n]]
  }

  /** A key is mapped exactly when some pair has it, and it maps to the
      value of the last such pair. */
  lemma {:induction false} PairMapLastWins(keys: seq<string>, values: seq<string>, key: string)
    requires |keys| == |values|
    ensures key in PairMap(keys, values) <==> key in keys
    ensures key in PairMap(keys, values) ==>
      exists j :: 0 <= j < |keys| && keys[j] == key && PairMap(keys, values)[key] == values[j]
                  && forall i :: j < i < |keys| ==> keys[i] != key
    decreases |keys|
  {
    if |keys| > 0 {
      var n := |keys| - 1;
      var pk, pv := keys[..n], values[..n];
      PairMapLastWins(pk, pv, key);
      assert keys == pk + [keys[n]];
      if keys[n] == key {
        assert PairMap(keys, values)[key] == values[n];
      } else if key in PairMap(pk, pv) {
        var j :| 0 <= j < n && pk[j] == key && PairMap(pk, pv)[key] == pv[j]
                 && forall i :: j < i < n ==> pk[i] != key;
        assert keys[j] == key && PairMap(keys, values)[key] == values[j];
      }
    }
  }

  /** The case-insensitive column mapping, built in column order. */
  function ColumnMap(columns: seq<string>): map<string, string> {
    PairMap(Keys(columns), columns)
  }

  /** A key is mapped exactly when some column has it, and it maps to the
      last such column. */
  lemma ColumnMapLastWins(columns: seq<string>, key: string)
    ensures key in ColumnMap(columns) <==> exists j :: 0 <= j < |columns| && ColumnKey(columns[j]) == key
    ensures key in ColumnMap(columns) ==>
      exists j :: 0 <= j < |columns| && ColumnKey(columns[j]) == key && ColumnMap(columns)[key] == columns[j]
                  && forall i :: j < i < |columns| ==> ColumnKey(columns[i]) != key
  {
    PairMapLastWins(Keys(columns), columns, key);
  }

  /** pick(*options): the column of the first alias, in the order given,
      that the mapping knows; None when it knows none of them. */
  function FirstAlias(colMap: map<string, string>, options: seq<string>): (r: Option<string>)
    ensures r.None? <==> forall i :: 0 <= i < |options| ==> options[i] !in colMap
    ensures r.Some? ==>
      exists i :: 0 <= i < |options| && options[i] in colMap && r.value == colMap[options[i]]
                  && forall j :: 0 <= j < i ==> options[j] !in colMap
    decreases |options|
  {
    if |options| == 0 then None
    else if options[0] in colMap then
      assert 0 < |options| && options[0] in colMap;
      Some(colMap[options[0]])
    else
      var r := FirstAlias(colMap, options[1..]);
      assert forall i :: 0 < i < |options| ==> options[i] == options[1..][i - 1];
      assert r.Some? ==> exists i :: 0 < i < |options| && options[i] in colMap && r.value == colMap[options[i]]
                                    && forall j :: 0 <= j < i ==> options[j] !in colMap;
      r
  }

  /** The loop of pick: returns at the first alias the mapping knows. */
  method Pick(colMap: map<string, string>, options: seq<string>) returns (r: Option<string>)
    ensures r == FirstAlias(colMap, options)
  {
    for i := 0 to |options|
      invariant forall j :: 0 <= j < i ==> options[j] !in colMap
    {
      if options[i] in colMap {
        return Some(colMap[options[i]]);
      }
    }
    return None;
  }

  const DateAliases: seq<string> := ["transaction_date", "date"]
  const QtyAliases: seq<string> := ["transaction_qty", "quantity", "qty"]
  const NameAliases: seq<string> := ["product_name", "product name", "product"]
  const PriceAliases: seq<string> := ["unit_price", "price per unit", "price"]

  /** The labels of the core columns no alias resolved, in the order the
      warning lists them. */
  function MissingCore(dateCol: Option<string>, qtyCol: Option<string>,
                       nameCol: Option<string>, priceCol: Option<string>): (r: seq<string>)
    ensures r == [] <==> dateCol.Some? && qtyCol.Some? && nameCol.Some? && priceCol.Some?
    ensures "date" in r <==> dateCol.None?
    ensures "quantity" in r <==> qtyCol.None?
    ensures "product_name" in r <==> nameCol.None?
    ensures "unit_price" in r <==> priceCol.None?
  {
    (if dateCol.None? then ["date"] else [])
    + (if qtyCol.None? then ["quantity"] else [])
    + (if nameCol.None? then ["product_name"] else [])
    + (if priceCol.None? then ["unit_price"] else [])
  }

  // ---------------------------------------------------------------------
  // Raw and normalised rows
  // ---------------------------------------------------------------------

  /** A date pandas can hold. */
  type Timestamp = d: Date | ValidDate(d) witness Date(1970, 1, 1)

  /** One raw CSV cell as pandas sees it: its text under astype(str) (a
      missing value reads "nan"), and its value under pd.to_datetime and
      pd.to_numeric with errors='coerce' (None for NaT or NaN). */
  datatype Cell = Cell(text: string, asDate: Option<Timestamp>, asNumber: Option<real>)

  /** The cell of a missing value. */
  const MissingCell := Cell("nan", None, None)

  /** A raw CSV: its header and its rows, each row keyed by column name. */
  datatype RawFrame = RawFrame(columns: seq<string>, rows: seq<map<string, Cell>>)

  function CellAt(row: map<string, Cell>, column: string): Cell {
    if column in row then row[column] else MissingCell
  }

  /** DataFrame.empty: no columns or no rows. */
  predicate IsEmptyFrame(f: RawFrame) {
    |f.columns| == 0 || |f.rows| == 0
  }

  /** A row of the normalised schema. */
  datatype NormRow = NormRow(
    transactionDate: Timestamp,
    transactionQty: real,
    productName: string,
    unitPrice: real,
    day: int,
    month: int,
    year: int,
    monthYear: string)

  /** The normalised form of one raw row. */
  function NormalizeRow(row: map<string, Cell>, dateCol: string, qtyCol: string,
                        nameCol: string, priceCol: string): Option<NormRow>
  {
    var date := CellAt(row, dateCol).asDate;
    var name := Strip(CellAt(row, nameCol).text);
    if date.None? || name == [] then None
    else
      var d := date.value;
      Some(NormRow(d, CellAt(row, qtyCol).asNumber.GetOr(0.0), name, CellAt(row, priceCol).asNumber.GetOr(0.0),
                   d.day, d.month, d.year, MonthYear(d)))
  }

  /** A raw row is dropped exactly when its date does not parse or its
      stripped product name is empty; a kept row has the parsed date, the
      stripped name, 0 for a quantity or price that is not numeric, and the
      date's day, month, year and month_year. */
  lemma NormalizeRowCoerces(row: map<string, Cell>, dateCol: string, qtyCol: string,
                            nameCol: string, priceCol: string)
    ensures var r := NormalizeRow(row, dateCol, qtyCol, nameCol, priceCol);
      && (r.None? <==> CellAt(row, dateCol).asDate.None? || Strip(CellAt(row, nameCol).text) == [])
      && (r.Some? ==>
            var n := r.value;
            && Some(n.transactionDate) == CellAt(row, dateCol).asDate
            && n.productName == Strip(CellAt(row, nameCol).text) && n.productName != []
            && (CellAt(row, qtyCol).asNumber.None? ==> n.transactionQty == 0.0)
            && (CellAt(row, qtyCol).asNumber.Some? ==> n.transactionQty == CellAt(row, qtyCol).asNumber.value)
            && (CellAt(row, priceCol).asNumber.None? ==> n.unitPrice == 0.0)
            && (CellAt(row, priceCol).asNumber.Some? ==> n.unitPrice == CellAt(row, priceCol).asNumber.value)
            && n.day == n.transactionDate.day && n.month == n.transactionDate.month
            && n.year == n.transactionDate.year && n.monthYear == MonthYear(n.transactionDate))
  {
  }

  /** The present values, in order. */
  function Somes(s: seq<Option<NormRow>>): (r: seq<NormRow>)
    ensures |r| <= |s|
    decreases |s|
  {
    if |s| == 0 then []
    else
      var n := |s| - 1;
      match s[n]
      case None => Somes(s[..n])
      case Some(x) => Somes(s[..n]) + [x]
  }

  /** Filtering a, then b, is filtering a + b. */
  lemma {:induction false} SomesAppend(a: seq<Option<NormRow>>, b: seq<Option<NormRow>>)
    ensures Somes(a + b) == Somes(a) + Somes(b)
    decreases |b|
  {
    if |b| == 0 {
      assert a + b == a;
    } else {
      var n := |b| - 1;
      SomesAppend(a, b[..n]);
      assert (a + b)[..|a + b| - 1] == a + b[..n];
    }
  }

  /** A value is kept exactly when it is present somewhere. */
  lemma {:induction false} SomesMembers(s: seq<Option<NormRow>>, x: NormRow)
    ensures x in Somes(s) <==> Some(x) in s
    decreases |s|
  {
    if |s| > 0 {
      var n := |s| - 1;
      SomesMembers(s[..n], x);
      assert s == s[..n] + [s[n]];
    }
  }

  /** Each raw row's normalised form, in row order. */
  function NormalizedRows(rows: seq<map<string, Cell>>, dateCol: string, qtyCol: string,
                          nameCol: string, priceCol: string): (r: seq<Option<NormRow>>)
    ensures |r| == |rows|
    ensures forall i :: 0 <= i < |rows| ==> r[i] == NormalizeRow(rows[i], dateCol, qtyCol, nameCol, priceCol)
  {
    seq(|rows|, i requires 0 <= i < |rows| => NormalizeRow(rows[i], dateCol, qtyCol, nameCol, priceCol))
  }

  /** The rows that survive normalisation, normalised, in their order. */
  function KeepRows(rows: seq<map<string, Cell>>, dateCol: string, qtyCol: string,
                    nameCol: string, priceCol: string): seq<NormRow>
  {
    Somes(NormalizedRows(rows, dateCol, qtyCol, nameCol, priceCol))
  }

  /** Every kept row has a non-empty product name. */
  lemma KeptRowsNamed(rows: seq<map<string, Cell>>, dateCol: string, qtyCol: string,
                      nameCol: string, priceCol: string, x: NormRow)
    requires x in KeepRows(rows, dateCol, qtyCol, nameCol, priceCol)
    ensures x.productName != []
  {
    var s := NormalizedRows(rows, dateCol, qtyCol, nameCol, priceCol);
    SomesMembers(s, x);
    var i :| 0 <= i < |s| && s[i] == Some(x);
    NormalizeRowCoerces(rows[i], dateCol, qtyCol, nameCol, priceCol);
  }

  /** _normalize_columns: an empty frame, or one where some core column has
      no alias, gives no rows; otherwise the surviving rows, normalised. */
  function NormalizeColumns(frame: RawFrame): (r: seq<NormRow>)
    ensures IsEmptyFrame(frame) ==> r == []
    ensures !IsEmptyFrame(frame) ==>
      var colMap := ColumnMap(frame.columns);
      var dateCol := FirstAlias(colMap, DateAliases);
      var qtyCol := FirstAlias(colMap, QtyAliases);
      var nameCol := FirstAlias(colMap, NameAliases);
      var priceCol := FirstAlias(colMap, PriceAliases);
      && (MissingCore(dateCol, qtyCol, nameCol, priceCol) != [] ==> r == [])
      && (MissingCore(dateCol, qtyCol, nameCol, priceCol) == [] ==>
            r == KeepRows(frame.rows, dateCol.value, qtyCol.value, nameCol.value, priceCol.value))
    ensures forall i :: 0 <= i < |r| ==> r[i].productName != []
  {
    if IsEmptyFrame(frame) then []
    else
      var colMap := ColumnMap(frame.columns);
      var dateCol := FirstAlias(colMap, DateAliases);
      var qtyCol := FirstAlias(colMap, QtyAliases);
      var nameCol := FirstAlias(colMap, NameAliases);
      var priceCol := FirstAlias(colMap, PriceAliases);
      if MissingCore(dateCol, qtyCol, nameCol, priceCol) != [] then []
      else
        var r := KeepRows(frame.rows, dateCol.value, qtyCol.value, nameCol.value, priceCol.value);
        assert forall i :: 0 <= i < |r| ==> r[i].productName != [] by {
          forall i | 0 <= i < |r|
            ensures r[i].productName != []
          {
            KeptRowsNamed(frame.rows, dateCol.value, qtyCol.value, nameCol.value, priceCol.value, r[i]);
          }
        }
        r
  }

  // ---------------------------------------------------------------------
  // month_year
  // ---------------------------------------------------------------------

  function Pow10(w: nat): (r: nat)
    ensures r >= 1
  {
    if w == 0 then 1 else 10 * Pow10(w - 1)
  }

  function Digit(n: int): char
    requires 0 <= n < 10
  {
    ('0' as int + n) as char
  }

  /** The last w decimal digits of n, zero-padded (strftime's %Y and %m). */
  function Fixed(n: nat, w: nat): (r: string)
    ensures |r| == w
    decreases w
  {
    if w == 0 then "" else Fixed(n / 10, w - 1) + [Digit(n % 10)]
  }

  /** The number a string of decimal digits denotes. */
  function DecimalValue(s: string): int
    decreases |s|
  {
    if |s| == 0 then 0 else DecimalValue(s[..|s| - 1]) * 10 + (s[|s| - 1] as int - '0' as int)
  }

  /** dt.strftime('%Y-%m'). */
  function MonthYear(d: Timestamp): string {
    Fixed(d.year, 4) + "-" + Fixed(d.month, 2)
  }

  /** Reading back the w fixed digits of a number below 10^w gives the number. */
  lemma {:induction false} DecimalValueOfFixed(n: nat, w: nat)
    requires n < Pow10(w)
    ensures DecimalValue(Fixed(n, w)) == n
    decreases w
  {
    if w > 0 {
      var s := Fixed(n, w);
      DecimalValueOfFixed(n / 10, w - 1);
      assert s[..w - 1] == Fixed(n / 10, w - 1);
    }
  }

  /** "YYYY-MM" reads back as the date's year and month. */
  lemma MonthYearReadsBack(d: Timestamp)
    ensures var s := MonthYear(d);
      |s| == 7 && s[4] == '-' && DecimalValue(s[..4]) == d.year && DecimalValue(s[5..]) == d.month
  {
    var s := MonthYear(d);
    assert Pow10(4) == 10000 && Pow10(2) == 100;
    assert s[..4] == Fixed(d.year, 4);
    assert s[5..] == Fixed(d.month, 2);
    DecimalValueOfFixed(d.year, 4);
    DecimalValueOfFixed(d.month, 2);
  }

  /** Two dates share a month_year exactly when they fall in the same month. */
  lemma MonthYearIdentifiesMonth(a: Timestamp, b: Timestamp)
    ensures MonthYear(a) == MonthYear(b) <==> MonthOf(a) == MonthOf(b)
  {
    MonthYearReadsBack(a);
    MonthYearReadsBack(b);
  }

  // ---------------------------------------------------------------------
  // Files
  // ---------------------------------------------------------------------

  /** One file the glob matched: its path and its contents, None when
      pd.read_csv fails. */
  datatype SourceFile = SourceFile(path: string, contents: Option<RawFrame>)

  /** Python's ordering of strings: lexicographic by code point. */
  predicate PathLe(a: string, b: string)
    decreases |a|
  {
    |a| == 0 || (|b| > 0 && (a[0] < b[0] || (a[0] == b[0] && PathLe(a[1..], b[1..]))))
  }

  lemma {:induction false} PathLeTotal(a: string, b: string)
    ensures PathLe(a, b) || PathLe(b, a)
    decreases |a|
  {
    if |a| > 0 && |b| > 0 && a[0] == b[0] {
      PathLeTotal(a[1..], b[1..]);
    }
  }

  predicate SortedByPath(s: seq<SourceFile>) {
    forall i :: 0 <= i < |s| - 1 ==> PathLe(s[i].path, s[i + 1].path)
  }

  /** Places f before the first file whose path is not below f's. */
  function InsertFile(f: SourceFile, s: seq<SourceFile>): (r: seq<SourceFile>)
    requires SortedByPath(s)
    ensures |r| == |s| + 1 && multiset(r) == multiset(s) + multiset{f}
    ensures SortedByPath(r)
    ensures r[0] == f || (|s| > 0 && r[0] == s[0])
    decreases |s|
  {
    if |s| == 0 then [f]
    else if PathLe(f.path, s[0].path) then [f] + s
    else
      PathLeTotal(f.path, s[0].path);
      var rest := InsertFile(f, s[1..]);
      assert s == [s[0]] + s[1..];
      [s[0]] + rest
  }

  /** sorted() over the matched paths. */
  function SortFiles(files: seq<SourceFile>): (r: seq<SourceFile>)
    ensures multiset(r) == multiset(files)
    ensures SortedByPath(r)
    decreases |files|
  {
    if |files| == 0 then []
    else
      var n := |files| - 1;
      assert files == files[..n] + [files[n]];
      InsertFile(files[n], SortFiles(files[..n]))
  }

  /** The frames the read loop keeps: each readable file's normalised rows,
      when there are any, in file order. */
  function UsableFrames(files: seq<SourceFile>): (r: seq<seq<NormRow>>)
    ensures forall i :: 0 <= i < |r| ==> |r[i]| > 0
    decreases |files|
  {
    if |files| == 0 then []
    else
      var n := |files| - 1;
      var frames := UsableFrames(files[..n]);
      var f := files[n];
      if f.contents.Some? && |NormalizeColumns(f.contents.value)| > 0 then frames + [NormalizeColumns(f.contents.value)]
      else frames
  }

  /** The read loop of build_combined_dataset. */
  method NormalizeFiles(files: seq<SourceFile>) returns (frames: seq<seq<NormRow>>)
    ensures frames == UsableFrames(files)
  {
    frames := [];
    for i := 0 to |files|
      invariant frames == UsableFrames(files[..i])
    {
      assert files[..i + 1][..i] == files[..i];
      var f := files[i];
      if f.contents.Some? {
        var norm := NormalizeColumns(f.contents.value);
        if |norm| > 0 {
          frames := frames + [norm];
        }
      }
    }
    assert files[..|files|] == files;
  }

  /** pd.concat(frames, ignore_index=True). */
  function Concat(frames: seq<seq<NormRow>>): seq<NormRow>
    decreases |frames|
  {
    if |frames| == 0 then [] else Concat(frames[..|frames| - 1]) + frames[|frames| - 1]
  }

  /** Concatenating non-empty frames gives a non-empty dataset, so there is
      never any data to abort on once some frame was kept. */
  lemma ConcatNonEmpty(frames: seq<seq<NormRow>>)
    requires |frames| > 0 && forall i :: 0 <= i < |frames| ==> |frames[i]| > 0
    ensures |Concat(frames)| > 0
  {
    assert |frames[|frames| - 1]| > 0;
  }

  // ---------------------------------------------------------------------
  // Synthetic ids
  // ---------------------------------------------------------------------

  /** The distinct names in order of first appearance. */
  function Distinct(names: seq<string>): (r: seq<string>)
    ensures forall x :: x in r <==> x in names
    ensures forall i, j :: 0 <= i < j < |r| ==> r[i] != r[j]
    decreases |names|
  {
    if |names| == 0 then []
    else
      var n := |names| - 1;
      var prev := Distinct(names[..n]);
      assert forall x :: x in names <==> x in names[..n] || x == names[n] by {
        assert names == names[..n] + [names[n]];
      }
      if names[n] in prev then prev else prev + [names[n]]
  }

  /** The position of the first x in s. */
  function IndexOf(s: seq<string>, x: string): (r: nat)
    requires x in s
    ensures r < |s| && s[r] == x && forall j :: 0 <= j < r ==> s[j] != x
  {
    if s[0] == x then 0 else 1 + IndexOf(s[1..], x)
  }

  /** The id build_combined_dataset gives a name: one more than the number
      of distinct names that appeared before it. */
  function IdOf(names: seq<string>, name: string): int
    requires name in names
  {
    IndexOf(Distinct(names), name) + 1
  }

  /** In a sequence without repeats, an element's position is its index. */
  lemma IndexOfDistinct(s: seq<string>, k: nat)
    requires k < |s| && forall i, j :: 0 <= i < j < |s| ==> s[i] != s[j]
    ensures IndexOf(s, s[k]) == k
  {
  }

  /** The distinct names of a prefix start the distinct names of the whole. */
  lemma {:induction false} DistinctPrefix(names: seq<string>, i: nat)
    requires i <= |names|
    ensures Distinct(names[..i]) <= Distinct(names)
    decreases |names|
  {
    if i < |names| {
      var n := |names| - 1;
      DistinctPrefix(names[..n], i);
      assert names[..n][..i] == names[..i];
    } else {
      assert names[..i] == names;
    }
  }

  /** One more name extends the distinct names exactly when it is new. */
  lemma DistinctStep(names: seq<string>, i: nat)
    requires i < |names|
    ensures var prev := Distinct(names[..i]);
      Distinct(names[..i + 1]) == if names[i] in prev then prev else prev + [names[i]]
  {
    assert names[..i + 1][..i] == names[..i];
  }

  /** Appending a new element keeps the positions of the others. */
  lemma IndexOfAppend(s: seq<string>, x: string, y: string)
    requires x in s && y !in s
    ensures IndexOf(s + [y], x) == IndexOf(s, x)
  {
    var k := IndexOf(s, x);
    assert (s + [y])[k] == x;
    assert forall j :: 0 <= j < |s| ==> (s + [y])[j] == s[j];
  }

  lemma IndexOfNew(s: seq<string>, y: string)
    requires y !in s
    ensures IndexOf(s + [y], y) == |s|
  {
    assert (s + [y])[|s|] == y;
    assert forall j :: 0 <= j < |s| ==> (s + [y])[j] == s[j];
  }

  /** Every name in the dictionary maps to one more than its position in `seen`. */
  ghost predicate Numbered(productIds: map<string, int>, seen: seq<string>) {
    && (forall name :: name in productIds <==> name in seen)
    && (forall name :: name in productIds ==> productIds[name] == IndexOf(seen, name) + 1)
  }

  /** The dictionary the loop leaves maps every name, and nothing else, to its id. */
  lemma NumberedIds(productIds: map<string, int>, names: seq<string>)
    requires Numbered(productIds, Distinct(names))
    ensures forall name :: name in productIds <==> name in names
    ensures forall name :: name in productIds ==> productIds[name] == IdOf(names, name)
  {
  }

  /** One pass of the ID-assignment loop: a new name gets nextId, which then
      moves on; a known name keeps its id. */
  method AssignOne(productIds: map<string, int>, nextId: int, name: string)
    returns (newIds: map<string, int>, newNext: int, id: int)
    ensures name in productIds ==> newIds == productIds && newNext == nextId && id == productIds[name]
    ensures name !in productIds ==> newIds == productIds[name := nextId] && newNext == nextId + 1 && id == nextId
  {
    newIds, newNext := productIds, nextId;
    if name !in newIds {
      newIds := newIds[name := newNext];
      newNext := newNext + 1;
    }
    id := newIds[name];
  }

  /** Numbering a new name after the others keeps the numbering. */
  lemma NumberedStep(productIds: map<string, int>, seen: seq<string>, name: string)
    requires Numbered(productIds, seen) && name !in seen
    ensures Numbered(productIds[name := |seen| + 1], seen + [name])
  {
    forall x | x in seen
      ensures IndexOf(seen + [name], x) == IndexOf(seen, x)
    {
      IndexOfAppend(seen, x, name);
    }
    IndexOfNew(seen, name);
  }

  /** The ids listed so far keep naming their names' ids when the
      dictionary only grows. */
  lemma IdsStep(ids: seq<int>, names: seq<string>, i: nat, before: map<string, int>, after: map<string, int>)
    requires i < |names| && |ids| == i
    requires forall j :: 0 <= j < i ==> names[j] in before && ids[j] == before[names[j]]
    requires forall x :: x in before ==> x in after && after[x] == before[x]
    requires names[i] in after
    ensures forall j :: 0 <= j < i + 1 ==> names[j] in after && (ids + [after[names[i]]])[j] == after[names[j]]
  {
  }

  /** The ID-assignment loop: a name seen for the first time gets the next
      id, a name seen before gets its id again. */
  method AssignProductIds(names: seq<string>) returns (productIds: map<string, int>, nextId: int, ids: seq<int>)
    ensures Numbered(productIds, Distinct(names))
    ensures nextId == |Distinct(names)| + 1
    ensures |ids| == |names| && forall i :: 0 <= i < |names| ==> ids[i] == productIds[names[i]]
  {
    productIds, nextId, ids := map[], 1, [];
    ghost var seen: seq<string> := [];
    for i := 0 to |names|
      invariant seen == Distinct(names[..i])
      invariant Numbered(productIds, seen)
      invariant nextId == |seen| + 1
      invariant |ids| == i
      invariant forall j :: 0 <= j < i ==> names[j] in productIds && ids[j] == productIds[names[j]]
    {
      var name := names[i];
      DistinctStep(names, i);
      ghost var before := productIds;
      var id;
      productIds, nextId, id := AssignOne(productIds, nextId, name);
      if name !in before {
        NumberedStep(before, seen, name);
        seen := seen + [name];
      }
      IdsStep(ids, names, i, before, productIds);
      ids := ids + [id];
    }
    assert names[..|names|] == names;
  }

  /** Equal names get equal ids and distinct names distinct ids. */
  lemma IdsMatchNames(names: seq<string>, a: string, b: string)
    requires a in names && b in names
    ensures IdOf(names, a) == IdOf(names, b) <==> a == b
  {
  }

  /** The ids are exactly 1..k, k the number of distinct names. */
  lemma IdsAreDense(names: seq<string>, id: int)
    ensures (exists i :: 0 <= i < |names| && IdOf(names, names[i]) == id) <==> 1 <= id <= |Distinct(names)|
  {
    var d := Distinct(names);
    if 1 <= id <= |d| {
      var x := d[id - 1];
      IndexOfDistinct(d, id - 1);
      var i :| 0 <= i < |names| && names[i] == x;
      assert IdOf(names, names[i]) == id;
    }
  }

  /** Ids follow first appearance: a name appearing for the first time at
      position i gets the next id after those of the names before it. */
  lemma IdsInFirstAppearanceOrder(names: seq<string>, i: nat)
    requires i < |names| && names[i] !in names[..i]
    ensures IdOf(names, names[i]) == |Distinct(names[..i])| + 1
    ensures forall j :: 0 <= j < i ==> IdOf(names, names[j]) < IdOf(names, names[i])
  {
    var d := Distinct(names);
    var prev := Distinct(names[..i]);
    assert names[..i + 1] == names[..i] + [names[i]];
    assert names[..i + 1][..i] == names[..i];
    assert Distinct(names[..i + 1]) == prev + [names[i]];
    DistinctPrefix(names, i + 1);
    assert d[|prev|] == names[i];
    IndexOfDistinct(d, |prev|);
    forall j | 0 <= j < i
      ensures IdOf(names, names[j]) < IdOf(names, names[i])
    {
      assert names[j] == names[..i][j];
      var k := IndexOf(prev, names[j]);
      DistinctPrefix(names, i);
      assert d[k] == names[j];
      IndexOfDistinct(d, k);
    }
  }

  // ---------------------------------------------------------------------
  // The combined dataset
  // ---------------------------------------------------------------------

  /** The column order of motorparts_clean.csv, which CleanRow's fields follow. */
  const OrderedColumns: seq<string> := ["transaction_id", "transaction_date", "transaction_qty", "product_id",
                                        "day", "month", "year", "month_year", "product_name", "unit_price"]

  /** A row of motorparts_clean.csv. */
  datatype CleanRow = CleanRow(
    transactionId: int,
    transactionDate: Timestamp,
    transactionQty: real,
    productId: int,
    day: int,
    month: int,
    year: int,
    monthYear: string,
    productName: string,
    unitPrice: real)

  /** The product names of the combined rows, in row order. */
  function Names(rows: seq<NormRow>): (r: seq<string>)
    ensures |r| == |rows| && forall i :: 0 <= i < |rows| ==> r[i] == rows[i].productName
  {
    seq(|rows|, i requires 0 <= i < |rows| => rows[i].productName)
  }

  /** A clean row carries the normalised row's values. */
  predicate Carries(c: CleanRow, n: NormRow) {
    && c.transactionDate == n.transactionDate && c.transactionQty == n.transactionQty
    && c.day == n.day && c.month == n.month && c.year == n.year && c.monthYear == n.monthYear
    && c.productName == n.productName && c.unitPrice == n.unitPrice
  }

  /** The product_id and transaction_id columns added to the combined rows,
      in the output column order. */
  function WithIds(combined: seq<NormRow>, ids: seq<int>): (r: seq<CleanRow>)
    requires |ids| == |combined|
    ensures |r| == |combined|
    ensures forall i :: 0 <= i < |combined| ==>
      Carries(r[i], combined[i]) && r[i].transactionId == i + 1 && r[i].productId == ids[i]
  {
    seq(|combined|, i requires 0 <= i < |combined| =>
      var n := combined[i];
      CleanRow(i + 1, n.transactionDate, n.transactionQty, ids[i], n.day, n.month, n.year,
               n.monthYear, n.productName, n.unitPrice))
  }

  /** build_combined_dataset: the files normalised in path order and
      concatenated, each row with its product id and its transaction id
      (its position, from 1); None when no file yields a row. */
  method BuildCombinedDataset(files: seq<SourceFile>) returns (r: Option<seq<CleanRow>>)
    ensures var combined := Concat(UsableFrames(SortFiles(files)));
      && (r.None? <==> |combined| == 0)
      && (r.Some? ==>
            && |r.value| == |combined|
            && forall i :: 0 <= i < |combined| ==>
                 && Carries(r.value[i], combined[i])
                 && r.value[i].transactionId == i + 1
                 && r.value[i].productId == IdOf(Names(combined), combined[i].productName))
  {
    var csvFiles := SortFiles(files);
    if |csvFiles| == 0 {
      return None;
    }
    var frames := NormalizeFiles(csvFiles);
    if |frames| == 0 {
      return None;
    }
    var combined := Concat(frames);
    ConcatNonEmpty(frames);
    var clean := NumberRows(combined);
    return Some(clean);
  }

  /** The id columns of the combined rows: product ids in order of first
      appearance, transaction ids by position from 1. */
  method NumberRows(combined: seq<NormRow>) returns (clean: seq<CleanRow>)
    ensures |clean| == |combined|
    ensures forall i :: 0 <= i < |combined| ==>
      && Carries(clean[i], combined[i])
      && clean[i].transactionId == i + 1
      && clean[i].productId == IdOf(Names(combined), combined[i].productName)
  {
    var names := Names(combined);
    var productIds, nextId, ids := AssignProductIds(names);
    NumberedIds(productIds, names);
    clean := WithIds(combined, ids);
  }
}
