/** main.go: column-type inference over CSV cells (InferColumnType), its
    streaming driver over the lines of a file (InferColumnTypesStreaming),
    the memoising TypeCache and the benchmark row generator generateRows. */
module Scanner {
  import opened Text
  import opened GoStrings

  /** The parse predicates of Go's numeric and date grammars, left abstract:
      isInt(v) says strconv.Atoi(v) succeeds, isFloat(v) that
      strconv.ParseFloat(v, 64) does, and parses(layout, v) that
      time.Parse(layout, v) does. */
  datatype Grammar = Grammar(isInt: string -> bool, isFloat: string -> bool, parses: (string, string) -> bool)

  /** dateFormats; the last layout is time.RFC3339. */
  const DateFormats: seq<string> :=
    ["2006-01-02", "01/02/2006", "02-01-2006", "Jan 2 2006", "2006-01-02T15:04:05Z07:00"]

  /** The four answers of InferColumnType, by priority. */
  datatype ColumnType = IntType | FloatType | DateType | StringType {
    /** The label main.go returns. */
    function Name(): (name: string)
      ensures name in {"int", "float", "date", "string"}
    {
      match this
      case IntType => "int"
      case FloatType => "float"
      case DateType => "date"
      case StringType => "string"
    }
  }

  /** Distinct answers have distinct labels. */
  lemma NamesDistinct(a: ColumnType, b: ColumnType)
    requires a.Name() == b.Name()
    ensures a == b
  {
    assert a.Name()[0] == b.Name()[0];
  }

  /** The value parses under one of the date layouts. */
  predicate IsDate(g: Grammar, v: string) {
    exists k :: 0 <= k < |DateFormats| && g.parses(DateFormats[k], v)
  }

  /** Every Atoi-valid string is ParseFloat-valid, as in Go. */
  ghost predicate IntsAreFloats(g: Grammar) {
    forall v :: g.isInt(v) ==> g.isFloat(v)
  }

  function Min(a: int, b: int): int {
    if a < b then a else b
  }

  // ---------------------------------------------------------------- one column

  /** The cells of a column as InferColumnType reads them: each value trimmed. */
  function Trimmed(values: seq<string>): (cells: seq<string>)
    ensures |cells| == |values|
    ensures forall i :: 0 <= i < |values| ==> cells[i] == TrimSpace(values[i])
  {
    seq(|values|, i requires 0 <= i < |values| => TrimSpace(values[i]))
  }

  /** Some trimmed cell is empty. */
  predicate HasBlank(cells: seq<string>) {
    exists i :: 0 <= i < |cells| && cells[i] == []
  }

  /** What the allInt flag ends as: an int-parse failure clears it, and so
      does a float-parse failure. */
  predicate AllInt(g: Grammar, cells: seq<string>) {
    forall i :: 0 <= i < |cells| ==> g.isInt(cells[i]) && g.isFloat(cells[i])
  }

  predicate AllFloat(g: Grammar, cells: seq<string>) {
    forall i :: 0 <= i < |cells| ==> g.isFloat(cells[i])
  }

  predicate AllDate(g: Grammar, cells: seq<string>) {
    forall i :: 0 <= i < |cells| ==> IsDate(g, cells[i])
  }

  /** The type of a column of trimmed cells: "string" when a cell is blank,
      otherwise the first of int, float, date that every cell satisfies, and
      "string" when none does. */
  function ClassifyCells(g: Grammar, cells: seq<string>): (t: ColumnType)
    ensures t != StringType ==> !HasBlank(cells)
    ensures t == IntType ==> AllInt(g, cells)
    ensures t == FloatType ==> AllFloat(g, cells) && !AllInt(g, cells)
    ensures t == DateType ==> AllDate(g, cells) && !AllFloat(g, cells)
    ensures !HasBlank(cells) && AllDate(g, cells) ==> t != StringType
  {
    if HasBlank(cells) then StringType
    else if AllInt(g, cells) then IntType
    else if AllFloat(g, cells) then FloatType
    else if AllDate(g, cells) then DateType
    else StringType
  }

  /** The type of a column of raw values. */
  function Classify(g: Grammar, values: seq<string>): ColumnType {
    ClassifyCells(g, Trimmed(values))
  }

  /** A cell that is empty once trimmed makes the column "string", whatever
      the other cells hold. */
  lemma BlankCellMakesString(g: Grammar, values: seq<string>, k: nat)
    requires k < |values| && TrimSpace(values[k]) == []
    ensures Classify(g, values) == StringType
  {
    assert Trimmed(values)[k] == [];
  }

  /** The inner `for _, f := range dateFormats` loop: does some layout accept v? */
  method ParsesAsDate(g: Grammar, v: string) returns (parsed: bool)
    ensures parsed == IsDate(g, v)
  {
    parsed := false;
    var k := 0;
    while k < |DateFormats|
      invariant 0 <= k <= |DateFormats|
      invariant forall m :: 0 <= m < k ==> !g.parses(DateFormats[m], v)
    {
      if g.parses(DateFormats[k], v) {
        parsed := true;
        break;
      }
      k := k + 1;
    }
  }

  /** InferColumnType: one pass clearing the allInt/allFloat/allDate flags,
      leaving early on a blank cell or once every flag is cleared. */
  method InferColumnType(g: Grammar, values: seq<string>) returns (t: string)
    ensures t == Classify(g, values).Name()
  {
    ghost var cells := Trimmed(values);
    var allInt, allFloat, allDate := true, true, true;
    var i := 0;
    while i < |values|
      invariant 0 <= i <= |values|
      invariant !HasBlank(cells[..i])
      invariant allInt == AllInt(g, cells[..i])
      invariant allFloat == AllFloat(g, cells[..i])
      invariant allDate == AllDate(g, cells[..i])
    {
      var v := TrimSpace(values[i]);
      if v == "" {
        BlankCellMakesString(g, values, i);
        return "string";
      }
      if !allInt && !allFloat && !allDate {
        StringIsFinal(g, cells, i);
        return "string";
      }
      if allInt {
        if !g.isInt(v) {
          allInt := false;
        }
      }
      if allFloat {
        if !g.isFloat(v) {
          allFloat := false;
          allInt := false;
        }
      }
      if allDate {
        var parsed := ParsesAsDate(g, v);
        if !parsed {
          allDate := false;
        }
      }
      ExtendColumn(g, cells, i);
      i := i + 1;
    }
    assert cells[..i] == cells;
    assert Classify(g, values) == ClassifyCells(g, cells);
    if allInt {
      t := "int";
    } else if allFloat {
      t := "float";
    } else if allDate {
      t := "date";
    } else {
      t := "string";
    }
  }

  /** How each whole-column predicate extends by one more cell. */
  lemma ExtendColumn(g: Grammar, cells: seq<string>, n: nat)
    requires n < |cells|
    ensures HasBlank(cells[..n + 1]) <==> HasBlank(cells[..n]) || cells[n] == []
    ensures AllInt(g, cells[..n + 1]) <==> AllInt(g, cells[..n]) && g.isInt(cells[n]) && g.isFloat(cells[n])
    ensures AllFloat(g, cells[..n + 1]) <==> AllFloat(g, cells[..n]) && g.isFloat(cells[n])
    ensures AllDate(g, cells[..n + 1]) <==> AllDate(g, cells[..n]) && IsDate(g, cells[n])
  {
    var prefix, longer := cells[..n], cells[..n + 1];
    assert longer[n] == cells[n];
    assert forall i :: 0 <= i < n ==> longer[i] == prefix[i];
  }

  /** The flags only move from true to false, so a column that is "string" on
      a prefix is "string" whatever follows: the early exit changes nothing. */
  lemma StringIsFinal(g: Grammar, cells: seq<string>, n: nat)
    requires n <= |cells|
    requires ClassifyCells(g, cells[..n]) == StringType
    ensures ClassifyCells(g, cells) == StringType
  {
    var prefix := cells[..n];
    if HasBlank(prefix) {
      var i :| 0 <= i < |prefix| && prefix[i] == [];
      assert cells[i] == prefix[i];
    } else {
      var a :| 0 <= a < |prefix| && !(g.isInt(prefix[a]) && g.isFloat(prefix[a]));
      var f :| 0 <= f < |prefix| && !g.isFloat(prefix[f]);
      var d :| 0 <= d < |prefix| && !IsDate(g, prefix[d]);
      assert cells[a] == prefix[a] && cells[f] == prefix[f] && cells[d] == prefix[d];
    }
  }

  /** The answer depends only on which cells the column holds, not on their order. */
  lemma OrderIrrelevant(g: Grammar, values: seq<string>, reordered: seq<string>)
    requires multiset(values) == multiset(reordered)
    ensures Classify(g, values) == Classify(g, reordered)
  {
    SameCells(values, reordered);
    SameCells(reordered, values);
  }

  lemma SameCells(a: seq<string>, b: seq<string>)
    requires multiset(a) == multiset(b)
    ensures forall i :: 0 <= i < |a| ==> a[i] in b
  {
    forall i | 0 <= i < |a|
      ensures a[i] in b
    {
      assert a[i] in multiset(a);
    }
  }

  /** With Go's grammars (every int is a float) a column is "int" exactly when
      every cell, trimmed, is non-empty and parses as an int. */
  lemma IntExactlyWhenAllInts(g: Grammar, values: seq<string>)
    requires IntsAreFloats(g)
    ensures Classify(g, values) == IntType <==>
      forall i :: 0 <= i < |values| ==> TrimSpace(values[i]) != [] && g.isInt(TrimSpace(values[i]))
  {
  }

  /** Cells that are all non-blank floats but not all ints make a "float"
      column: the int failure does not clear allFloat. */
  lemma MixedIntsAndFloatsAreFloat(g: Grammar, values: seq<string>, k: nat)
    requires forall i :: 0 <= i < |values| ==> TrimSpace(values[i]) != [] && g.isFloat(TrimSpace(values[i]))
    requires k < |values| && !g.isInt(TrimSpace(values[k]))
    ensures Classify(g, values) == FloatType
  {
    assert Trimmed(values)[k] == TrimSpace(values[k]);
  }

  /** Date columns: every cell is non-blank and parses under a layout, and some
      cell is not a float. */
  lemma DatesAreDate(g: Grammar, values: seq<string>, k: nat)
    requires forall i :: 0 <= i < |values| ==> TrimSpace(values[i]) != [] && IsDate(g, TrimSpace(values[i]))
    requires k < |values| && !g.isFloat(TrimSpace(values[k]))
    ensures Classify(g, values) == DateType
  {
    assert Trimmed(values)[k] == TrimSpace(values[k]);
  }

  /** An empty column is "int": all three flags start true. */
  lemma EmptyColumnIsInt(g: Grammar)
    ensures Classify(g, []) == IntType
  {
  }

  /** "Mixed Int/Float": ["1", "2.5"] is "float". */
  lemma MixedIntFloatCase(g: Grammar)
    requires g.isInt("1") && g.isFloat("1")
    requires !g.isInt("2.5") && g.isFloat("2.5")
    ensures Classify(g, ["1", "2.5"]) == FloatType
  {
    var values := ["1", "2.5"];
    assert TrimSpace(values[0]) == "1" && TrimSpace(values[1]) == "2.5";
  }

  /** "Early String Detection": a leading text cell that is neither a float
      nor a date makes ["text", "more text", "100", "200"] a "string" column. */
  lemma EarlyStringCase(g: Grammar)
    requires !g.isFloat("text") && !IsDate(g, "text")
    ensures Classify(g, ["text", "more text", "100", "200"]) == StringType
  {
    var values := ["text", "more text", "100", "200"];
    assert TrimSpace(values[0]) == "text";
  }

  /** "Date ISO": two ISO dates that are not floats make a "date" column. */
  lemma IsoDateCase(g: Grammar)
    requires !g.isFloat("2024-01-01")
    requires g.parses("2006-01-02", "2024-01-01") && g.parses("2006-01-02", "2023-02-05")
    ensures Classify(g, ["2024-01-01", "2023-02-05"]) == DateType
  {
    var values := ["2024-01-01", "2023-02-05"];
    DigitEdgesUntrimmed(values[0]);
    DigitEdgesUntrimmed(values[1]);
    assert Trimmed(values) == values;
    assert DateFormats[0] == "2006-01-02";
    assert IsDate(g, values[0]) && IsDate(g, values[1]);
  }

  // ---------------------------------------------------------------- streaming

  /** Trimming distributes over concatenation. */
  lemma TrimmedConcat(a: seq<string>, b: seq<string>)
    ensures Trimmed(a + b) == Trimmed(a) + Trimmed(b)
  {
    var ab := a + b;
    assert forall i :: 0 <= i < |a| ==> ab[i] == a[i];
    assert forall i :: 0 <= i < |b| ==> ab[|a| + i] == b[i];
  }

  /** The rows split on ",", as `strings.Split(lines[i], ",")` gives them. */
  function Fields(rows: seq<string>): (table: seq<seq<string>>)
    ensures |table| == |rows|
    ensures forall r :: 0 <= r < |rows| ==> table[r] == Split(rows[r])
  {
    seq(|rows|, r requires 0 <= r < |rows| => Split(rows[r]))
  }

  lemma FieldsSnoc(rows: seq<string>, row: string)
    ensures Fields(rows + [row]) == Fields(rows) + [Split(row)]
  {
    var all := rows + [row];
    assert forall r :: 0 <= r < |rows| ==> all[r] == rows[r];
    assert all[|rows|] == row;
  }

  /** What one row contributes to column j: its j-th field, if it has one. */
  function FieldAt(fields: seq<string>, j: nat): seq<string> {
    if j < |fields| then [fields[j]] else []
  }

  /** The j-th fields, untrimmed, of the rows of a table that have one. */
  function Column(table: seq<seq<string>>, j: nat): (column: seq<string>)
    ensures |column| <= |table|
  {
    if table == [] then []
    else Column(table[..|table| - 1], j) + FieldAt(table[|table| - 1], j)
  }

  /** One more row adds its j-th field, if it has one, to column j. */
  lemma ColumnSnoc(table: seq<seq<string>>, fields: seq<string>, j: nat)
    ensures Column(table + [fields], j) == Column(table, j) + FieldAt(fields, j)
  {
    assert (table + [fields])[..|table|] == table;
  }

  /** Rows long enough give column j one sample each, in row order. */
  lemma {:induction false} ColumnOfLongRows(table: seq<seq<string>>, j: nat)
    requires forall r :: 0 <= r < |table| ==> j < |table[r]|
    ensures |Column(table, j)| == |table|
    ensures forall r :: 0 <= r < |table| ==> Column(table, j)[r] == table[r][j]
  {
    if table != [] {
      ColumnOfLongRows(table[..|table| - 1], j);
    }
  }

  /** Rows too short for column j feed it nothing. */
  lemma {:induction false} ColumnOfShortRows(table: seq<seq<string>>, j: nat)
    requires forall r :: 0 <= r < |table| ==> |table[r]| <= j
    ensures Column(table, j) == []
  {
    if table != [] {
      ColumnOfShortRows(table[..|table| - 1], j);
    }
  }

  /** The samples of the first n columns of a table: each column's fields, trimmed. */
  function Samples(table: seq<seq<string>>, n: nat): (samples: seq<seq<string>>)
    ensures |samples| == n
  {
    seq(n, k requires 0 <= k => Trimmed(Column(table, k)))
  }

  /** What one row appends to the sample of column k: its trimmed k-th field,
      if it has one. */
  function FieldSample(fields: seq<string>, k: nat): seq<string> {
    if k < |fields| then [TrimSpace(fields[k])] else []
  }

  /** The samples with one more row's fields appended. */
  function Appended(samples: seq<seq<string>>, fields: seq<string>): (next: seq<seq<string>>)
    ensures |next| == |samples|
  {
    seq(|samples|, k requires 0 <= k < |samples| => samples[k] + FieldSample(fields, k))
  }

  /** Appending one row's fields to the samples of a table gives the samples
      of the table with that row. */
  lemma SamplesSnoc(table: seq<seq<string>>, fields: seq<string>, n: nat)
    ensures Samples(table + [fields], n) == Appended(Samples(table, n), fields)
  {
    forall k | 0 <= k < n
      ensures Samples(table + [fields], n)[k] == Appended(Samples(table, n), fields)[k]
    {
      ColumnSnoc(table, fields, k);
      TrimmedConcat(Column(table, k), FieldAt(fields, k));
    }
  }

  /** No rows give every column an empty sample. */
  lemma NoSamples(n: nat)
    ensures Samples(Fields([]), n) == seq(n, k => [])
  {
  }

  /** The header heuristic: start at row 0 exactly when the trimmed first cell
      of the first line parses as a float, otherwise skip it. */
  function StartIndex(g: Grammar, lines: seq<string>): (start: nat)
    requires lines != []
    ensures start <= 1
    ensures start == 0 <==> g.isFloat(TrimSpace(Split(lines[0])[0]))
  {
    if g.isFloat(TrimSpace(Split(lines[0])[0])) then 0 else 1
  }

  /** The rows sampled: at most sampleSize consecutive lines from the start index. */
  function Window(g: Grammar, lines: seq<string>, sampleSize: nat): (rows: seq<string>)
    requires lines != []
    ensures |rows| <= sampleSize
    ensures StartIndex(g, lines) + |rows| <= |lines|
    ensures rows == lines[StartIndex(g, lines)..StartIndex(g, lines) + |rows|]
    ensures |rows| == Min(|lines| - StartIndex(g, lines), sampleSize)
  {
    var start := StartIndex(g, lines);
    lines[start..Min(|lines|, start + sampleSize)]
  }

  /** The column types of a file: none for no lines, otherwise one per field of
      the first line, each the type of that column's samples. */
  function ColumnTypes(g: Grammar, lines: seq<string>, sampleSize: nat): (types: seq<string>)
    ensures lines == [] ==> types == []
    ensures lines != [] ==> |types| == |Split(lines[0])|
  {
    if lines == [] then []
    else
      TypeNames(g, Samples(Fields(Window(g, lines, sampleSize)), |Split(lines[0])|))
  }

  /** The type name of each column's samples. */
  function TypeNames(g: Grammar, samples: seq<seq<string>>): (names: seq<string>)
    ensures |names| == |samples|
  {
    seq(|samples|, j requires 0 <= j < |samples| => Classify(g, samples[j]).Name())
  }

  /** Each column is sampled at most sampleSize times, once per window row long
      enough to have it. */
  lemma SamplesBounded(g: Grammar, lines: seq<string>, sampleSize: nat, j: nat)
    requires lines != []
    ensures |Column(Fields(Window(g, lines, sampleSize)), j)| <= sampleSize
  {
  }

  /** InferColumnTypesStreaming: split the first line to count the columns,
      collect the samples of the window rows, then classify each column. */
  method InferColumnTypesStreaming(g: Grammar, lines: seq<string>, sampleSize: nat) returns (types: seq<string>)
    ensures types == ColumnTypes(g, lines, sampleSize)
  {
    if |lines| == 0 {
      return [];
    }
    var firstLine := Split(lines[0]);
    var numCols := |firstLine|;

    var startIdx := 1;
    var firstCell := TrimSpace(firstLine[0]);
    if !g.isFloat(firstCell) {
      startIdx := 1;
    } else {
      startIdx := 0;
    }

    var samples := CollectSamples(lines, numCols, startIdx, sampleSize);
    assert lines[startIdx..Min(|lines|, startIdx + sampleSize)] == Window(g, lines, sampleSize);
    types := InferEach(g, samples);
  }

  /** The sampling loops of InferColumnTypesStreaming: for each line of the
      window, append the trimmed fields of its first numCols columns to those
      columns' samples. */
  method CollectSamples(lines: seq<string>, numCols: nat, startIdx: nat, sampleSize: nat)
    returns (samples: seq<seq<string>>)
    requires startIdx <= |lines|
    ensures samples == Samples(Fields(lines[startIdx..Min(|lines|, startIdx + sampleSize)]), numCols)
  {
    var columns := new seq<string>[numCols](_ => []);
    NoSamples(numCols);
    ghost var rows: seq<string> := [];
    var i := startIdx;
    while i < |lines| && i < startIdx + sampleSize
      invariant startIdx <= i <= |lines| && i <= startIdx + sampleSize
      invariant rows == lines[startIdx..i]
      invariant columns[..] == Samples(Fields(rows), numCols)
    {
      AppendRow(columns, Split(lines[i]));
      RowSampled(rows, lines[i], numCols);
      rows := rows + [lines[i]];
      i := i + 1;
    }
    assert i == Min(|lines|, startIdx + sampleSize);
    assert rows == lines[startIdx..Min(|lines|, startIdx + sampleSize)];
    samples := columns[..];
  }

  /** Sampling one more row. */
  lemma RowSampled(rows: seq<string>, row: string, n: nat)
    ensures Samples(Fields(rows + [row]), n) == Appended(Samples(Fields(rows), n), Split(row))
  {
    FieldsSnoc(rows, row);
    SamplesSnoc(Fields(rows), Split(row), n);
  }

  /** The inner sampling loop: append field j, trimmed, to column j, for the
      columns the row has. */
  method AppendRow(columns: array<seq<string>>, fields: seq<string>)
    modifies columns
    ensures columns[..] == Appended(old(columns[..]), fields)
  {
    var j := 0;
    while j < columns.Length && j < |fields|
      invariant 0 <= j <= columns.Length && j <= |fields|
      invariant forall k :: 0 <= k < j ==> columns[k] == old(columns[k]) + [TrimSpace(fields[k])]
      invariant forall k :: j <= k < columns.Length ==> columns[k] == old(columns[k])
    {
      columns[j] := columns[j] + [TrimSpace(fields[j])];
      j := j + 1;
    }
    assert forall k :: 0 <= k < columns.Length ==> columns[..][k] == Appended(old(columns[..]), fields)[k];
  }

  /** The last loop of InferColumnTypesStreaming: the type of each column's samples. */
  method InferEach(g: Grammar, samples: seq<seq<string>>) returns (types: seq<string>)
    ensures types == TypeNames(g, samples)
  {
    var inferred := new string[|samples|];
    for c := 0 to |samples|
      invariant inferred[..c] == TypeNames(g, samples)[..c]
    {
      inferred[c] := InferColumnType(g, samples[c]);
    }
    types := inferred[..];
  }

  // ---------------------------------------------------------------- cache

  /** TypeCache: memoised column types by key. */
  class TypeCache {
    var cache: map<string, string>
    /** How many times GetOrInfer has run an inference function. */
    ghost var inferCalls: nat

    /** NewTypeCache. */
    constructor()
      ensures cache == map[] && inferCalls == 0
    {
      cache := map[];
      inferCalls := 0;
    }

    /** GetOrInfer: a hit returns the stored type without inferring; a miss
        infers once, stores the type under key and returns it; other keys keep
        their types. */
    method GetOrInfer(key: string, infer: () -> string) returns (typ: string)
      modifies this
      ensures key in old(cache) ==>
        typ == old(cache)[key] && cache == old(cache) && inferCalls == old(inferCalls)
      ensures key !in old(cache) ==>
        typ == infer() && cache == old(cache)[key := typ] && inferCalls == old(inferCalls) + 1
    {
      if key in cache {
        return cache[key];
      }
      typ := infer();
      inferCalls := inferCalls + 1;
      cache := cache[key := typ];
    }

    /** Clear: forget every stored type. */
    method Clear()
      modifies this
      ensures cache == map[] && inferCalls == old(inferCalls)
    {
      cache := map[];
    }
  }

  // ---------------------------------------------------------------- benchmark rows

  /** generateRows: the decimal spellings of 0 .. n-1. */
  method GenerateRows(n: nat) returns (rows: seq<string>)
    ensures |rows| == n
    ensures forall i :: 0 <= i < n ==> rows[i] == DecimalString(i)
  {
    var out := new string[n];
    for i := 0 to n
      invariant out[..i] == seq(i, (k: nat) => DecimalString(k))
    {
      out[i] := DecimalString(i);
      assert out[..i + 1] == out[..i] + [out[i]];
    }
    assert out[..] == out[..n];
    rows := out[..];
  }

  /** The benchmark column is an "int" column when Atoi and ParseFloat accept
      its spellings. */
  lemma GeneratedRowsAreInts(g: Grammar, rows: seq<string>)
    requires forall i :: 0 <= i < |rows| ==> rows[i] == DecimalString(i)
    requires forall i :: 0 <= i < |rows| ==> g.isInt(DecimalString(i)) && g.isFloat(DecimalString(i))
    ensures Classify(g, rows) == IntType
  {
    forall i | 0 <= i < |rows|
      ensures TrimSpace(rows[i]) == rows[i]
    {
      DigitsUntrimmed(DecimalString(i));
    }
    assert Trimmed(rows) == rows;
    assert !HasBlank(rows) && AllInt(g, rows);
  }

  /** A non-empty run of digits has no white space to trim. */
  lemma DigitsUntrimmed(s: string)
    requires s != [] && AllDigits(s)
    ensures TrimSpace(s) == s
  {
    DigitEdgesUntrimmed(s);
  }

  /** A string that starts and ends with a digit has no white space to trim. */
  lemma DigitEdgesUntrimmed(s: string)
    requires s != [] && IsDigit(s[0]) && IsDigit(s[|s| - 1])
    ensures TrimSpace(s) == s
  {
  }
}
