/** The value-level helpers of the library's `utils` module: `to_list`, the as-of read
    query, the import modes and their flags, and the two transpositions between a
    table held as columns and a table held as rows. */
module Convert {
  import opened Base
  import opened Text
  import opened DoltTypes

  // ---------------------------------------------------------------------------
  // to_list

  /** `to_list` on a table-name parameter: `None` stays `None`, a list stays as it is,
      anything else is wrapped in a one-element list. */
  function ToList(n: Names): Option<seq<string>> {
    match n
    case NoNames => None
    case One(s) => Some([s])
    case Many(xs) => Some(xs)
  }

  /** A list (or `None`) handed back as a parameter of the same kind. */
  function AsNames(o: Option<seq<string>>): Names {
    if o.None? then NoNames else Many(o.value)
  }

  /** `to_list` is idempotent, `None` is the only value it maps to `None`, and a single
      name, even the empty one, gives a non-empty (so truthy) list. */
  lemma ToListIdempotent(n: Names)
    ensures ToList(AsNames(ToList(n))) == ToList(n)
    ensures ToList(n).None? <==> n.NoNames?
    ensures n.One? ==> ToList(n).value != [] && ToList(n).value[0] == n.name
    ensures NamesGiven(n) ==> ToList(n).Some? && ToList(n).value != []
  {
  }

  // ---------------------------------------------------------------------------
  // get_read_table_asof_query

  /** The query reading all of table `table`, at revision `asOf` when one is given
      (a non-empty string). */
  function ReadTableAsOfQuery(table: string, asOf: Option<string>): (q: string)
    ensures StartsWith(q, TableSelect(table))
    ensures Given(asOf) ==>
      EndsWith(q, AsOfClause(asOf.value)) && |q| == |TableSelect(table)| + |AsOfClause(asOf.value)|
    ensures !Given(asOf) ==> q == TableSelect(table)
  {
    if Given(asOf) then Suffixed(TableSelect(table), AsOfClause(asOf.value)) else TableSelect(table)
  }

  function TableSelect(table: string): string {
    "SELECT * FROM `" + table + "`"
  }

  function AsOfClause(asOf: string): string {
    " AS OF \"" + asOf + "\""
  }

  function Suffixed(base: string, suffix: string): (q: string)
    ensures StartsWith(q, base) && EndsWith(q, suffix) && |q| == |base| + |suffix|
  {
    Concat(base, suffix);
    base + suffix
  }

  // ---------------------------------------------------------------------------
  // The import modes

  datatype ImportMode = Create | ForceCreate | Replace | Update

  /** The key of the mode in `IMPORT_MODES_TO_FLAGS`. */
  function ModeName(m: ImportMode): string {
    match m
    case Create => "create"
    case ForceCreate => "force_create"
    case Replace => "replace"
    case Update => "update"
  }

  /** The lookup of a mode by its key; `None` for a string that is not a key. */
  function ModeOf(s: string): Option<ImportMode> {
    if s == "create" then Some(Create)
    else if s == "force_create" then Some(ForceCreate)
    else if s == "replace" then Some(Replace)
    else if s == "update" then Some(Update)
    else None
  }

  /** `IMPORT_MODES_TO_FLAGS[mode]`: the switches `dolt table import` gets for the mode. */
  function ImportFlags(m: ImportMode): seq<string> {
    match m
    case Create => ["-c"]
    case ForceCreate => ["-f", "-c"]
    case Replace => ["-r"]
    case Update => ["-u"]
  }

  /** The key of a mode looks the mode up, and a key that looks up a mode is that mode's
      key: the table has exactly the four keys. */
  lemma ModeNames(m: ImportMode, s: string)
    ensures ModeOf(ModeName(m)) == Some(m)
    ensures ModeOf(s) == Some(m) ==> s == ModeName(m)
  {
  }

  /** Every mode's flags end with the switch that selects it, and only the forced
      creation adds the `-f` switch in front of `-c`. */
  lemma ImportFlagsShape(m: ImportMode)
    ensures ImportFlags(m) != [] && ImportFlags(m)[|ImportFlags(m)| - 1] == ModeSwitch(m)
    ensures "-f" in ImportFlags(m) <==> m == ForceCreate
  {
  }

  function ModeSwitch(m: ImportMode): string {
    match m
    case Create => "-c"
    case ForceCreate => "-c"
    case Replace => "-r"
    case Update => "-u"
  }

  const ModeError: Error := ValueError("update_mode must be one of: dict_keys(['create', 'force_create', 'replace', 'update'])")

  /** `_get_import_mode_and_flags` once the table names of `ls` are known (`existing`,
      read only when no mode is given): an explicit mode must be one of the four keys;
      without one, a table that exists is updated and a new one created. */
  function ImportModeOf(table: string, importMode: Option<string>, existing: seq<string>): (r: Result<ImportMode>)
    ensures Given(importMode) ==> (r.Failure? <==> ModeOf(importMode.value).None?)
    ensures Given(importMode) && r.Success? ==> ModeName(r.value) == importMode.value
    ensures !Given(importMode) ==>
      r.Success? && (r.value == Update <==> table in existing) && (r.value == Create <==> table !in existing)
    ensures r.Failure? ==> r.error == ModeError
  {
    if Given(importMode) then
      match ModeOf(importMode.value)
      case None => Failure(ModeError)
      case Some(m) => Success(m)
    else if table in existing then Success(Update)
    else Success(Create)
  }

  // ---------------------------------------------------------------------------
  // columns_to_rows and rows_to_columns

  /** What `columns_to_rows` computes: as many rows as the first column has values,
      row `j` holding every column that has a `j`-th value; a column longer than the
      first is an `IndexError`, and so is a table without columns. */
  function RowsOfColumns(columns: ODict<seq<string>>): Result<seq<Row>>
    requires columns.Valid()
  {
    if columns.keys == [] then Failure(IndexError)
    else
      var n := |columns.vals[columns.keys[0]]|;
      if exists c :: c in columns.vals && |columns.vals[c]| > n then Failure(IndexError)
      else Success(seq(n, j requires 0 <= j < n =>
        map c | c in columns.vals && j < |columns.vals[c]| :: columns.vals[c][j]))
  }

  /** `columns_to_rows` as the source runs it: a list of `n` empty rows, filled column
      by column in the dictionary's order. */
  method ColumnsToRows(columns: ODict<seq<string>>) returns (r: Result<seq<Row>>)
    requires columns.Valid()
    ensures r == RowsOfColumns(columns)
  {
    if columns.keys == [] {
      return Failure(IndexError);
    }
    var n := |columns.vals[columns.keys[0]]|;
    var rows := new Row[n](_ => map[]);
    var i := 0;
    while i < |columns.keys|
      invariant 0 <= i <= |columns.keys|
      invariant forall c :: c in columns.keys[..i] ==> |columns.vals[c]| <= n
      invariant forall j :: 0 <= j < n ==> rows[j] == Filled(columns, columns.keys[..i], j)
    {
      var col := columns.keys[i];
      var values := columns.vals[col];
      if |values| > n {
        assert col in columns.vals;
        return Failure(IndexError);
      }
      FillColumn(rows, columns, i);
      i := i + 1;
    }
    assert columns.keys[..i] == columns.keys;
    FilledAll(columns, n);
    assert rows[..] == RowsOfColumns(columns).value;
    r := Success(rows[..]);
  }

  /** Row `j` once the columns `done` have been written into it, in that order. */
  function Filled(columns: ODict<seq<string>>, done: seq<string>, j: nat): Row
    requires columns.Valid() && forall c :: c in done ==> c in columns.vals
  {
    if done == [] then map[]
    else
      var c := done[|done| - 1];
      var front := Filled(columns, done[..|done| - 1], j);
      if j < |columns.vals[c]| then front[c := columns.vals[c][j]] else front
  }

  /** Writing the columns `done` into row `j` gives each of them that has a `j`-th
      value, mapped to that value, whatever the order. */
  lemma {:induction false} FilledMeaning(columns: ODict<seq<string>>, done: seq<string>, j: nat)
    requires columns.Valid() && forall c :: c in done ==> c in columns.vals
    ensures Filled(columns, done, j) == map c | c in done && j < |columns.vals[c]| :: columns.vals[c][j]
  {
    if done != [] {
      var front := done[..|done| - 1];
      assert forall c :: c in front ==> c in done;
      FilledMeaning(columns, front, j);
      assert forall c :: c in done <==> c in front || c == done[|done| - 1];
    }
  }

  /** The inner loop: every value of the `i`-th column written into its row. */
  method FillColumn(rows: array<Row>, columns: ODict<seq<string>>, i: nat)
    requires columns.Valid() && i < |columns.keys| && |columns.vals[columns.keys[i]]| <= rows.Length
    requires forall j :: 0 <= j < rows.Length ==> rows[j] == Filled(columns, columns.keys[..i], j)
    modifies rows
    ensures forall j :: 0 <= j < rows.Length ==> rows[j] == Filled(columns, columns.keys[..i + 1], j)
  {
    var col := columns.keys[i];
    var values := columns.vals[col];
    ghost var done, next := columns.keys[..i], columns.keys[..i + 1];
    var j := 0;
    while j < |values|
      invariant 0 <= j <= |values|
      invariant forall k :: 0 <= k < j ==> rows[k] == Filled(columns, next, k)
      invariant forall k :: j <= k < rows.Length ==> rows[k] == Filled(columns, done, k)
    {
      FilledNext(columns, i, j);
      rows[j] := rows[j][col := values[j]];
      assert rows[j] == Filled(columns, next, j);
      j := j + 1;
    }
    forall k | |values| <= k < rows.Length
      ensures rows[k] == Filled(columns, next, k)
    {
      FilledShort(columns, i, k);
    }
  }

  lemma FilledNext(columns: ODict<seq<string>>, i: nat, j: nat)
    requires columns.Valid() && i < |columns.keys| && j < |columns.vals[columns.keys[i]]|
    ensures Filled(columns, columns.keys[..i + 1], j)
      == Filled(columns, columns.keys[..i], j)[columns.keys[i] := columns.vals[columns.keys[i]][j]]
  {
    assert columns.keys[..i + 1][..i] == columns.keys[..i];
  }

  lemma FilledShort(columns: ODict<seq<string>>, i: nat, j: nat)
    requires columns.Valid() && i < |columns.keys| && j >= |columns.vals[columns.keys[i]]|
    ensures Filled(columns, columns.keys[..i + 1], j) == Filled(columns, columns.keys[..i], j)
  {
    assert columns.keys[..i + 1][..i] == columns.keys[..i];
  }

  lemma FilledAll(columns: ODict<seq<string>>, n: nat)
    requires columns.Valid() && columns.keys != [] && n == |columns.vals[columns.keys[0]]|
    requires forall c :: c in columns.keys ==> |columns.vals[c]| <= n
    ensures RowsOfColumns(columns).Success?
    ensures forall j :: 0 <= j < n ==> RowsOfColumns(columns).value[j] == Filled(columns, columns.keys, j)
    ensures |RowsOfColumns(columns).value| == n
  {
    forall j | 0 <= j < n
      ensures RowsOfColumns(columns).value[j] == Filled(columns, columns.keys, j)
    {
      FilledMeaning(columns, columns.keys, j);
    }
  }

  /** The values of column `c` across `rows`, in row order, taken from the rows that
      have that key. */
  function Column(rows: seq<Row>, c: string): seq<string> {
    if rows == [] then []
    else
      var last := rows[|rows| - 1];
      Column(rows[..|rows| - 1], c) + (if c in last then [last[c]] else [])
  }

  /** What `rows_to_columns` computes, row after row: each row's values appended to
      the lists of their keys. */
  function ColumnsOfRows(rows: seq<Row>): map<string, seq<string>> {
    if rows == [] then map[] else WithRow(ColumnsOfRows(rows[..|rows| - 1]), rows[|rows| - 1])
  }

  /** One row appended to a dictionary of columns whose missing lists start empty. */
  function WithRow(columns: map<string, seq<string>>, row: Row): map<string, seq<string>> {
    WithItems(columns, row, row.Keys)
  }

  /** The items of `row` under the keys `ks` appended to `columns`. */
  function WithItems(columns: map<string, seq<string>>, row: Row, ks: set<string>): map<string, seq<string>>
    requires ks <= row.Keys
  {
    map c | c in columns.Keys + ks :: ColumnOr(columns, c) + (if c in ks then [row[c]] else [])
  }

  /** `columns[c]` of a dictionary with default empty lists. */
  function ColumnOr(columns: map<string, seq<string>>, c: string): seq<string> {
    if c in columns then columns[c] else []
  }

  /** `rows_to_columns` as the source runs it: every value of every row appended to the
      list of its key. */
  method RowsToColumns(rows: seq<Row>) returns (columns: map<string, seq<string>>)
    ensures columns == ColumnsOfRows(rows)
  {
    columns := map[];
    var i := 0;
    while i < |rows|
      invariant 0 <= i <= |rows|
      invariant columns == ColumnsOfRows(rows[..i])
    {
      assert rows[..i + 1][..i] == rows[..i];
      columns := AppendRow(columns, rows[i]);
      i := i + 1;
    }
    assert rows[..i] == rows;
  }

  /** The inner loop: the items of one row, in whatever order the row yields them. */
  method AppendRow(columns: map<string, seq<string>>, row: Row) returns (columns': map<string, seq<string>>)
    ensures columns' == WithRow(columns, row)
  {
    columns' := columns;
    var done: set<string> := {};
    WithNoItems(columns, row);
    while done != row.Keys
      invariant done <= row.Keys
      invariant columns' == WithItems(columns, row, done)
      decreases |row.Keys - done|
    {
      var c :| c in row.Keys - done;
      WithOneMore(columns, row, done, c);
      Shrinks(row.Keys, done, c);
      columns' := columns'[c := ColumnOr(columns', c) + [row[c]]];
      done := done + {c};
    }
  }

  lemma Shrinks(all: set<string>, done: set<string>, c: string)
    requires c in all - done
    ensures |all - (done + {c})| < |all - done|
  {
    assert all - (done + {c}) == (all - done) - {c};
  }

  lemma WithNoItems(columns: map<string, seq<string>>, row: Row)
    ensures WithItems(columns, row, {}) == columns
  {
    var a := WithItems(columns, row, {});
    assert a.Keys == columns.Keys;
    forall k | k in a
      ensures a[k] == columns[k]
    {
    }
  }

  lemma WithOneMore(columns: map<string, seq<string>>, row: Row, done: set<string>, c: string)
    requires done <= row.Keys && c in row && c !in done
    ensures WithItems(columns, row, done + {c})
      == WithItems(columns, row, done)[c := ColumnOr(WithItems(columns, row, done), c) + [row[c]]]
  {
    var a := WithItems(columns, row, done + {c});
    var b := WithItems(columns, row, done)[c := ColumnOr(WithItems(columns, row, done), c) + [row[c]]];
    assert ColumnOr(WithItems(columns, row, done), c) == ColumnOr(columns, c);
    assert a.Keys == b.Keys;
    forall k | k in a
      ensures a[k] == b[k]
    {
    }
  }

  /** What one row does to one key's list. */
  lemma WithRowAt(columns: map<string, seq<string>>, row: Row, c: string)
    ensures c in WithRow(columns, row) <==> c in columns || c in row
    ensures ColumnOr(WithRow(columns, row), c) == ColumnOr(columns, c) + (if c in row then [row[c]] else [])
  {
  }

  /** The keys `rows_to_columns` produces are those of the rows, and each key's list is
      its column. */
  lemma {:induction false} ColumnsOfRowsMeaning(rows: seq<Row>, c: string)
    ensures c in ColumnsOfRows(rows) <==> exists i :: 0 <= i < |rows| && c in rows[i]
    ensures ColumnOr(ColumnsOfRows(rows), c) == Column(rows, c)
  {
    if rows != [] {
      var front := rows[..|rows| - 1];
      var last := rows[|rows| - 1];
      ColumnsOfRowsMeaning(front, c);
      WithRowAt(ColumnsOfRows(front), last, c);
      assert forall i :: 0 <= i < |front| ==> front[i] == rows[i];
      if c in last {
        assert 0 <= |rows| - 1 < |rows| && c in rows[|rows| - 1];
      }
    }
  }

  /** A key every row has gives a full column: one value per row, the `j`-th from row `j`. */
  lemma {:induction false} ColumnFull(rows: seq<Row>, c: string)
    requires forall i :: 0 <= i < |rows| ==> c in rows[i]
    ensures |Column(rows, c)| == |rows|
    ensures forall j :: 0 <= j < |rows| ==> Column(rows, c)[j] == rows[j][c]
  {
    if rows != [] {
      var front := rows[..|rows| - 1];
      assert forall i :: 0 <= i < |front| ==> front[i] == rows[i];
      ColumnFull(front, c);
    }
  }

  /** Rows with one common key set: the columns are those keys, each one value per row. */
  lemma UniformRowsColumn(rows: seq<Row>, c: string)
    requires |rows| > 0 && forall i :: 0 <= i < |rows| ==> rows[i].Keys == rows[0].Keys
    ensures c in ColumnsOfRows(rows) <==> c in rows[0]
    ensures c in rows[0] ==>
      |ColumnsOfRows(rows)[c]| == |rows| && forall j :: 0 <= j < |rows| ==> ColumnsOfRows(rows)[c][j] == rows[j][c]
  {
    ColumnsOfRowsMeaning(rows, c);
    if c in rows[0] {
      ColumnFull(rows, c);
    }
  }

  /** Rows that all have the same keys, at least one, are rebuilt from their columns:
      `columns_to_rows(rows_to_columns(rows)) == rows`, whatever order the columns take. */
  lemma RowsRoundTrip(rows: seq<Row>, columns: ODict<seq<string>>)
    requires |rows| > 0 && rows[0].Keys != {}
    requires forall i :: 0 <= i < |rows| ==> rows[i].Keys == rows[0].Keys
    requires columns.Valid() && columns.vals == ColumnsOfRows(rows)
    ensures RowsOfColumns(columns) == Success(rows)
  {
    forall c
      ensures c in columns.vals <==> c in rows[0]
      ensures c in rows[0] ==>
        |columns.vals[c]| == |rows| && forall j :: 0 <= j < |rows| ==> columns.vals[c][j] == rows[j][c]
    {
      UniformRowsColumn(rows, c);
    }
    RowsRebuilt(rows, columns);
  }

  lemma RowsRebuilt(rows: seq<Row>, columns: ODict<seq<string>>)
    requires |rows| > 0 && rows[0].Keys != {} && columns.Valid()
    requires forall i :: 0 <= i < |rows| ==> rows[i].Keys == rows[0].Keys
    requires forall c :: c in columns.vals <==> c in rows[0]
    requires forall c :: c in rows[0] ==> |columns.vals[c]| == |rows|
    requires forall c, j :: c in rows[0] && 0 <= j < |rows| ==> columns.vals[c][j] == rows[j][c]
    ensures RowsOfColumns(columns) == Success(rows)
  {
    var c0 :| c0 in rows[0];
    assert c0 in columns.keys;
    assert columns.keys[0] in columns.vals;
    assert |columns.vals[columns.keys[0]]| == |rows|;
    var r := RowsOfColumns(columns);
    assert r.Success? && |r.value| == |rows|;
    forall j | 0 <= j < |rows|
      ensures r.value[j] == rows[j]
    {
      RowRebuilt(rows, columns, j);
    }
    assert r.value == rows;
  }

  lemma RowRebuilt(rows: seq<Row>, columns: ODict<seq<string>>, j: nat)
    requires j < |rows| && rows[0].Keys != {} && columns.Valid()
    requires forall i :: 0 <= i < |rows| ==> rows[i].Keys == rows[0].Keys
    requires forall c :: c in columns.vals <==> c in rows[0]
    requires forall c :: c in rows[0] ==> |columns.vals[c]| == |rows|
    requires forall c, i :: c in rows[0] && 0 <= i < |rows| ==> columns.vals[c][i] == rows[i][c]
    ensures (map c | c in columns.vals && j < |columns.vals[c]| :: columns.vals[c][j]) == rows[j]
  {
    var m := map c | c in columns.vals && j < |columns.vals[c]| :: columns.vals[c][j];
    assert forall k :: k in m <==> k in rows[j];
  }

  /** Columns of one common, non-zero length are rebuilt from their rows:
      `rows_to_columns(columns_to_rows(columns)) == columns`. */
  lemma ColumnsRoundTrip(columns: ODict<seq<string>>)
    requires columns.Valid() && columns.keys != []
    requires |columns.vals[columns.keys[0]]| > 0
    requires forall c :: c in columns.vals ==> |columns.vals[c]| == |columns.vals[columns.keys[0]]|
    ensures RowsOfColumns(columns).Success?
    ensures ColumnsOfRows(RowsOfColumns(columns).value) == columns.vals
  {
    RowsOfUniform(columns);
    ColumnsBack(RowsOfColumns(columns).value, columns.vals);
  }

  lemma ColumnsBack(rows: seq<Row>, vals: map<string, seq<string>>)
    requires |rows| > 0 && forall j :: 0 <= j < |rows| ==> rows[j].Keys == vals.Keys
    requires forall c :: c in vals ==> |vals[c]| == |rows|
    requires forall c, j :: c in vals && 0 <= j < |rows| ==> rows[j][c] == vals[c][j]
    ensures ColumnsOfRows(rows) == vals
  {
    var cols := ColumnsOfRows(rows);
    forall c
      ensures c in cols <==> c in vals
      ensures c in vals ==> cols[c] == vals[c]
    {
      ColumnBack(rows, vals, c);
    }
    SameMap(cols, vals);
  }

  lemma SameMap(a: map<string, seq<string>>, b: map<string, seq<string>>)
    requires forall c :: c in a <==> c in b
    requires forall c :: c in b ==> a[c] == b[c]
    ensures a == b
  {
    assert a.Keys == b.Keys;
  }

  lemma ColumnBack(rows: seq<Row>, vals: map<string, seq<string>>, c: string)
    requires |rows| > 0 && forall j :: 0 <= j < |rows| ==> rows[j].Keys == vals.Keys
    requires c in vals ==> |vals[c]| == |rows| && forall j :: 0 <= j < |rows| ==> rows[j][c] == vals[c][j]
    ensures c in ColumnsOfRows(rows) <==> c in vals
    ensures c in vals ==> ColumnsOfRows(rows)[c] == vals[c]
  {
    UniformRowsColumn(rows, c);
    if c in vals {
      SameSeq(ColumnsOfRows(rows)[c], vals[c]);
    }
  }

  lemma SameSeq(a: seq<string>, b: seq<string>)
    requires |a| == |b| && forall j :: 0 <= j < |a| ==> a[j] == b[j]
    ensures a == b
  {
  }

  /** The rows of columns of one common length: one per position, each holding every
      column's value at that position. */
  lemma RowsOfUniform(columns: ODict<seq<string>>)
    requires columns.Valid() && columns.keys != []
    requires |columns.vals[columns.keys[0]]| > 0
    requires forall c :: c in columns.vals ==> |columns.vals[c]| == |columns.vals[columns.keys[0]]|
    ensures RowsOfColumns(columns).Success?
    ensures |RowsOfColumns(columns).value| == |columns.vals[columns.keys[0]]|
    ensures forall j :: 0 <= j < |RowsOfColumns(columns).value| ==>
      RowsOfColumns(columns).value[j].Keys == columns.vals.Keys
    ensures forall c, j :: c in columns.vals && 0 <= j < |RowsOfColumns(columns).value| ==>
      RowsOfColumns(columns).value[j][c] == columns.vals[c][j]
  {
  }

  /** The check `write_columns` makes before writing: the set of column lengths has
      exactly one element, so there is at least one column and all have one length. */
  predicate UniformColumns(columns: ODict<seq<string>>) {
    && columns.keys != [] && columns.keys[0] in columns.vals
    && forall c :: c in columns.vals ==> |columns.vals[c]| == |columns.vals[columns.keys[0]]|
  }
}
