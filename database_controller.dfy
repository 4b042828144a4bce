/** The database registry and query shaping of `DatabaseController`: the
    display-name map built at start-up, connection resolution (with the
    injected in-memory override), the statement texts it issues, and the
    shaping of catalog rows and result rows into dictionaries.

    The SQL engine is an oracle (`Engine`); every statement the controller
    issues on a connection that carries the viewer's trace listener is
    reported, in execution order, in the `trace` of a `Step`. */
module Controller {
  import opened Values

  /** Where a connection points. */
  datatype Location = InMemory(handle: nat) | OnDisk(path: string)

  /** An open connection; `traced` says whether the viewer's trace listener is attached to it. */
  datatype Connection = Connection(location: Location, traced: bool)

  /** One answer of the SQL engine: a value, or the error it throws. */
  datatype Answer<T> = Answer(value: T) | SqlError(message: string)

  /** The SQL engine, as seen by the controller. */
  datatype Engine = Engine(
    openError: string -> Option<string>,               // opening an on-disk file; Some(message) when it throws
    tableNames: Location -> Answer<seq<string>>,       // SELECT name FROM sqlite_master WHERE type = 'table'
    tableInfo: (Location, string) -> Answer<seq<Row>>, // PRAGMA table_info(<table>)
    count: (Location, string) -> Answer<Option<int>>,  // SELECT COUNT(*) FROM '<table>', first value of the first row
    query: (Location, string) -> Answer<seq<Row>>,     // any query text
    run: (Location, string) -> Answer<int>)            // any statement text; rows changed by it

  /** How a controller operation ends: with a value, with a thrown Swift
      error, or by aborting the process (`fatalError`, `try!`). */
  datatype Outcome<T> = Done(value: T) | Threw(message: string) | Fatal(reason: string) {
    function PropagateFailure<U>(): Outcome<U>
      requires !Done?
    {
      if Threw? then Threw(message) else Fatal(reason)
    }
  }

  /** An outcome together with the statements traced on the way, in order,
      and the next unused identifier token. */
  datatype Step<T> = Step(outcome: Outcome<T>, trace: seq<string>, nextToken: nat)

  const TableNamesSql: string := "SELECT name FROM sqlite_master WHERE type = ?"

  function TableInfoSql(table: string): string {
    "PRAGMA table_info(" + table + ")"
  }

  function CountSql(table: string): string {
    "SELECT COUNT(*) FROM '" + table + "'"
  }

  /** The trace events one statement produces on connection `c`. */
  function Traced(c: Connection, sql: string): seq<string> {
    if c.traced then [sql] else []
  }

  // ---------------------------------------------------------------------------
  // The display-name map

  function NameWrites(paths: seq<string>, displayName: string -> string): seq<(string, Option<string>)> {
    seq(|paths|, i requires 0 <= i < |paths| => (displayName(paths[i]), Some(paths[i])))
  }

  /** `mappedDbNames` after `init`: `mappedDbNames[displayName(path)] = path` for each path in turn. */
  function NameMap(paths: seq<string>, displayName: string -> string): map<string, string> {
    Assigned(NameWrites(paths, displayName))
  }

  /** The display names of a list of paths. */
  function DisplayNames(paths: seq<string>, displayName: string -> string): set<string> {
    set i | 0 <= i < |paths| :: displayName(paths[i])
  }

  lemma NameWritesKeys(paths: seq<string>, displayName: string -> string)
    ensures var w := NameWrites(paths, displayName);
      (set i | 0 <= i < |w| :: w[i].0) == DisplayNames(paths, displayName)
  {
    var w := NameWrites(paths, displayName);
    forall i | 0 <= i < |w| ensures w[i].0 == displayName(paths[i]) {}
    forall name | name in DisplayNames(paths, displayName) ensures name in set i | 0 <= i < |w| :: w[i].0 {
      var i :| 0 <= i < |paths| && displayName(paths[i]) == name;
      assert w[i].0 == name;
    }
  }

  /** Every key is the display name of some path and maps to the LAST path with
      that display name; no other keys exist. */
  lemma NameMapLastWins(paths: seq<string>, displayName: string -> string, name: string)
    ensures var m := NameMap(paths, displayName);
      var i := LastIndex(NameWrites(paths, displayName), name);
      && (name in m <==> name in DisplayNames(paths, displayName))
      && (name in m ==> 0 <= i < |paths| && m[name] == paths[i] && displayName(paths[i]) == name
                        && forall j | i < j < |paths| :: displayName(paths[j]) != name)
  {
    var w := NameWrites(paths, displayName);
    AssignedLastWins(w, name);
    AssignedKeys(w);
    NameWritesKeys(paths, displayName);
    var i := LastIndex(w, name);
    if i >= 0 {
      assert w[i] == (displayName(paths[i]), Some(paths[i]));
      forall j | i < j < |paths| ensures displayName(paths[j]) != name {
        assert w[j].0 == displayName(paths[j]);
      }
    }
  }

  /** The registry has one entry per distinct display name; with pairwise
      distinct display names, one entry per path. */
  lemma NameMapSize(paths: seq<string>, displayName: string -> string)
    ensures NameMap(paths, displayName).Keys == DisplayNames(paths, displayName)
    ensures |NameMap(paths, displayName)| == |DisplayNames(paths, displayName)|
    ensures (forall i, j | 0 <= i < j < |paths| :: displayName(paths[i]) != displayName(paths[j]))
            ==> |NameMap(paths, displayName)| == |paths|
  {
    var w := NameWrites(paths, displayName);
    AssignedKeys(w);
    NameWritesKeys(paths, displayName);
    assert |NameMap(paths, displayName)| == |NameMap(paths, displayName).Keys|;
    if forall i, j | 0 <= i < j < |paths| :: displayName(paths[i]) != displayName(paths[j]) {
      forall i, j | 0 <= i < j < |w| ensures w[i].0 != w[j].0 {
        assert w[i].0 == displayName(paths[i]) && w[j].0 == displayName(paths[j]);
      }
      DistinctKeysCount(w);
    }
  }

  // ---------------------------------------------------------------------------
  // Row shaping

  function ColumnNames(row: Row): seq<string> {
    seq(|row|, i requires 0 <= i < |row| => row[i].name)
  }

  function Writes(row: Row): seq<(string, Option<Json>)> {
    seq(|row|, i requires 0 <= i < |row| => (row[i].name, Cell(row[i].value)))
  }

  /** The dictionary `values[column] = row.value(at: index)` leaves for a row. */
  function RowDict(row: Row): map<string, Json> {
    Assigned(Writes(row))
  }

  /** A column name is a key of the row dictionary exactly when the last
      column of that name is not NULL, and then it holds that column's value;
      no other name is a key. */
  lemma RowDictLastWins(row: Row, name: string)
    ensures var i := LastIndex(Writes(row), name);
      && (i >= 0 ==> row[i].name == name && forall j | i < j < |row| :: row[j].name != name)
      && (i < 0 ==> forall j | 0 <= j < |row| :: row[j].name != name)
      && (name in RowDict(row) <==> i >= 0 && !row[i].value.Null?)
      && (name in RowDict(row) ==> Cell(row[i].value) == Some(RowDict(row)[name]))
  {
    var w := Writes(row);
    AssignedLastWins(w, name);
    forall j | 0 <= j < |row| ensures w[j] == (row[j].name, Cell(row[j].value)) {}
  }

  /** With distinct column names, each column maps to the value at its own
      index, and a NULL column is absent. */
  lemma RowDictAt(row: Row, i: nat)
    requires i < |row|
    requires forall j, k | 0 <= j < k < |row| :: row[j].name != row[k].name
    ensures row[i].name in RowDict(row) <==> !row[i].value.Null?
    ensures !row[i].value.Null? ==> Cell(row[i].value) == Some(RowDict(row)[row[i].name])
  {
    RowDictLastWins(row, row[i].name);
  }

  /** One more column assigned: the dictionary of the longer prefix is the
      previous one with that column's value put in. */
  lemma AssignedWritesSnoc(row: Row, k: nat)
    requires k < |row|
    ensures Assigned(Writes(row)[..k + 1]) == Put(Assigned(Writes(row)[..k]), row[k].name, Cell(row[k].value))
  {
    assert Writes(row)[..k + 1][..k] == Writes(row)[..k];
  }

  /** `TableInfoExtractor.init(row:)`: `tableInfo[column.name] = value` for each column in turn. */
  method TableInfoExtractor(row: Row) returns (tableInfo: map<string, Json>)
    ensures tableInfo == RowDict(row)
  {
    tableInfo := map[];
    var index := 0;
    while index < |row|
      invariant 0 <= index <= |row|
      invariant tableInfo == Assigned(Writes(row)[..index])
    {
      var column := row[index];
      var value := Cell(column.value);
      AssignedWritesSnoc(row, index);
      tableInfo := Put(tableInfo, column.name, value);
      index := index + 1;
    }
    assert Writes(row)[..|row|] == Writes(row);
  }

  /** `ColumnsValues.init(row:)`: the column names, and the row dictionary
      with an `__id` entry carrying the token the caller drew. */
  method ColumnsValues(row: Row, token: nat) returns (columnNames: seq<string>, values: map<string, Json>)
    ensures columnNames == ColumnNames(row)
    ensures values == RowDict(row)["__id" := Uuid(token)]
  {
    columnNames := seq(|row|, i requires 0 <= i < |row| => row[i].name);
    values := map[];
    var index := 0;
    while index < |columnNames|
      invariant 0 <= index <= |row|
      invariant values == Assigned(Writes(row)[..index])
    {
      var column := columnNames[index];
      var value := Cell(row[index].value);
      AssignedWritesSnoc(row, index);
      values := Put(values, column, value);
      index := index + 1;
    }
    assert Writes(row)[..|row|] == Writes(row);
    values := values["__id" := Uuid(token)];
  }

  // ---------------------------------------------------------------------------
  // Table descriptors

  /** One entry of a descriptor's `columns`: a `table_info` row plus its `__id`. */
  function ColumnEntry(info: Row, token: nat): Json {
    Obj(RowDict(info)["__id" := Uuid(token)])
  }

  function ColumnEntries(infos: seq<Row>, token: nat): seq<Json> {
    seq(|infos|, i requires 0 <= i < |infos| => ColumnEntry(infos[i], token + i))
  }

  lemma ColumnEntriesSnoc(infos: seq<Row>, k: nat, token: nat)
    requires k < |infos|
    ensures ColumnEntries(infos[..k + 1], token) == ColumnEntries(infos[..k], token) + [ColumnEntry(infos[k], token + k)]
  {
  }

  /** The descriptor of one table; its column entries take the tokens from
      `token` on, the descriptor itself the next one. */
  function Descriptor(name: string, infos: seq<Row>, count: int, token: nat): Json {
    Obj(map[
      "__id" := Uuid(token + |infos|),
      "tableName" := Str(name),
      "count" := Int(count),
      "columns" := Arr(ColumnEntries(infos, token))])
  }

  /** One iteration of the loop over table names in `getTableList`. */
  function DescribeTable(c: Connection, e: Engine, name: string, token: nat): Step<Json> {
    match e.tableInfo(c.location, name)
    case SqlError(m) => Step(Threw(m), Traced(c, TableInfoSql(name)), token)
    case Answer(infos) =>
      var trace := Traced(c, TableInfoSql(name)) + Traced(c, CountSql(name));
      match e.count(c.location, name)
      case SqlError(m) => Step(Fatal(m), trace, token + |infos|)
      case Answer(n) => Step(Done(Descriptor(name, infos, n.GetOr(0), token)), trace, token + |infos| + 1)
  }

  /** The loop over table names, up to the first table that fails. */
  function DescribeTables(c: Connection, e: Engine, names: seq<string>, token: nat): Step<seq<Json>>
    decreases |names|
  {
    if names == [] then Step(Done([]), [], token)
    else
      var n := |names| - 1;
      var before := DescribeTables(c, e, names[..n], token);
      if !before.outcome.Done? then before
      else
        var last := DescribeTable(c, e, names[n], before.nextToken);
        var outcome := if last.outcome.Done? then Done(before.outcome.value + [last.outcome.value])
                       else last.outcome.PropagateFailure();
        Step(outcome, before.trace + last.trace, last.nextToken)
  }

  /** One more table: the loop over `names[..t + 1]` is the loop over
      `names[..t]` followed by the description of `names[t]`. */
  lemma DescribeTablesSnoc(c: Connection, e: Engine, names: seq<string>, t: nat, token: nat)
    requires t < |names|
    requires DescribeTables(c, e, names[..t], token).outcome.Done?
    ensures var before := DescribeTables(c, e, names[..t], token);
      var last := DescribeTable(c, e, names[t], before.nextToken);
      DescribeTables(c, e, names[..t + 1], token)
        == Step(if last.outcome.Done? then Done(before.outcome.value + [last.outcome.value])
                else last.outcome.PropagateFailure(),
                before.trace + last.trace, last.nextToken)
  {
    assert names[..t + 1][..t] == names[..t];
  }

  /** Once a table has failed, the tables after it change nothing. */
  lemma {:induction false} DescribeTablesStops(c: Connection, e: Engine, names: seq<string>, k: nat, token: nat)
    requires k <= |names|
    requires !DescribeTables(c, e, names[..k], token).outcome.Done?
    ensures DescribeTables(c, e, names, token) == DescribeTables(c, e, names[..k], token)
    decreases |names| - k
  {
    if k < |names| {
      assert names[..|names| - 1][..k] == names[..k];
      DescribeTablesStops(c, e, names[..|names| - 1], k, token);
    } else {
      assert names[..k] == names;
    }
  }

  /** The keys and values of one descriptor: exactly `__id`, `tableName`,
      `count` and `columns`; one column entry per `table_info` row, in
      order, each the row dictionary plus `__id`. */
  lemma DescriptorShape(name: string, infos: seq<Row>, count: int, token: nat)
    ensures var d := Descriptor(name, infos, count, token);
      && d.Obj?
      && d.fields.Keys == {"__id", "tableName", "count", "columns"}
      && d.fields["tableName"] == Str(name)
      && d.fields["count"] == Int(count)
      && d.fields["__id"] == Uuid(token + |infos|)
      && d.fields["columns"].Arr?
      && |d.fields["columns"].items| == |infos|
      && forall j | 0 <= j < |infos| ::
           d.fields["columns"].items[j] == Obj(RowDict(infos[j])["__id" := Uuid(token + j)])
  {
  }

  /** A `tables` payload holds one descriptor per catalog table, in catalog
      order; the i-th describes the i-th table with the engine's `table_info`
      rows and its count (0 when the count yields nothing), and draws its
      tokens from `first` on. */
  lemma {:induction false} DescribeTablesShape(c: Connection, e: Engine, names: seq<string>, token: nat, i: nat)
    returns (first: nat)
    requires DescribeTables(c, e, names, token).outcome.Done?
    requires i < |names|
    ensures e.tableInfo(c.location, names[i]).Answer? && e.count(c.location, names[i]).Answer?
    ensures |DescribeTables(c, e, names, token).outcome.value| == |names|
    ensures token <= first
    ensures first + |e.tableInfo(c.location, names[i]).value| < DescribeTables(c, e, names, token).nextToken
    ensures DescribeTables(c, e, names, token).outcome.value[i]
         == Descriptor(names[i], e.tableInfo(c.location, names[i]).value,
                       e.count(c.location, names[i]).value.GetOr(0), first)
    decreases |names|
  {
    var n := |names| - 1;
    DescribeTablesLast(c, e, names, token);
    var before := DescribeTables(c, e, names[..n], token);
    var s := DescribeTables(c, e, names, token);
    DescribeTablesTokens(c, e, names[..n], token);
    if i < n {
      assert names[..n][i] == names[i];
      first := DescribeTablesShape(c, e, names[..n], token, i);
      assert s.outcome.value[i] == before.outcome.value[i];
    } else {
      first := before.nextToken;
    }
  }

  /** The tokens a table list consumes never go backwards. */
  lemma {:induction false} DescribeTablesTokens(c: Connection, e: Engine, names: seq<string>, token: nat)
    ensures var s := DescribeTables(c, e, names, token);
      token <= s.nextToken && (s.outcome.Done? ==> |s.outcome.value| == |names|)
    decreases |names|
  {
    if names != [] {
      DescribeTablesTokens(c, e, names[..|names| - 1], token);
    }
  }

  /** The identifiers of one descriptor, in the order they were drawn: its
      column entries first, then the descriptor itself. */
  function DescriptorIds(d: Json): seq<Json> {
    if d.Obj? && "__id" in d.fields && "columns" in d.fields && d.fields["columns"].Arr? then
      var cols := d.fields["columns"].items;
      seq(|cols|, i requires 0 <= i < |cols| =>
        if cols[i].Obj? && "__id" in cols[i].fields then cols[i].fields["__id"] else Str(""))
      + [d.fields["__id"]]
    else []
  }

  function AllIds(ds: seq<Json>): seq<Json> {
    if ds == [] then [] else AllIds(ds[..|ds| - 1]) + DescriptorIds(ds[|ds| - 1])
  }

  /** The tokens `from`, `from + 1`, ..., `to - 1`. */
  function Tokens(from: nat, to: nat): seq<Json>
    requires from <= to
  {
    seq(to - from, i requires 0 <= i < to - from => Uuid(from + i))
  }

  lemma DescriptorIdsAreTokens(name: string, infos: seq<Row>, count: int, token: nat)
    ensures DescriptorIds(Descriptor(name, infos, count, token)) == Tokens(token, token + |infos| + 1)
  {
  }

  lemma TokensConcat(from: nat, middle: nat, to: nat)
    requires from <= middle <= to
    ensures Tokens(from, middle) + Tokens(middle, to) == Tokens(from, to)
  {
    var left, right := Tokens(from, middle), Tokens(middle, to);
    forall i | 0 <= i < to - from ensures (left + right)[i] == Tokens(from, to)[i] {
      if i < middle - from {
        assert (left + right)[i] == left[i];
      } else {
        assert (left + right)[i] == right[i - (middle - from)];
      }
    }
  }

  /** The last table of a list that succeeded contributes its descriptor,
      drawn from the tokens that follow the tables before it. */
  lemma DescribeTablesLast(c: Connection, e: Engine, names: seq<string>, token: nat)
    requires names != [] && DescribeTables(c, e, names, token).outcome.Done?
    ensures var n := |names| - 1;
      var before := DescribeTables(c, e, names[..n], token);
      var s := DescribeTables(c, e, names, token);
      && before.outcome.Done?
      && e.tableInfo(c.location, names[n]).Answer? && e.count(c.location, names[n]).Answer?
      && s.outcome.value == before.outcome.value
           + [Descriptor(names[n], e.tableInfo(c.location, names[n]).value,
                         e.count(c.location, names[n]).value.GetOr(0), before.nextToken)]
      && s.nextToken == before.nextToken + |e.tableInfo(c.location, names[n]).value| + 1
  {
  }

  lemma AllIdsSnoc(ds: seq<Json>, d: Json)
    ensures AllIds(ds + [d]) == AllIds(ds) + DescriptorIds(d)
  {
    assert (ds + [d])[..|ds|] == ds;
  }

  /** Every `__id` of a table list, read in order, is one of the consecutive
      fresh tokens the list drew, each once: no two identifiers coincide. */
  lemma {:induction false} DescribeTablesIds(c: Connection, e: Engine, names: seq<string>, token: nat)
    requires DescribeTables(c, e, names, token).outcome.Done?
    ensures token <= DescribeTables(c, e, names, token).nextToken
    ensures AllIds(DescribeTables(c, e, names, token).outcome.value)
         == Tokens(token, DescribeTables(c, e, names, token).nextToken)
    decreases |names|
  {
    if names != [] {
      var n := |names| - 1;
      DescribeTablesLast(c, e, names, token);
      var before := DescribeTables(c, e, names[..n], token);
      DescribeTablesIds(c, e, names[..n], token);
      var infos := e.tableInfo(c.location, names[n]).value;
      var count := e.count(c.location, names[n]).value.GetOr(0);
      var d := Descriptor(names[n], infos, count, before.nextToken);
      var s := DescribeTables(c, e, names, token);
      calc {
        AllIds(s.outcome.value);
        { assert s.outcome.value == before.outcome.value + [d]; }
        AllIds(before.outcome.value + [d]);
        { AllIdsSnoc(before.outcome.value, d); }
        AllIds(before.outcome.value) + DescriptorIds(d);
        { DescriptorIdsAreTokens(names[n], infos, count, before.nextToken); }
        Tokens(token, before.nextToken) + Tokens(before.nextToken, s.nextToken);
        { TokensConcat(token, before.nextToken, s.nextToken); }
        Tokens(token, s.nextToken);
      }
    }
  }

  // ---------------------------------------------------------------------------
  // Result rows

  /** What `selectQuery` returns for the rows of a query: nothing for no rows,
      otherwise the first row's column names and one dictionary per row, in
      order, the i-th with identifier `token + i`. */
  function SelectData(rows: seq<Row>, token: nat): map<string, Json> {
    if rows == [] then map[]
    else map[
      "columns" := Arr(Strings(ColumnNames(rows[0]))),
      "rows" := Arr(seq(|rows|, i requires 0 <= i < |rows| => Obj(RowDict(rows[i])["__id" := Uuid(token + i)])))]
  }

  /** `selectQuery(db:query:)` on connection `c`. */
  function Select(c: Connection, e: Engine, query: string, token: nat): Step<map<string, Json>> {
    match e.query(c.location, query)
    case SqlError(m) => Step(Threw(m), Traced(c, query), token)
    case Answer(rows) => Step(Done(SelectData(rows, token)), Traced(c, query), token + |rows|)
  }

  /** The payload of a query is empty exactly when there are no rows. */
  lemma SelectDataEmpty(rows: seq<Row>, token: nat)
    ensures SelectData(rows, token) == map[] <==> rows == []
  {
    if rows != [] {
      assert "rows" in SelectData(rows, token);
    }
  }

  /** The payload of a query with rows: `columns` lists the first row's
      column names and `rows` holds one entry per result row in the same
      order, each mapping every column name to the value of its last
      non-NULL-overwritten column, plus a distinct `__id`. */
  lemma SelectDataShape(rows: seq<Row>, token: nat, i: nat, name: string)
    requires i < |rows|
    ensures var d := SelectData(rows, token);
      && d.Keys == {"columns", "rows"}
      && d["columns"].Arr? && |d["columns"].items| == |rows[0]|
      && (forall k | 0 <= k < |rows[0]| :: d["columns"].items[k] == Str(rows[0][k].name))
      && d["rows"].Arr? && |d["rows"].items| == |rows|
      && d["rows"].items[i].Obj?
      && d["rows"].items[i].fields["__id"] == Uuid(token + i)
      && (forall j | 0 <= j < |rows| && j != i :: d["rows"].items[j].fields["__id"] != d["rows"].items[i].fields["__id"])
      && (name != "__id" ==>
            var k := LastIndex(Writes(rows[i]), name);
            (name in d["rows"].items[i].fields <==> k >= 0 && !rows[i][k].value.Null?)
            && (name in d["rows"].items[i].fields ==> Cell(rows[i][k].value) == Some(d["rows"].items[i].fields[name])))
  {
    RowDictLastWins(rows[i], name);
  }

  /** No cell of any row is a blob. */
  predicate BlobFree(rows: seq<Row>) {
    forall i, j | 0 <= i < |rows| && 0 <= j < |rows[i]| :: !rows[i][j].value.Blob?
  }

  /** Every value a row dictionary holds is the value of one of the row's cells. */
  lemma RowDictValues(row: Row)
    ensures forall name | name in RowDict(row) ::
              exists j | 0 <= j < |row| :: Cell(row[j].value) == Some(RowDict(row)[name])
  {
    forall name | name in RowDict(row)
      ensures exists j | 0 <= j < |row| :: Cell(row[j].value) == Some(RowDict(row)[name])
    {
      RowDictLastWins(row, name);
    }
  }

  /** Without blobs, a query's payload can always be encoded. */
  lemma SelectDataSerializable(rows: seq<Row>, token: nat)
    requires BlobFree(rows)
    ensures Serializable(Obj(SelectData(rows, token)))
  {
    if rows != [] {
      var d := SelectData(rows, token);
      forall i | 0 <= i < |rows| ensures Serializable(d["rows"].items[i]) {
        RowDictValues(rows[i]);
        var entry := RowDict(rows[i])["__id" := Uuid(token + i)];
        assert d["rows"].items[i] == Obj(entry);
        forall name | name in entry ensures Serializable(entry[name]) {
          if name != "__id" {
            var j :| 0 <= j < |rows[i]| && Cell(rows[i][j].value) == Some(RowDict(rows[i])[name]);
            assert !rows[i][j].value.Blob?;
          }
        }
      }
    }
  }

  /** The blobs that reach a query's payload: a row dictionary holding
      `Data` under a key other than `__id`, which the identifier overwrites. */
  predicate BlobReachesPayload(rows: seq<Row>) {
    exists i, name | 0 <= i < |rows| && name in RowDict(rows[i]) && name != "__id" ::
      RowDict(rows[i])[name].Bytes?
  }

  /** The exact condition: a query's payload can be encoded exactly when no
      blob reaches it. */
  lemma SelectDataSerializableIff(rows: seq<Row>, token: nat)
    ensures Serializable(Obj(SelectData(rows, token))) <==> !BlobReachesPayload(rows)
  {
    if rows != [] {
      if Serializable(Obj(SelectData(rows, token))) {
        EncodableHasNoBlob(rows, token);
      } else {
        UnencodableHasBlob(rows, token);
      }
    }
  }

  lemma EncodableHasNoBlob(rows: seq<Row>, token: nat)
    requires rows != [] && Serializable(Obj(SelectData(rows, token)))
    ensures !BlobReachesPayload(rows)
  {
    var d := SelectData(rows, token);
    forall i, name | 0 <= i < |rows| && name in RowDict(rows[i]) && name != "__id"
      ensures !RowDict(rows[i])[name].Bytes?
    {
      assert Serializable(d["rows"]);
      var entry := RowDict(rows[i])["__id" := Uuid(token + i)];
      assert d["rows"].items[i] == Obj(entry);
      assert Serializable(entry[name]);
      assert entry[name] == RowDict(rows[i])[name];
    }
  }

  lemma UnencodableHasBlob(rows: seq<Row>, token: nat)
    requires rows != [] && !Serializable(Obj(SelectData(rows, token)))
    ensures BlobReachesPayload(rows)
  {
    var d := SelectData(rows, token);
    StringsEncodable(ColumnNames(rows[0]));
    var key :| key in d && !Serializable(d[key]);
    assert key == "rows";
    var i :| 0 <= i < |rows| && !Serializable(d["rows"].items[i]);
    var entry := RowDict(rows[i])["__id" := Uuid(token + i)];
    assert d["rows"].items[i] == Obj(entry);
    var name :| name in entry && !Serializable(entry[name]);
    assert name != "__id";
    RowDictEncodable(rows[i], name);
  }

  /** An array of strings can always be encoded. */
  lemma StringsEncodable(names: seq<string>)
    ensures Serializable(Arr(Strings(names)))
  {
    var items := Strings(names);
    forall k | 0 <= k < |items| ensures Serializable(items[k]) {
      assert items[k] == Str(names[k]);
    }
  }

  /** A value of a row dictionary is a cell's value: it can be encoded
      unless it is a blob. */
  lemma RowDictEncodable(row: Row, name: string)
    requires name in RowDict(row)
    ensures Serializable(RowDict(row)[name]) <==> !RowDict(row)[name].Bytes?
  {
    RowDictLastWins(row, name);
  }

  /** A blob in the last column of a row, under any name but `__id`, reaches
      the payload, which then cannot be encoded. */
  lemma SelectDataWithBlob(rows: seq<Row>, token: nat, i: nat)
    requires i < |rows| && |rows[i]| > 0
    requires rows[i][|rows[i]| - 1].value.Blob? && rows[i][|rows[i]| - 1].name != "__id"
    ensures !Serializable(Obj(SelectData(rows, token)))
  {
    var row := rows[i];
    var name := row[|row| - 1].name;
    RowDictLastWins(row, name);
    var d := SelectData(rows, token);
    var entry := d["rows"].items[i];
    assert entry == Obj(RowDict(row)["__id" := Uuid(token + i)]);
    assert entry.fields[name] == Bytes(row[|row| - 1].value.bytes);
    assert !Serializable(entry);
  }

  // ---------------------------------------------------------------------------
  // Statement texts

  /** An optional clause: the keyword and the argument, or nothing. */
  function Clause(keyword: string, argument: Option<string>): string {
    match argument
    case Some(a) => keyword + a
    case None => ""
  }

  /** A proof step, not a property of the source: appending `keyword` and
      then `argument` is appending their clause. Kept as a lemma so that the
      solver meets the concatenation once, not inside `GetTableData`. */
  lemma AppendClause(query: string, keyword: string, argument: Option<string>)
    requires argument.Some?
    ensures query + keyword + argument.value == query + Clause(keyword, argument)
  {
  }

  /** The statement `getTableData` builds. */
  function TableQuery(table: string, limit: Option<string>, offset: Option<string>,
                      order: Option<string>, clause: Option<string>): string
  {
    "SELECT * FROM '" + table + "'" + Clause(" WHERE ", clause) + Clause(" ORDER BY ", order)
      + Clause(" LIMIT ", limit) + Clause(" OFFSET ", offset)
  }

  lemma SliceOfConcat(a: string, b: string, c: string)
    ensures (a + b + c)[|a|..|a| + |b|] == b
  {
    assert (a + b + c)[|a|..|a| + |b|] == (a + b)[|a|..];
  }

  /** The pieces of the statement, in their fixed order, can be cut back out
      of it: each present argument stands verbatim right after its keyword,
      and an absent one leaves no trace. */
  lemma TableQueryPieces(table: string, limit: Option<string>, offset: Option<string>,
                         order: Option<string>, clause: Option<string>)
    ensures var q := TableQuery(table, limit, offset, order, clause);
      var w := |"SELECT * FROM '" + table + "'"|;
      var o := w + |Clause(" WHERE ", clause)|;
      var l := o + |Clause(" ORDER BY ", order)|;
      var f := l + |Clause(" LIMIT ", limit)|;
      && f + |Clause(" OFFSET ", offset)| == |q|
      && q[..w] == "SELECT * FROM '" + table + "'"
      && q[w..o] == Clause(" WHERE ", clause)
      && q[o..l] == Clause(" ORDER BY ", order)
      && q[l..f] == Clause(" LIMIT ", limit)
      && q[f..] == Clause(" OFFSET ", offset)
  {
    var base := "SELECT * FROM '" + table + "'";
    var cw, co, cl, cf := Clause(" WHERE ", clause), Clause(" ORDER BY ", order),
                          Clause(" LIMIT ", limit), Clause(" OFFSET ", offset);
    var q := TableQuery(table, limit, offset, order, clause);
    assert q == base + cw + co + cl + cf;
    SliceOfConcat([], base, cw + co + cl + cf);
    SliceOfConcat(base, cw, co + cl + cf);
    SliceOfConcat(base + cw, co, cl + cf);
    SliceOfConcat(base + cw + co, cl, cf);
    SliceOfConcat(base + cw + co + cl, cf, []);
  }

  /** ASCII case folding of one character. */
  function LowerChar(ch: char): char {
    if 'A' <= ch <= 'Z' then (ch as int + 32) as char else ch
  }

  /** `String.lowercased()` restricted to ASCII letters. */
  function Lowercased(s: string): string {
    seq(|s|, i requires 0 <= i < |s| => LowerChar(s[i]))
  }

  /** `part` occurs in `s` starting at position `i`. */
  predicate OccursAt(s: string, part: string, i: int) {
    0 <= i <= |s| - |part| && s[i..i + |part|] == part
  }

  predicate Contains(s: string, part: string) {
    exists i | 0 <= i <= |s| - |part| :: OccursAt(s, part, i)
  }

  /** The test `executeRawQuery` uses to pick the query path. */
  predicate IsSelect(query: string) {
    Contains(Lowercased(query), "select")
  }

  /** Lower-casing twice changes nothing more, so the heuristic reads a
      query and its lower-cased text alike. */
  lemma IsSelectIgnoresCase(query: string)
    ensures Lowercased(Lowercased(query)) == Lowercased(query)
    ensures IsSelect(Lowercased(query)) == IsSelect(query)
  {
    var once := Lowercased(query);
    forall i | 0 <= i < |query| ensures Lowercased(once)[i] == once[i] {
      assert once[i] == LowerChar(query[i]);
    }
  }

  /** Mixed case still counts as a query. */
  lemma IsSelectMixedCase()
    ensures IsSelect("SeLeCt id, email FROM 'users' where id > 2")
  {
    var s := "SeLeCt id, email FROM 'users' where id > 2";
    var q := Lowercased(s);
    forall i | 0 <= i < 6 ensures q[i] == "select"[i] {
      assert q[i] == LowerChar(s[i]);
    }
    assert q[0..6] == "select";
    assert OccursAt(q, "select", 0);
  }

  /** A mutation that merely mentions the word is taken for a query. */
  lemma IsSelectMention()
    ensures IsSelect("UPDATE users SET name = 'x' WHERE name LIKE '%select%'")
  {
    var u := Lowercased("UPDATE users SET name = 'x' WHERE name LIKE '%select%'");
    assert u[46..52] == "UPDATE users SET name = 'x' WHERE name LIKE '%select%'"[46..52];
    assert OccursAt(u, "select", 46);
  }

  /** A statement without the word takes the `affected_rows` path. */
  lemma IsSelectRejectsDelete()
    ensures !IsSelect("DELETE FROM users")
  {
    var d := Lowercased("DELETE FROM users");
    forall i | 0 <= i <= |d| - 6 ensures !OccursAt(d, "select", i) {
      assert d[i] != 's';
      assert d[i..i + 6][0] == d[i];
    }
  }

  // ---------------------------------------------------------------------------
  // The controller

  /** A listing of the registry as `getDatabases()` returns it: every name
      once and nothing else, in an order the dictionary chooses. */
  ghost predicate Listing(names: seq<string>, registry: map<string, string>) {
    && (forall name :: name in names <==> name in registry)
    && |names| == |registry|
    && (forall i, j | 0 <= i < j < |names| :: names[i] != names[j])
  }

  class DatabaseController {
    var mappedDbNames: map<string, string>
    var listening: bool                      // a query listener has been installed
    var inMemoryConnection: Option<Connection>
    var nextToken: nat                       // the next `UUID().uuidString` to hand out

    /** `init(databases:inMemoryconnection:)`, with `FileManager.displayName` as a parameter. */
    constructor (databases: seq<string>, inMemoryConnection: Option<Connection>, displayName: string -> string)
      ensures mappedDbNames == NameMap(databases, displayName)
      ensures this.inMemoryConnection == inMemoryConnection
      ensures !listening && nextToken == 0
    {
      this.inMemoryConnection := inMemoryConnection;
      listening := false;
      nextToken := 0;
      new;
      mappedDbNames := map[];
      var i := 0;
      while i < |databases|
        invariant 0 <= i <= |databases|
        invariant mappedDbNames == Assigned(NameWrites(databases, displayName)[..i])
        invariant this.inMemoryConnection == inMemoryConnection && !listening && nextToken == 0
      {
        var name := displayName(databases[i]);
        assert NameWrites(databases, displayName)[..i + 1]
            == NameWrites(databases, displayName)[..i] + [(name, Some(databases[i]))];
        mappedDbNames := mappedDbNames[name := databases[i]];
        i := i + 1;
      }
      assert NameWrites(databases, displayName)[..|databases|] == NameWrites(databases, displayName);
    }

    /** `listenQueries(handler:)`: connections opened from now on carry the listener. */
    method ListenQueries()
      modifies this`listening
      ensures listening
    {
      listening := true;
    }

    /** `UUID().uuidString`. */
    method FreshToken() returns (token: nat)
      modifies this`nextToken
      ensures token == old(nextToken) && nextToken == old(nextToken) + 1
    {
      token := nextToken;
      nextToken := nextToken + 1;
    }

    /** `openConnection(db:)`. An injected connection answers every name,
        configured or not, unchanged and without a listener being attached;
        otherwise an unknown name aborts, and a known one opens a new on-disk
        connection at exactly its mapped path, carrying the listener if one
        is installed. Nothing is cached. */
    function OpenConnection(db: string, e: Engine): (r: Outcome<Connection>)
      reads this
      ensures inMemoryConnection.Some? ==> r == Done(inMemoryConnection.value)
      ensures inMemoryConnection.None? ==> (r.Fatal? <==> db !in mappedDbNames)
      ensures inMemoryConnection.None? && r.Done? ==>
                db in mappedDbNames && r.value == Connection(OnDisk(mappedDbNames[db]), listening)
      ensures inMemoryConnection.None? && db in mappedDbNames ==>
                (r.Threw? <==> e.openError(mappedDbNames[db]).Some?)
    {
      if inMemoryConnection.Some? then Done(inMemoryConnection.value)
      else if db !in mappedDbNames then Fatal("no such database: " + db)
      else match e.openError(mappedDbNames[db])
        case Some(m) => Threw(m)
        case None => Done(Connection(OnDisk(mappedDbNames[db]), listening))
    }

    /** `getDatabases()`: the keys of the registry, each once, in no particular order. */
    method GetDatabases() returns (names: seq<string>)
      ensures Listing(names, mappedDbNames)
    {
      names := [];
      var remaining := mappedDbNames.Keys;
      while remaining != {}
        invariant remaining <= mappedDbNames.Keys
        invariant forall name :: name in names <==> name in mappedDbNames.Keys - remaining
        invariant |names| + |remaining| == |mappedDbNames.Keys|
        invariant forall i, j | 0 <= i < j < |names| :: names[i] != names[j]
        decreases remaining
      {
        var name :| name in remaining;
        assert name !in names;
        names := names + [name];
        remaining := remaining - {name};
      }
    }

    /** What `getTableList(db:)` does, drawing identifiers from `token` on. */
    function TableList(db: string, e: Engine, token: nat): Step<seq<Json>>
      reads this
    {
      match OpenConnection(db, e)
      case Done(c) =>
        (match e.tableNames(c.location)
         case SqlError(m) => Step(Threw(m), Traced(c, TableNamesSql), token)
         case Answer(names) =>
           var s := DescribeTables(c, e, names, token);
           Step(s.outcome, Traced(c, TableNamesSql) + s.trace, s.nextToken))
      case Threw(m) => Step(Threw(m), [], token)
      case Fatal(m) => Step(Fatal(m), [], token)
    }

    /** `getTableList(db:)`. */
    method GetTableList(db: string, e: Engine) returns (r: Outcome<seq<Json>>, trace: seq<string>)
      modifies this`nextToken
      ensures Step(r, trace, nextToken) == old(TableList(db, e, nextToken))
    {
      var resolved := OpenConnection(db, e);
      if !resolved.Done? {
        return resolved.PropagateFailure(), [];
      }
      var c := resolved.value;
      trace := Traced(c, TableNamesSql);
      var answer := e.tableNames(c.location);
      if answer.SqlError? {
        return Threw(answer.message), trace;
      }
      var tableNames := answer.value;
      ghost var token := nextToken;
      ghost var spec := DescribeTables(c, e, tableNames, token);
      assert old(TableList(db, e, nextToken)) == Step(spec.outcome, trace + spec.trace, spec.nextToken);
      var tablesData: seq<Json> := [];
      var tablesTrace: seq<string> := [];
      var t := 0;
      while t < |tableNames|
        invariant 0 <= t <= |tableNames|
        invariant DescribeTables(c, e, tableNames[..t], token) == Step(Done(tablesData), tablesTrace, nextToken)
      {
        DescribeTablesSnoc(c, e, tableNames, t, token);
        var descriptor, tableTrace := TableDescriptor(c, tableNames[t], e);
        tablesTrace := tablesTrace + tableTrace;
        if !descriptor.Done? {
          DescribeTablesStops(c, e, tableNames, t + 1, token);
          return descriptor.PropagateFailure(), trace + tablesTrace;
        }
        tablesData := tablesData + [descriptor.value];
        t := t + 1;
      }
      assert tableNames[..|tableNames|] == tableNames;
      r, trace := Done(tablesData), trace + tablesTrace;
    }

    /** The body of the loop over table names in `getTableList(db:)`: the
        `table_info` rows become column entries, each drawing an
        identifier, then the row count is read and the descriptor drawn. */
    method TableDescriptor(c: Connection, tableName: string, e: Engine) returns (r: Outcome<Json>, trace: seq<string>)
      modifies this`nextToken
      ensures Step(r, trace, nextToken) == DescribeTable(c, e, tableName, old(nextToken))
    {
      var start := nextToken;
      trace := Traced(c, TableInfoSql(tableName));
      var infoAnswer := e.tableInfo(c.location, tableName);
      if infoAnswer.SqlError? {
        return Threw(infoAnswer.message), trace;
      }
      var rows := infoAnswer.value;
      var infos: seq<Json> := [];
      var k := 0;
      while k < |rows|
        invariant 0 <= k <= |rows|
        invariant nextToken == start + k
        invariant infos == ColumnEntries(rows[..k], start)
      {
        var info := TableInfoExtractor(rows[k]);
        var id := FreshToken();
        info := info["__id" := Uuid(id)];
        ColumnEntriesSnoc(rows, k, start);
        infos := infos + [Obj(info)];
        k := k + 1;
      }
      assert rows[..|rows|] == rows;
      trace := trace + Traced(c, CountSql(tableName));
      var countAnswer := e.count(c.location, tableName);
      if countAnswer.SqlError? {
        return Fatal(countAnswer.message), trace;
      }
      var count := countAnswer.value.GetOr(0);
      var id := FreshToken();
      var descriptor := Obj(map[
        "__id" := Uuid(id),
        "tableName" := Str(tableName),
        "count" := Int(count),
        "columns" := Arr(infos)]);
      assert Descriptor(tableName, rows, count, start) == descriptor;
      r := Done(descriptor);
    }

    /** What `getTableData(...)` does, drawing identifiers from `token` on. */
    function TableData(db: string, table: string, limit: Option<string>, offset: Option<string>,
                       order: Option<string>, clause: Option<string>, e: Engine, token: nat): Step<map<string, Json>>
      reads this
    {
      match OpenConnection(db, e)
      case Done(c) =>
        var s := Select(c, e, TableQuery(table, limit, offset, order, clause), token);
        if s.outcome.Done? then Step(Done(s.outcome.value["__id" := Uuid(s.nextToken)]), s.trace, s.nextToken + 1)
        else s
      case Threw(m) => Step(Threw(m), [], token)
      case Fatal(m) => Step(Fatal(m), [], token)
    }

    /** `getTableData(db:table:limit:offset:order:clause:)`. */
    method GetTableData(db: string, table: string, limit: Option<string>, offset: Option<string>,
                        order: Option<string>, clause: Option<string>, e: Engine)
      returns (r: Outcome<map<string, Json>>, trace: seq<string>)
      modifies this`nextToken
      ensures Step(r, trace, nextToken) == old(TableData(db, table, limit, offset, order, clause, e, nextToken))
    {
      var resolved := OpenConnection(db, e);
      if !resolved.Done? {
        return resolved.PropagateFailure(), [];
      }
      var connection := resolved.value;
      var query := "SELECT * FROM '" + table + "'";
      ghost var before := query;
      if clause.Some? { AppendClause(query, " WHERE ", clause); query := query + " WHERE " + clause.value; }
      assert query == before + Clause(" WHERE ", clause);
      before := query;
      if order.Some? { AppendClause(query, " ORDER BY ", order); query := query + " ORDER BY " + order.value; }
      assert query == before + Clause(" ORDER BY ", order);
      before := query;
      if limit.Some? { AppendClause(query, " LIMIT ", limit); query := query + " LIMIT " + limit.value; }
      assert query == before + Clause(" LIMIT ", limit);
      before := query;
      if offset.Some? { AppendClause(query, " OFFSET ", offset); query := query + " OFFSET " + offset.value; }
      assert query == before + Clause(" OFFSET ", offset);
      assert query == TableQuery(table, limit, offset, order, clause);

      r, trace := SelectQuery(connection, query, e);
      if r.Done? {
        var id := FreshToken();
        r := Done(r.value["__id" := Uuid(id)]);
      }
    }

    /** What `executeRawQuery(db:query:)` does, drawing identifiers from `token` on. */
    function RawQuery(db: string, query: string, e: Engine, token: nat): Step<map<string, Json>>
      reads this
    {
      match OpenConnection(db, e)
      case Done(c) =>
        if IsSelect(query) then Select(c, e, query, token)
        else
          (match e.run(c.location, query)
           case SqlError(m) => Step(Threw(m), Traced(c, query), token)
           case Answer(changes) => Step(Done(map["affected_rows" := Int(changes)]), Traced(c, query), token))
      case Threw(m) => Step(Threw(m), [], token)
      case Fatal(m) => Step(Fatal(m), [], token)
    }

    /** `executeRawQuery(db:query:)`. */
    method ExecuteRawQuery(db: string, query: string, e: Engine) returns (r: Outcome<map<string, Json>>, trace: seq<string>)
      modifies this`nextToken
      ensures Step(r, trace, nextToken) == old(RawQuery(db, query, e, nextToken))
    {
      var resolved := OpenConnection(db, e);
      if !resolved.Done? {
        return resolved.PropagateFailure(), [];
      }
      var connection := resolved.value;
      if IsSelect(query) {
        r, trace := SelectQuery(connection, query, e);
        return;
      }
      trace := Traced(connection, query);
      var answer := e.run(connection.location, query);
      if answer.SqlError? {
        return Threw(answer.message), trace;
      }
      r := Done(map["affected_rows" := Int(answer.value)]);
    }

    /** `selectQuery(db:query:)`: every result row is shaped, each drawing an identifier. */
    method SelectQuery(connection: Connection, query: string, e: Engine)
      returns (r: Outcome<map<string, Json>>, trace: seq<string>)
      modifies this`nextToken
      ensures Step(r, trace, nextToken) == Select(connection, e, query, old(nextToken))
    {
      trace := Traced(connection, query);
      var answer := e.query(connection.location, query);
      if answer.SqlError? {
        return Threw(answer.message), trace;
      }
      var rows := answer.value;
      var start := nextToken;
      var columnNames: seq<seq<string>> := [];
      var values: seq<Json> := [];
      var i := 0;
      while i < |rows|
        invariant 0 <= i <= |rows|
        invariant nextToken == start + i
        invariant |columnNames| == i
        invariant forall k | 0 <= k < i :: columnNames[k] == ColumnNames(rows[k])
        invariant values == seq(i, k requires 0 <= k < i => Obj(RowDict(rows[k])["__id" := Uuid(start + k)]))
      {
        var id := FreshToken();
        var names, dict := ColumnsValues(rows[i], id);
        columnNames := columnNames + [names];
        values := values + [Obj(dict)];
        i := i + 1;
      }
      if rows == [] {
        return Done(map[]), trace;
      }
      assert columnNames[0] == ColumnNames(rows[0]);
      r := Done(map["columns" := Arr(Strings(columnNames[0])), "rows" := Arr(values)]);
      assert r.value == SelectData(rows, start);
    }
  }

  // ---------------------------------------------------------------------------
  // Properties of the controller as a whole

  /** With an injected connection, every name resolves to it, configured or
      not, and a connection without the listener traces nothing: in that
      set-up no statement is ever traced. */
  lemma InjectedConnectionIsNeverTraced(dbc: DatabaseController, db: string, table: string,
                                        limit: Option<string>, offset: Option<string>, order: Option<string>,
                                        clause: Option<string>, e: Engine, token: nat)
    requires dbc.inMemoryConnection.Some? && !dbc.inMemoryConnection.value.traced
    ensures dbc.OpenConnection(db, e) == Done(dbc.inMemoryConnection.value)
    ensures dbc.TableList(db, e, token).trace == []
    ensures dbc.TableData(db, table, limit, offset, order, clause, e, token).trace == []
  {
    var c := dbc.inMemoryConnection.value;
    if e.tableNames(c.location).Answer? {
      UntracedTables(c, e, e.tableNames(c.location).value, token);
    }
  }

  lemma {:induction false} UntracedTables(c: Connection, e: Engine, names: seq<string>, token: nat)
    requires !c.traced
    ensures DescribeTables(c, e, names, token).trace == []
    decreases |names|
  {
    if names != [] {
      UntracedTables(c, e, names[..|names| - 1], token);
    }
  }

  /** On a registry without an injected connection and with the listener
      installed, a `rows` request traces exactly one statement: the query
      it built. */
  lemma TableDataTracesItsQuery(dbc: DatabaseController, db: string, table: string,
                                limit: Option<string>, offset: Option<string>, order: Option<string>,
                                clause: Option<string>, e: Engine, token: nat)
    requires dbc.inMemoryConnection.None? && dbc.listening
    requires db in dbc.mappedDbNames && e.openError(dbc.mappedDbNames[db]).None?
    ensures dbc.TableData(db, table, limit, offset, order, clause, e, token).trace
         == [TableQuery(table, limit, offset, order, clause)]
  {
  }

  /** A `rows` payload: the query's payload plus an `__id` drawn after the
      rows' own, so an empty result gives a dictionary holding only `__id`. */
  lemma TableDataShape(dbc: DatabaseController, db: string, table: string,
                       limit: Option<string>, offset: Option<string>, order: Option<string>,
                       clause: Option<string>, e: Engine, token: nat)
    requires dbc.TableData(db, table, limit, offset, order, clause, e, token).outcome.Done?
    ensures var s := dbc.TableData(db, table, limit, offset, order, clause, e, token);
      var c := dbc.OpenConnection(db, e).value;
      var rows := e.query(c.location, TableQuery(table, limit, offset, order, clause)).value;
      && s.outcome.value == SelectData(rows, token)["__id" := Uuid(token + |rows|)]
      && s.nextToken == token + |rows| + 1
      && (rows == [] ==> s.outcome.value == map["__id" := Uuid(token)])
  {
  }

  /** A `rows` payload holding a row whose last column is a blob, under any
      name but `__id`, cannot be encoded. */
  lemma TableDataWithBlob(dbc: DatabaseController, db: string, table: string,
                          limit: Option<string>, offset: Option<string>, order: Option<string>,
                          clause: Option<string>, e: Engine, token: nat, i: nat)
    requires dbc.TableData(db, table, limit, offset, order, clause, e, token).outcome.Done?
    requires var c := dbc.OpenConnection(db, e).value;
      var rows := e.query(c.location, TableQuery(table, limit, offset, order, clause)).value;
      && i < |rows| && |rows[i]| > 0
      && rows[i][|rows[i]| - 1].value.Blob? && rows[i][|rows[i]| - 1].name != "__id"
    ensures !Serializable(Obj(dbc.TableData(db, table, limit, offset, order, clause, e, token).outcome.value))
  {
    TableDataShape(dbc, db, table, limit, offset, order, clause, e, token);
    var c := dbc.OpenConnection(db, e).value;
    var rows := e.query(c.location, TableQuery(table, limit, offset, order, clause)).value;
    SelectDataWithBlob(rows, token, i);
    SelectDataShape(rows, token, i, "");
    SerializableInsert(SelectData(rows, token), "__id", Uuid(token + |rows|));
  }

  /** `executeRawQuery` takes the query path exactly when the lower-cased
      text contains "select"; otherwise the only key is `affected_rows`. */
  lemma RawQueryPaths(dbc: DatabaseController, db: string, query: string, e: Engine, token: nat)
    requires dbc.OpenConnection(db, e).Done?
    ensures var c := dbc.OpenConnection(db, e).value;
      && (IsSelect(query) ==> dbc.RawQuery(db, query, e, token) == Select(c, e, query, token))
      && (!IsSelect(query) && dbc.RawQuery(db, query, e, token).outcome.Done? ==>
            dbc.RawQuery(db, query, e, token).outcome.value.Keys == {"affected_rows"}
            && dbc.RawQuery(db, query, e, token).outcome.value["affected_rows"] == Int(e.run(c.location, query).value))
  {
  }
}
