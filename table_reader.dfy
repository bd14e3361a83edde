/**
 * The generic listing endpoint `GET /api/v1/{table_name}`: it finds the table
 * in a fixed registry, turns `column__operator` keys into predicates, applies an
 * optional `column[:direction]` ordering and a row limit, and renders each row
 * as a mapping from every declared column to its value.
 */
module TableReader {
  import opened Wrappers
  import opened Sql
  import opened Strings

  /** The sixteen tables the endpoint serves. */
  datatype TableName =
    | Profiles | UserRoles | ProfilePhotos | Nannies | NannyServices | NannyEducation
    | NannyLanguages | NannyAgeExperience | Certificates | SavedParents | Parents
    | ParentChildren | ParentRequirements | SavedNannies | Bookings | Reviews

  /** The registry: the path segment that names each table. */
  const TableMap: map<string, TableName> := map[
    "profiles" := Profiles,
    "user_roles" := UserRoles,
    "profile_photos" := ProfilePhotos,
    "nannies" := Nannies,
    "nanny_services" := NannyServices,
    "nanny_education" := NannyEducation,
    "nanny_languages" := NannyLanguages,
    "nanny_age_experience" := NannyAgeExperience,
    "certificates" := Certificates,
    "saved_parents" := SavedParents,
    "parents" := Parents,
    "parent_children" := ParentChildren,
    "parent_requirements" := ParentRequirements,
    "saved_nannies" := SavedNannies,
    "bookings" := Bookings,
    "reviews" := Reviews]

  /** The path segment that names each table in the registry. */
  function NameOf(t: TableName): string {
    match t
    case Profiles => "profiles"
    case UserRoles => "user_roles"
    case ProfilePhotos => "profile_photos"
    case Nannies => "nannies"
    case NannyServices => "nanny_services"
    case NannyEducation => "nanny_education"
    case NannyLanguages => "nanny_languages"
    case NannyAgeExperience => "nanny_age_experience"
    case Certificates => "certificates"
    case SavedParents => "saved_parents"
    case Parents => "parents"
    case ParentChildren => "parent_children"
    case ParentRequirements => "parent_requirements"
    case SavedNannies => "saved_nannies"
    case Bookings => "bookings"
    case Reviews => "reviews"
  }

  /** Every table is registered under its name, and each registered name names one table. */
  lemma RegistryNames(t: TableName, name: string)
    ensures NameOf(t) in TableMap && TableMap[NameOf(t)] == t
    ensures name in TableMap ==> NameOf(TableMap[name]) == name
  {
  }

  /** A row: column name to value. */
  type Row = map<string, Cell>

  /** A table: its declared columns in declaration order and its rows in storage order. */
  datatype Table = Table(columns: seq<string>, rows: seq<Row>)

  /** The value of a column in a row; a column the row lacks reads as NULL. */
  function Get(row: Row, column: string): Cell {
    if column in row then row[column] else Null
  }

  /** A filter value: one value, or a list of them. */
  datatype Value = Scalar(c: Cell) | ListOf(items: seq<Cell>)

  /** A condition on one column. */
  datatype Pred = Equals(column: string, value: Cell) | OneOf(column: string, values: seq<Cell>)

  /**
   * `column == value` (which SQLAlchemy turns into `IS NULL` for a NULL value),
   * or `column IN (...)`, which no NULL satisfies.
   */
  predicate Holds(p: Pred, row: Row) {
    match p
    case Equals(column, v) => Get(row, column) == v
    case OneOf(column, vs) => Get(row, column) != Null && Get(row, column) in vs
  }

  /** `column == NULL` asks for a NULL cell; `IN` never holds of a NULL cell, even with NULL in the list. */
  lemma HoldsWithNull(column: string, row: Row, vs: seq<Cell>)
    ensures Holds(Equals(column, Null), row) <==> Get(row, column) == Null
    ensures Get(row, column) == Null ==> !Holds(OneOf(column, vs), row)
    ensures Get(row, column) != Null ==> (Holds(OneOf(column, vs), row) <==> Get(row, column) in vs)
  {
  }

  /** All conditions hold: the filters combine with AND. */
  function AllHold(preds: seq<Pred>): Row -> bool {
    row => forall p :: p in preds ==> Holds(p, row)
  }

  /** Why the endpoint answers with an error instead of rows. */
  datatype ListError =
    | InvalidLimit           // outside [1, 1000], refused by parameter validation
    | TableNotFound(name: string)
    | InternalError          // an operand SQLAlchemy or the database cannot use

  /** The status code of each error response. */
  function Status(e: ListError): int {
    match e
    case InvalidLimit => 422
    case TableNotFound(_) => 404
    case InternalError => 500
  }

  // ---------------------------------------------------------------------------
  // Filters

  function TextCells(pieces: seq<string>): (r: seq<Cell>)
    ensures |r| == |pieces|
    ensures forall k :: 0 <= k < |r| ==> r[k] == Text(pieces[k])
  {
    if pieces == [] then [] else [Text(pieces[0])] + TextCells(pieces[1..])
  }

  /**
   * What one filter key adds to the query: nothing when the key holds no `"__"`,
   * names no column of the table, or has an operator other than `eq` and `in`.
   * A text operand of `in` is split on commas, without stripping.
   */
  function FilterOf(key: string, value: Value, columns: seq<string>): (r: Result<Option<Pred>, ListError>)
    ensures r.Err? ==> r.error == InternalError
  {
    if FirstPair(key).None? then Ok(None)
    else
      var (column, operator) := SplitAtPair(key);
      if column !in columns then Ok(None)
      else if operator == "eq" then
        match value
        case Scalar(c) => Ok(Some(Equals(column, c)))
        case ListOf(_) => Err(InternalError)
      else if operator == "in" then
        match value
        case Scalar(Text(s)) => Ok(Some(OneOf(column, TextCells(Split(s, ',')))))
        case Scalar(_) => Err(InternalError)
        case ListOf(items) => Ok(Some(OneOf(column, items)))
      else Ok(None)
  }

  /** The conditions of all filters in the order given, or the first failure. */
  function FiltersOf(filters: seq<(string, Value)>, columns: seq<string>): (r: Result<seq<Pred>, ListError>)
    ensures r.Err? ==> r.error == InternalError
  {
    if filters == [] then Ok([])
    else
      var last := filters[|filters| - 1];
      match FiltersOf(filters[..|filters| - 1], columns)
      case Err(e) => Err(e)
      case Ok(preds) =>
        match FilterOf(last.0, last.1, columns)
        case Err(e) => Err(e)
        case Ok(None) => Ok(preds)
        case Ok(Some(p)) => Ok(preds + [p])
  }

  /** A key without `"__"`, on an unknown column, or with an unknown operator is ignored. */
  lemma FilterOfIgnored(key: string, value: Value, columns: seq<string>)
    ensures FirstPair(key).None? ==> FilterOf(key, value, columns) == Ok(None)
    ensures FirstPair(key).Some? && SplitAtPair(key).0 !in columns ==> FilterOf(key, value, columns) == Ok(None)
    ensures FirstPair(key).Some? && SplitAtPair(key).1 != "eq" && SplitAtPair(key).1 != "in" ==>
      FilterOf(key, value, columns) == Ok(None)
  {
  }

  /**
   * `column__eq` and `column__in` on a declared column whose name holds no
   * `"__"` and does not end with `'_'` build the matching condition.
   */
  lemma FilterOfColumn(column: string, columns: seq<string>, c: Cell, s: string, items: seq<Cell>)
    requires column in columns
    requires forall k :: !PairAt(column, k)
    requires column != [] ==> column[|column| - 1] != '_'
    ensures FilterOf(column + "__eq", Scalar(c), columns) == Ok(Some(Equals(column, c)))
    ensures FilterOf(column + "__in", Scalar(Text(s)), columns) == Ok(Some(OneOf(column, TextCells(Split(s, ',')))))
    ensures FilterOf(column + "__in", ListOf(items), columns) == Ok(Some(OneOf(column, items)))
  {
    SplitAtPairOfJoined(column, "eq");
    SplitAtPairOfJoined(column, "in");
    assert column + "__eq" == column + "__" + "eq";
    assert column + "__in" == column + "__" + "in";
  }

  /** `a__b__c` is column `a` with operator `b__c`, which is ignored. */
  lemma FilterOfDoubleSeparator(value: Value, columns: seq<string>)
    ensures SplitAtPair("a__b__c") == ("a", "b__c")
    ensures FilterOf("a__b__c", value, columns) == Ok(None)
  {
    SplitAtPairOfJoined("a", "b__c");
    assert "a" + "__" + "b__c" == "a__b__c";
  }

  /** A filter that adds nothing leaves the query as it was. */
  lemma {:induction false} FiltersOfIgnored(filters: seq<(string, Value)>, key: string, value: Value, columns: seq<string>)
    requires FilterOf(key, value, columns) == Ok(None)
    ensures FiltersOf(filters + [(key, value)], columns) == FiltersOf(filters, columns)
  {
    var fs := filters + [(key, value)];
    assert fs[..|fs| - 1] == filters;
  }

  /** A filter that adds nothing can sit anywhere in the list without changing the query. */
  lemma {:induction false} FiltersOfIgnoredWithin(a: seq<(string, Value)>, key: string, value: Value,
                                                  b: seq<(string, Value)>, columns: seq<string>)
    requires FilterOf(key, value, columns) == Ok(None)
    ensures FiltersOf(a + [(key, value)] + b, columns) == FiltersOf(a + b, columns)
    decreases |b|
  {
    if b == [] {
      assert a + [(key, value)] + b == a + [(key, value)];
      assert a + b == a;
      FiltersOfIgnored(a, key, value, columns);
    } else {
      var init := b[..|b| - 1];
      var withKey := a + [(key, value)] + b;
      var withoutKey := a + b;
      assert withKey[..|withKey| - 1] == a + [(key, value)] + init;
      assert withoutKey[..|withoutKey| - 1] == a + init;
      assert withKey[|withKey| - 1] == withoutKey[|withoutKey| - 1] == b[|b| - 1];
      FiltersOfIgnoredWithin(a, key, value, init, columns);
    }
  }

  /** The condition of every key that adds one is among the conditions of the list. */
  lemma {:induction false} FiltersOfContains(filters: seq<(string, Value)>, columns: seq<string>, k: nat, p: Pred)
    requires FiltersOf(filters, columns).Ok?
    requires k < |filters| && FilterOf(filters[k].0, filters[k].1, columns) == Ok(Some(p))
    ensures p in FiltersOf(filters, columns).value
  {
    var init := filters[..|filters| - 1];
    if k < |filters| - 1 {
      assert init[k] == filters[k];
      FiltersOfContains(init, columns, k, p);
    }
  }

  /** Every condition of the list is the condition of one of its keys. */
  lemma {:induction false} FiltersOfFromKeys(filters: seq<(string, Value)>, columns: seq<string>, p: Pred)
    requires FiltersOf(filters, columns).Ok?
    requires p in FiltersOf(filters, columns).value
    ensures exists k :: 0 <= k < |filters| && FilterOf(filters[k].0, filters[k].1, columns) == Ok(Some(p))
  {
    var n := |filters| - 1;
    var init := filters[..n];
    var last := filters[n];
    if FilterOf(last.0, last.1, columns) != Ok(Some(p)) {
      FiltersOfFromKeys(init, columns, p);
      var k :| 0 <= k < |init| && FilterOf(init[k].0, init[k].1, columns) == Ok(Some(p));
      assert filters[k] == init[k];
    }
  }

  /** Once a filter fails, so does the whole list. */
  lemma {:induction false} FiltersOfFailure(filters: seq<(string, Value)>, n: nat, columns: seq<string>)
    requires n <= |filters|
    requires FiltersOf(filters[..n], columns).Err?
    ensures FiltersOf(filters, columns).Err?
    decreases |filters| - n
  {
    if n < |filters| {
      var fs := filters[..n + 1];
      assert fs[..|fs| - 1] == filters[..n];
      FiltersOfFailure(filters, n + 1, columns);
    } else {
      assert filters[..n] == filters;
    }
  }

  /** Every condition comes from a filter on a declared column. */
  lemma {:induction false} FiltersOfColumns(filters: seq<(string, Value)>, columns: seq<string>)
    requires FiltersOf(filters, columns).Ok?
    ensures forall p :: p in FiltersOf(filters, columns).value ==> p.column in columns
  {
    if filters != [] {
      FiltersOfColumns(filters[..|filters| - 1], columns);
    }
  }

  // ---------------------------------------------------------------------------
  // Ordering

  datatype Ordering = Ordering(column: string, dir: Direction)

  /**
   * `order_by` is `column` or `column:direction`; only `desc` sorts descending,
   * and a column the table lacks gives no ordering.
   */
  function OrderingOf(orderBy: Option<string>, columns: seq<string>): (r: Option<Ordering>)
    ensures r.Some? ==> orderBy.Some? && orderBy.value != "" && r.value.column in columns
    ensures r.Some? ==> ':' !in r.value.column
  {
    if orderBy.None? || orderBy.value == "" then None
    else
      var parts := Split(orderBy.value, ':');
      var column := parts[0];
      var direction := if |parts| > 1 then parts[1] else "asc";
      if column in columns then Some(Ordering(column, if direction == "desc" then Desc else Asc))
      else None
  }

  /**
   * `column` sorts ascending; `column:d` sorts descending exactly when `d` is
   * `desc`, and so does `column:d:rest`, whose further parts are never read.
   */
  lemma OrderingOfColumn(column: string, d: string, rest: string, columns: seq<string>)
    requires column != [] && ':' !in column && ':' !in d
    ensures OrderingOf(Some(column), columns) == if column in columns then Some(Ordering(column, Asc)) else None
    ensures OrderingOf(Some(column + [':'] + d), columns) ==
      if column in columns then Some(Ordering(column, if d == "desc" then Desc else Asc)) else None
    ensures OrderingOf(Some(column + [':'] + d + [':'] + rest), columns) ==
      if column in columns then Some(Ordering(column, if d == "desc" then Desc else Asc)) else None
  {
    SplitWithoutSeparator(column, ':');
    SplitAtFirst(column, d, ':');
    SplitWithoutSeparator(d, ':');
    assert column + [':'] + d + [':'] + rest == column + [':'] + (d + [':'] + rest);
    SplitAtFirst(column, d + [':'] + rest, ':');
    SplitAtFirst(d, rest, ':');
  }

  function RowKey(column: string): Row -> Cell {
    row => Get(row, column)
  }

  // ---------------------------------------------------------------------------
  // The query

  /** `WHERE` all conditions, then `ORDER BY`, then `LIMIT`. */
  function Select(rows: seq<Row>, preds: seq<Pred>, order: Option<Ordering>, limit: nat): (r: seq<Row>)
    ensures |r| == Min(limit, |Filter(rows, AllHold(preds))|)
  {
    var m := Filter(rows, AllHold(preds));
    Take(if order.Some? then SortBy(m, RowKey(order.value.column), order.value.dir) else m, limit)
  }

  /**
   * The result holds `limit` rows, or every matching row when fewer match, all
   * of them rows of the table that meet every condition, none more often than
   * the table holds it; it is in the requested order, and when the matching rows
   * fit the limit, it holds all of them.
   */
  lemma SelectMeaning(rows: seq<Row>, preds: seq<Pred>, order: Option<Ordering>, limit: nat)
    ensures |Select(rows, preds, order, limit)| == Min(limit, |Filter(rows, AllHold(preds))|)
    ensures forall r :: r in Select(rows, preds, order, limit) ==> r in rows && AllHold(preds)(r)
    ensures multiset(Select(rows, preds, order, limit)) <= multiset(Filter(rows, AllHold(preds)))
    ensures order.Some? ==> SortedBy(Select(rows, preds, order, limit), RowKey(order.value.column), order.value.dir)
    ensures |Filter(rows, AllHold(preds))| <= limit ==>
      multiset(Select(rows, preds, order, limit)) == multiset(Filter(rows, AllHold(preds)))
  {
    var m := Filter(rows, AllHold(preds));
    var s := if order.Some? then SortBy(m, RowKey(order.value.column), order.value.dir) else m;
    assert multiset(s) == multiset(m) && forall x :: x in s <==> x in m;
    TakeSubset(s, limit);
    if order.Some? {
      TakeOfSorted(s, limit, RowKey(order.value.column), order.value.dir);
    }
  }

  /**
   * Under an ordering, LIMIT keeps the first rows: every matching row it drops
   * may come after every row it keeps.
   */
  lemma SelectKeepsFirst(rows: seq<Row>, preds: seq<Pred>, order: Ordering, limit: nat)
    ensures var kept := Select(rows, preds, Some(order), limit);
      forall x, k | x in multiset(Filter(rows, AllHold(preds))) - multiset(kept) && 0 <= k < |kept| ::
        Before(Get(kept[k], order.column), Get(x, order.column), order.dir)
  {
    var m := Filter(rows, AllHold(preds));
    var s := SortBy(m, RowKey(order.column), order.dir);
    TakeOfSorted(s, limit, RowKey(order.column), order.dir);
  }

  /** With no conditions, no ordering and room for every row, the table comes back as stored. */
  lemma SelectUnfiltered(rows: seq<Row>, limit: nat)
    requires |rows| <= limit
    ensures Select(rows, [], None, limit) == rows
  {
    FilterAgrees(rows, AllHold([]), _ => true);
    FilterEverything(rows);
  }

  lemma {:induction false} FilterEverything(rows: seq<Row>)
    ensures Filter(rows, _ => true) == rows
  {
    if rows != [] {
      FilterEverything(rows[1..]);
    }
  }

  // ---------------------------------------------------------------------------
  // Projection

  /** A value as the response carries it: `isoformat()` text for dates and times, the value otherwise. */
  datatype OutCell = Plain(c: Cell) | IsoText(m: Moment)

  /** Values with an `isoformat` method are rendered through it; the text format itself is left abstract. */
  function Render(c: Cell): (r: OutCell)
    ensures r.IsoText? <==> c.At?
    ensures r.Plain? ==> r.c == c
    ensures r.IsoText? ==> c == At(r.m)
  {
    if c.At? then IsoText(c.m) else Plain(c)
  }

  type OutRow = map<string, OutCell>

  /** The response row: every declared column, rendered. */
  function ProjectRow(columns: seq<string>, row: Row): (r: OutRow)
    ensures r.Keys == set c | c in columns
    ensures forall c :: c in columns ==> r[c] == Render(Get(row, c))
  {
    if columns == [] then map[]
    else
      var last := columns[|columns| - 1];
      var init := columns[..|columns| - 1];
      assert forall c :: c in columns <==> c in init || c == last;
      ProjectRow(init, row)[last := Render(Get(row, last))]
  }

  function ProjectRows(columns: seq<string>, rows: seq<Row>): (r: seq<OutRow>)
    ensures |r| == |rows|
    ensures forall k :: 0 <= k < |rows| ==> r[k] == ProjectRow(columns, rows[k])
  {
    if rows == [] then [] else ProjectRows(columns, rows[..|rows| - 1]) + [ProjectRow(columns, rows[|rows| - 1])]
  }

  /** One more column adds its rendered value to the response row. */
  lemma ProjectRowExtend(columns: seq<string>, j: nat, row: Row)
    requires j < |columns|
    ensures ProjectRow(columns[..j + 1], row) == ProjectRow(columns[..j], row)[columns[j] := Render(Get(row, columns[j]))]
  {
    var c := columns[..j + 1];
    assert c[..|c| - 1] == columns[..j];
    assert c[|c| - 1] == columns[j];
  }

  /** One more row adds its response row at the end. */
  lemma ProjectRowsExtend(columns: seq<string>, rows: seq<Row>, k: nat)
    requires k < |rows|
    ensures ProjectRows(columns, rows[..k + 1]) == ProjectRows(columns, rows[..k]) + [ProjectRow(columns, rows[k])]
  {
    var r := rows[..k + 1];
    assert r[..|r| - 1] == rows[..k];
    assert r[|r| - 1] == rows[k];
  }

  // ---------------------------------------------------------------------------
  // The endpoint

  /** The response of `list_rows`, as a function of its inputs. */
  function List(catalog: TableName -> Table, tableName: string, limit: int, orderBy: Option<string>,
                filters: seq<(string, Value)>): Result<seq<OutRow>, ListError>
  {
    if limit < 1 || limit > 1000 then Err(InvalidLimit)
    else if tableName !in TableMap then Err(TableNotFound(tableName))
    else
      var table := catalog(TableMap[tableName]);
      match FiltersOf(filters, table.columns)
      case Err(e) => Err(e)
      case Ok(preds) =>
        Ok(ProjectRows(table.columns, Select(table.rows, preds, OrderingOf(orderBy, table.columns), limit)))
  }

  /** The filter loop: each key in turn adds its condition, or fails the request. */
  method Conditions(filters: seq<(string, Value)>, columns: seq<string>) returns (r: Result<seq<Pred>, ListError>)
    ensures r == FiltersOf(filters, columns)
  {
    var preds: seq<Pred> := [];
    var i := 0;
    while i < |filters|
      invariant 0 <= i <= |filters|
      invariant FiltersOf(filters[..i], columns) == Ok(preds)
    {
      var (key, value) := filters[i];
      var next := filters[..i + 1];
      assert next[..i] == filters[..i] && next[i] == (key, value);
      var p := FilterOf(key, value, columns);
      if p.Err? {
        assert FiltersOf(next, columns).Err?;
        FiltersOfFailure(filters, i + 1, columns);
        return Err(InternalError);
      }
      if p.value.Some? {
        preds := preds + [p.value.value];
      }
      i := i + 1;
    }
    assert filters[..i] == filters;
    r := Ok(preds);
  }

  /** The conversion loop: one response row per result row, one entry per declared column. */
  method Project(columns: seq<string>, rows: seq<Row>) returns (data: seq<OutRow>)
    ensures data == ProjectRows(columns, rows)
  {
    data := [];
    var k := 0;
    while k < |rows|
      invariant 0 <= k <= |rows|
      invariant data == ProjectRows(columns, rows[..k])
    {
      var item: OutRow := map[];
      var j := 0;
      while j < |columns|
        invariant 0 <= j <= |columns|
        invariant item == ProjectRow(columns[..j], rows[k])
      {
        var column := columns[j];
        ProjectRowExtend(columns, j, rows[k]);
        item := item[column := Render(Get(rows[k], column))];
        j := j + 1;
      }
      assert columns[..j] == columns;
      ProjectRowsExtend(columns, rows, k);
      data := data + [item];
      k := k + 1;
    }
    assert rows[..k] == rows;
  }

  /**
   * `list_rows`. `select` is accepted and unused, as in the handler. `catalog`
   * gives the contents of each registered table.
   */
  method ListRows(catalog: TableName -> Table, tableName: string, select: Option<string>, limit: int := 100,
                  orderBy: Option<string>, filters: seq<(string, Value)>)
    returns (r: Result<seq<OutRow>, ListError>)
    ensures r == List(catalog, tableName, limit, orderBy, filters)
    ensures (limit < 1 || limit > 1000) ==> r == Err(InvalidLimit)
    ensures 1 <= limit <= 1000 && tableName !in TableMap ==> r == Err(TableNotFound(tableName))
    ensures r.Ok? ==> var table := catalog(TableMap[tableName]);
      FiltersOf(filters, table.columns).Ok? &&
      |r.value| == Min(limit, |Filter(table.rows, AllHold(FiltersOf(filters, table.columns).value))|)
    ensures r.Ok? ==> forall k :: 0 <= k < |r.value| ==> r.value[k].Keys == set c | c in catalog(TableMap[tableName]).columns
  {
    if limit < 1 || limit > 1000 {
      return Err(InvalidLimit);
    }
    if tableName !in TableMap {
      return Err(TableNotFound(tableName));
    }
    var table := catalog(TableMap[tableName]);
    var preds := Conditions(filters, table.columns);
    if preds.Err? {
      return Err(preds.error);
    }
    var order := OrderingOf(orderBy, table.columns);
    var rows := Filter(table.rows, AllHold(preds.value));
    if order.Some? {
      rows := SortBy(rows, RowKey(order.value.column), order.value.dir);
    }
    rows := Take(rows, limit);
    var data := Project(table.columns, rows);
    r := Ok(data);
  }

  /** An unknown table name is refused whatever else the request holds. */
  lemma UnknownTable(catalog: TableName -> Table, tableName: string, limit: int, orderBy: Option<string>,
                     filters: seq<(string, Value)>)
    requires 1 <= limit <= 1000
    requires tableName !in TableMap
    ensures List(catalog, tableName, limit, orderBy, filters) == Err(TableNotFound(tableName))
    ensures Status(List(catalog, tableName, limit, orderBy, filters).error) == 404
  {
  }

  /**
   * A filter the endpoint ignores (say `bogus__eq=5` on a table without a
   * `bogus` column) gives the same response as leaving it out.
   */
  lemma IgnoredFilterNoOp(catalog: TableName -> Table, tableName: string, limit: int, orderBy: Option<string>,
                          before: seq<(string, Value)>, key: string, value: Value, after: seq<(string, Value)>)
    requires tableName in TableMap
    requires FilterOf(key, value, catalog(TableMap[tableName]).columns) == Ok(None)
    ensures List(catalog, tableName, limit, orderBy, before + [(key, value)] + after)
         == List(catalog, tableName, limit, orderBy, before + after)
  {
    FiltersOfIgnoredWithin(before, key, value, after, catalog(TableMap[tableName]).columns);
  }

  /** A condition among the request's conditions holds of the row behind every response row. */
  lemma ResponseHolds(table: Table, preds: seq<Pred>, order: Option<Ordering>, limit: nat, p: Pred)
    requires p in preds
    ensures forall o :: o in ProjectRows(table.columns, Select(table.rows, preds, order, limit)) ==>
      exists row :: Holds(p, row) && o == ProjectRow(table.columns, row)
  {
    ResponseMeaning(table, preds, order, limit);
    var out := ProjectRows(table.columns, Select(table.rows, preds, order, limit));
    forall o | o in out
      ensures exists row :: Holds(p, row) && o == ProjectRow(table.columns, row)
    {
      var j :| 0 <= j < |out| && out[j] == o;
      var row :| row in table.rows && AllHold(preds)(row) && out[j] == ProjectRow(table.columns, row);
      assert Holds(p, row);
    }
  }

  /** The response of a request to a registered table whose filters all parse. */
  lemma ListOk(catalog: TableName -> Table, tableName: string, limit: int, orderBy: Option<string>,
               filters: seq<(string, Value)>)
    requires tableName in TableMap
    requires List(catalog, tableName, limit, orderBy, filters).Ok?
    ensures 1 <= limit <= 1000
    ensures var table := catalog(TableMap[tableName]);
      && FiltersOf(filters, table.columns).Ok?
      && List(catalog, tableName, limit, orderBy, filters).value ==
         ProjectRows(table.columns, Select(table.rows, FiltersOf(filters, table.columns).value,
                                           OrderingOf(orderBy, table.columns), limit))
  {
  }

  /**
   * `column__eq=value` on a declared column: every response row holds the
   * rendered value in that column, whatever other filters the request has.
   */
  lemma ListEqFilter(catalog: TableName -> Table, tableName: string, limit: int, orderBy: Option<string>,
                     filters: seq<(string, Value)>, k: nat, column: string, c: Cell)
    requires tableName in TableMap
    requires List(catalog, tableName, limit, orderBy, filters).Ok?
    requires k < |filters| && filters[k] == (column + "__eq", Scalar(c))
    requires column in catalog(TableMap[tableName]).columns
    requires forall i :: !PairAt(column, i)
    requires column != [] ==> column[|column| - 1] != '_'
    ensures forall o :: o in List(catalog, tableName, limit, orderBy, filters).value ==> o[column] == Render(c)
  {
    var table := catalog(TableMap[tableName]);
    ListOk(catalog, tableName, limit, orderBy, filters);
    var preds := FiltersOf(filters, table.columns).value;
    FilterOfColumn(column, table.columns, c, "", []);
    FiltersOfContains(filters, table.columns, k, Equals(column, c));
    ResponseHolds(table, preds, OrderingOf(orderBy, table.columns), limit, Equals(column, c));
  }

  /**
   * `column__in=a,b,...` on a declared column: every response row holds one of
   * the comma-separated values, as text, in that column.
   */
  lemma ListInFilter(catalog: TableName -> Table, tableName: string, limit: int, orderBy: Option<string>,
                     filters: seq<(string, Value)>, k: nat, column: string, s: string)
    requires tableName in TableMap
    requires List(catalog, tableName, limit, orderBy, filters).Ok?
    requires k < |filters| && filters[k] == (column + "__in", Scalar(Text(s)))
    requires column in catalog(TableMap[tableName]).columns
    requires forall i :: !PairAt(column, i)
    requires column != [] ==> column[|column| - 1] != '_'
    ensures forall o :: o in List(catalog, tableName, limit, orderBy, filters).value ==>
      exists j :: 0 <= j < |Split(s, ',')| && o[column] == Plain(Text(Split(s, ',')[j]))
  {
    var table := catalog(TableMap[tableName]);
    ListOk(catalog, tableName, limit, orderBy, filters);
    var preds := FiltersOf(filters, table.columns).value;
    var values := TextCells(Split(s, ','));
    FilterOfColumn(column, table.columns, Null, s, []);
    FiltersOfContains(filters, table.columns, k, OneOf(column, values));
    ResponseHolds(table, preds, OrderingOf(orderBy, table.columns), limit, OneOf(column, values));
    forall o | o in List(catalog, tableName, limit, orderBy, filters).value
      ensures exists j :: 0 <= j < |Split(s, ',')| && o[column] == Plain(Text(Split(s, ',')[j]))
    {
      var row :| Holds(OneOf(column, values), row) && o == ProjectRow(table.columns, row);
      var j :| 0 <= j < |values| && values[j] == Get(row, column);
      assert o[column] == Render(values[j]);
    }
  }

  /** Each response row renders a row of the table that meets every condition. */
  lemma ResponseMeaning(table: Table, preds: seq<Pred>, order: Option<Ordering>, limit: nat)
    ensures var out := ProjectRows(table.columns, Select(table.rows, preds, order, limit));
      forall k :: 0 <= k < |out| ==>
        exists row :: row in table.rows && AllHold(preds)(row) && out[k] == ProjectRow(table.columns, row)
  {
    var sel := Select(table.rows, preds, order, limit);
    SelectMeaning(table.rows, preds, order, limit);
    var out := ProjectRows(table.columns, sel);
    forall k | 0 <= k < |out|
      ensures exists row :: row in table.rows && AllHold(preds)(row) && out[k] == ProjectRow(table.columns, row)
    {
      var row := sel[k];
      assert row in sel;
    }
  }
}
